/** Lease tokens: a worker id and a per-backend counter rendered into one string. */
module Tokens {

  const DIGITS: string := "0123456789"

  predicate IsDecimal(s: string) {
    forall i :: 0 <= i < |s| ==> s[i] in DIGITS
  }

  /** Decimal rendering of a counter. */
  function Decimal(n: nat): (s: string)
    ensures if n < 10 then |s| == 1 else |s| > 1
    ensures IsDecimal(s)
  {
    if n < 10 then [DIGITS[n]] else Decimal(n / 10) + [DIGITS[n % 10]]
  }

  lemma DigitsDistinct(a: nat, b: nat)
    requires a < 10 && b < 10 && DIGITS[a] == DIGITS[b]
    ensures a == b
  {
    assert DIGITS == ['0', '1', '2', '3', '4', '5', '6', '7', '8', '9'];
  }

  lemma {:induction false} DecimalInjective(a: nat, b: nat)
    requires Decimal(a) == Decimal(b)
    ensures a == b
  {
    var s := Decimal(a);
    assert s[|s| - 1] == DIGITS[a % 10] == DIGITS[b % 10];
    DigitsDistinct(a % 10, b % 10);
    if a >= 10 {
      assert Decimal(a / 10) == s[..|s| - 1] == Decimal(b / 10);
      DecimalInjective(a / 10, b / 10);
    }
  }

  /** What a string of decimal digits stands for. */
  function Value(s: string): int {
    if s == "" then 0 else 10 * Value(s[..|s| - 1]) + (s[|s| - 1] as int - '0' as int)
  }

  /** A counter is rendered by the digits that stand for it, without a leading zero. */
  lemma {:induction false} DecimalReads(n: nat)
    ensures Value(Decimal(n)) == n && (n > 0 ==> Decimal(n)[0] != '0')
  {
    var s := Decimal(n);
    assert DIGITS == ['0', '1', '2', '3', '4', '5', '6', '7', '8', '9'];
    if n < 10 {
      assert s[..0] == "";
    } else {
      DecimalReads(n / 10);
      assert s[..|s| - 1] == Decimal(n / 10);
    }
  }

  /** The in-memory backend's token: worker id, dash, counter. */
  function MemoryToken(worker: string, n: nat): string {
    worker + "-" + Decimal(n)
  }

  /** The Valkey driver's token: counter, dash, worker id. */
  function ValkeyToken(worker: string, n: nat): string {
    Decimal(n) + "-" + worker
  }

  /** The last dash of a memory token is its separator, whatever dashes the worker id holds. */
  lemma LastDash(w: string, n: nat)
    ensures var t := MemoryToken(w, n);
            t[|w|] == '-' && forall i :: |w| < i < |t| ==> t[i] != '-'
  {
    var t, d := MemoryToken(w, n), Decimal(n);
    forall i | |w| < i < |t| ensures t[i] != '-' {
      assert t[i] == d[i - |w| - 1] && d[i - |w| - 1] in DIGITS;
    }
  }

  lemma MemoryTokenInjective(w1: string, n1: nat, w2: string, n2: nat)
    requires MemoryToken(w1, n1) == MemoryToken(w2, n2)
    ensures w1 == w2 && n1 == n2
  {
    var t := MemoryToken(w1, n1);
    LastDash(w1, n1);
    LastDash(w2, n2);
    assert w1 == t[..|w1|] && w2 == t[..|w2|];
    assert Decimal(n1) == t[|w1| + 1..] && Decimal(n2) == t[|w2| + 1..];
    DecimalInjective(n1, n2);
  }

  lemma FirstDash(w: string, n: nat)
    ensures var t, d := ValkeyToken(w, n), Decimal(n);
            t[|d|] == '-' && forall i :: 0 <= i < |d| ==> t[i] != '-'
  {
    var t, d := ValkeyToken(w, n), Decimal(n);
    forall i | 0 <= i < |d| ensures t[i] != '-' {
      assert t[i] == d[i] && d[i] in DIGITS;
    }
  }

  lemma ValkeyTokenInjective(w1: string, n1: nat, w2: string, n2: nat)
    requires ValkeyToken(w1, n1) == ValkeyToken(w2, n2)
    ensures w1 == w2 && n1 == n2
  {
    var t, d1, d2 := ValkeyToken(w1, n1), Decimal(n1), Decimal(n2);
    FirstDash(w1, n1);
    FirstDash(w2, n2);
    assert d1 == t[..|d1|] && d2 == t[..|d2|];
    assert w1 == t[|d1| + 1..] && w2 == t[|d2| + 1..];
    DecimalInjective(n1, n2);
  }

  /** The worker a Valkey token was drawn for: whatever follows the first dash. */
  function WorkerOf(token: string): string {
    if token == "" then "" else if token[0] == '-' then token[1..] else WorkerOf(token[1..])
  }

  lemma {:induction false} WorkerAfterDash(digits: string, worker: string)
    requires IsDecimal(digits)
    ensures WorkerOf(digits + "-" + worker) == worker
  {
    var t := digits + "-" + worker;
    if digits == "" {
      assert t[1..] == worker;
    } else {
      assert t[0] == digits[0] && digits[0] in DIGITS;
      assert t[1..] == digits[1..] + "-" + worker;
      WorkerAfterDash(digits[1..], worker);
    }
  }

  /** A token drawn for a worker names that worker, so the scripts may compare tokens alone. */
  lemma TokenNamesWorker(worker: string, n: nat)
    ensures WorkerOf(ValkeyToken(worker, n)) == worker
  {
    WorkerAfterDash(Decimal(n), worker);
  }
}
