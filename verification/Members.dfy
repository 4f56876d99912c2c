/** Member names of a Valkey shard: the three parts of a key joined by bars, and taken apart again. */
module Members {
  import opened Contract

  function Member(k: Key): string {
    k.workspace + "|" + k.session + "|" + k.peer
  }

  /** The position of the first bar, or the length if there is none. */
  function FirstBar(s: string): (i: nat)
    ensures i <= |s| && (i < |s| ==> s[i] == '|')
    ensures forall j :: 0 <= j < i ==> s[j] != '|'
  {
    if s == "" || s[0] == '|' then 0 else 1 + FirstBar(s[1..])
  }

  /** Split at bars into at most n parts; the last part keeps any further bars. */
  function SplitN(s: string, n: nat): (parts: seq<string>)
    requires n > 0
    ensures 1 <= |parts| <= n
  {
    var i := FirstBar(s);
    if n == 1 || i == |s| then [s] else [s[..i]] + SplitN(s[i + 1..], n - 1)
  }

  function PadTo3(parts: seq<string>): (r: seq<string>)
    requires |parts| <= 3
    ensures |r| == 3 && parts <= r
    decreases 3 - |parts|
  {
    if |parts| == 3 then parts else PadTo3(parts + [""])
  }

  function SplitMember(m: string): Key {
    var parts := PadTo3(SplitN(m, 3));
    Key(parts[0], parts[1], parts[2])
  }

  predicate NoBar(s: string) {
    forall i :: 0 <= i < |s| ==> s[i] != '|'
  }

  lemma SplitHead(a: string, rest: string, n: nat)
    requires NoBar(a) && n > 1
    ensures SplitN(a + "|" + rest, n) == [a] + SplitN(rest, n - 1)
  {
    var s := a + "|" + rest;
    assert s[|a|] == '|';
    assert forall j :: 0 <= j < |a| ==> s[j] == a[j];
    assert FirstBar(s) == |a|;
    assert s[..|a|] == a && s[|a| + 1..] == rest;
  }

  /** The parts in front hold no bars, whatever was split. */
  lemma SplitFronts(m: string)
    ensures NoBar(SplitMember(m).workspace) && NoBar(SplitMember(m).session)
  {
    var i := FirstBar(m);
    if i < |m| {
      var rest := m[i + 1..];
      assert SplitN(m, 3) == [m[..i]] + SplitN(rest, 2);
    }
  }

  /** A key comes back from its member name exactly when its workspace and session hold no bar. */
  lemma SplitMemberInverts(k: Key)
    ensures SplitMember(Member(k)) == k <==> NoBar(k.workspace) && NoBar(k.session)
  {
    if NoBar(k.workspace) && NoBar(k.session) {
      assert Member(k) == k.workspace + "|" + (k.session + "|" + k.peer);
      SplitHead(k.workspace, k.session + "|" + k.peer, 3);
      SplitHead(k.session, k.peer, 2);
    } else {
      SplitFronts(Member(k));
    }
  }

  /** So on such keys no two units share a hash or a stream. */
  lemma MemberInjective(a: Key, b: Key)
    requires NoBar(a.workspace) && NoBar(a.session) && NoBar(b.workspace) && NoBar(b.session)
    requires Member(a) == Member(b)
    ensures a == b
  {
    SplitMemberInverts(a);
    SplitMemberInverts(b);
  }

  /** Where a bar moves between session and peer, two units do. */
  lemma MembersCollide(w: string, s: string, t: string, p: string)
    ensures Key(w, s + "|" + t, p) != Key(w, s, t + "|" + p)
    ensures Member(Key(w, s + "|" + t, p)) == Member(Key(w, s, t + "|" + p))
  {
    assert |s + "|" + t| > |s|;
    assert Member(Key(w, s + "|" + t, p)) == w + "|" + s + "|" + t + "|" + p;
    assert Member(Key(w, s, t + "|" + p)) == w + "|" + s + "|" + t + "|" + p;
  }
}
