/** The vocabulary every backend and the worker loop share: keys, tasks, claims and outcomes. */
module Contract {

  datatype Option<+T> = None | Some(value: T)

  /** Identity of a work unit. */
  datatype Key = Key(workspace: string, session: string, peer: string) {
    /** The slash-separated rendering used to break ties between equally old units. */
    function Render(): string {
      workspace + "/" + session + "/" + peer
    }
  }

  /** One item of a unit's FIFO. Integers are unbounded; payloads are opaque. */
  datatype Task = Task(seqNo: int, payload: string, cost: int)

  /** A handle on a leased unit, as Claim hands it out. */
  datatype Claimed<+K> = Claimed(key: K, worker: string, token: string, till: int)

  /** Result of an operation that presents a claim. */
  datatype Outcome<+T> = Ok(value: T) | LeaseLost {
    predicate IsFailure() {
      LeaseLost?
    }

    function PropagateFailure<U>(): Outcome<U>
      requires LeaseLost?
    {
      LeaseLost
    }

    function Extract(): T
      requires Ok?
    {
      value
    }
  }
}
