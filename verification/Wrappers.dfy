/** The failure-compatible datatype used in place of Go's (value, error) pairs
    wherever the error text is only logged. */
module Wrappers {
  datatype Option<+T> = None | Some(value: T) {
    predicate IsFailure() {
      None?
    }

    function PropagateFailure<U>(): Option<U>
      requires None?
    {
      None
    }

    function Extract(): T
      requires Some?
    {
      value
    }

    function GetOr(default: T): T {
      if Some? then value else default
    }
  }

  lemma {:induction false} Regroup<T>(a: seq<T>, b: seq<T>, c: seq<T>)
    ensures a + b + c == a + (b + c)
  {
  }

  lemma {:induction false} SentAppend<T>(sent: seq<T>, emitted: seq<T>, later: multiset<T>)
    ensures multiset(sent + emitted) + later == multiset(sent) + (multiset(emitted) + later)
  {
  }

  lemma {:induction false} RegroupBags<T>(a: multiset<T>, b: multiset<T>, c: multiset<T>)
    ensures (a + b) + c == a + (b + c)
  {
  }
}
