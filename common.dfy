/**
 * Small shared definitions: an optional value, how an awaited promise
 * settled, and what it means for one list to keep some of another's elements
 * in order.
 */
module Common {

  /** TypeScript's `T | undefined` / `T | null`. */
  datatype Option<+T> = None | Some(value: T) {
    function GetOr(default: T): T {
      match this
      case Some(v) => v
      case None => default
    }
  }

  /**
   * How the one `await` inside an async handler settled. Every handler in the
   * application awaits exactly one promise (a mock timer or a context call),
   * so the whole handler is modelled as one atomic step taking this outcome.
   */
  datatype Settled = Fulfilled | Rejected(reason: string)

  /** `a` is `b` with some elements removed, the rest kept in order. */
  predicate IsSubsequence<T(==)>(a: seq<T>, b: seq<T>)
    decreases |b|
  {
    if a == [] then true
    else if b == [] then false
    else (a[0] == b[0] && IsSubsequence(a[1..], b[1..])) || IsSubsequence(a, b[1..])
  }
}
