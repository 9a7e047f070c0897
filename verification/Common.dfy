// Small generic definitions shared by the other modules.
module Common {

  datatype Option<+T> = None | Some(value: T)

  datatype Result<+T> = Ok(value: T) | Err(error: string)

  /** No element occurs twice. */
  ghost predicate Distinct<T>(s: seq<T>) {
    forall i, j :: 0 <= i < j < |s| ==> s[i] != s[j]
  }

  /** `order` lists every member of `keys` exactly once: one possible iteration order of a Go map. */
  ghost predicate Enumerates<T(!new)>(order: seq<T>, keys: set<T>) {
    && Distinct(order)
    && forall x :: x in order <==> x in keys
  }

  function Min(a: int, b: int): int {
    if a < b then a else b
  }

  /** The element at index `i` goes to the back; the others keep their order. */
  function MoveToLast<T>(s: seq<T>, i: nat): (r: seq<T>)
    requires i < |s|
    ensures |r| == |s|
  {
    s[..i] + s[i + 1..] + [s[i]]
  }

  lemma FirstOfPrefix<T>(a: seq<T>, b: seq<T>, i: nat)
    requires i < |a| && i < |b| && a[..i] == b[..i]
    ensures i > 0 ==> a[0] == b[0]
  {
    assert i > 0 ==> a[..i][0] == a[0] && b[..i][0] == b[0];
  }
}
