/** Small notions shared by the other modules. */
module Common {

  datatype Option<+T> = None | Some(value: T)

  /** The largest datagram, and so the limit on a V1 request over UDP. */
  const MAX_UDP_REQ_SIZE_V1 := 65507

  function Min(a: int, b: int): int {
    if a < b then a else b
  }

  function Max(a: int, b: int): int {
    if a < b then b else a
  }

  function If(b: bool): nat {
    if b then 1 else 0
  }

  predicate Distinct<T(==)>(xs: seq<T>) {
    forall i, j :: 0 <= i < j < |xs| ==> xs[i] != xs[j]
  }

  /** Membership by name, for statements about sets and maps that are to be used where they are named. */
  predicate In<T(==)>(x: T, s: set<T>) {
    x in s
  }

  predicate InMap<K(==), V>(k: K, m: map<K, V>) {
    k in m
  }
}
