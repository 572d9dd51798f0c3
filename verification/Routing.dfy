/** Batch ids name the worker that made them, and responses find their way back by that. */
module Routing {
  import opened Common

  const MAX_INT: int := 0x7FFF_FFFF_FFFF_FFFF

  function Digit(d: nat): char
    requires d < 10
  {
    '0' + d as char
  }

  predicate IsDigit(c: char) {
    '0' <= c <= '9'
  }

  predicate AllDigits(s: string) {
    forall i :: 0 <= i < |s| ==> IsDigit(s[i])
  }

  /** `strconv.Itoa` of a worker index. */
  function Itoa(n: nat): (s: string)
    ensures s != [] && AllDigits(s)
  {
    if n < 10 then [Digit(n)] else Itoa(n / 10) + [Digit(n % 10)]
  }

  function Value(s: string): nat
    requires AllDigits(s)
  {
    if s == [] then 0 else 10 * Value(s[..|s| - 1]) + (s[|s| - 1] - '0') as nat
  }

  /** `strconv.Atoi`: an optional sign, then digits, within the 64-bit range. */
  function Atoi(s: string): Option<int> {
    var signed := s != [] && (s[0] == '-' || s[0] == '+');
    var digits := if signed then s[1..] else s;
    if digits == [] || !AllDigits(digits) then None
    else
      var n := if signed && s[0] == '-' then 0 - Value(digits) else Value(digits);
      if -MAX_INT - 1 <= n <= MAX_INT then Some(n) else None
  }

  /** Position of the first colon, or -1. */
  function Colon(id: string): (i: int)
    ensures i == -1 ==> ':' !in id
    ensures i != -1 ==> 0 <= i < |id| && id[i] == ':' && ':' !in id[..i]
  {
    if id == [] then -1
    else if id[0] == ':' then 0
    else
      var i := Colon(id[1..]);
      if i == -1 then -1
      else
        assert id[..i + 1] == [id[0]] + id[1..][..i];
        i + 1
  }

  function BuildBatchId(index: string, unique: string): string {
    index + ":" + unique
  }

  function WorkerIndex(id: string): int {
    var i := Colon(id);
    if i <= 0 then -1
    else match Atoi(id[..i]) case None => -1 case Some(n) => n
  }

  /** The worker a response goes to, of `workers` workers. */
  function Route(workers: nat, id: string): Option<nat> {
    var i := WorkerIndex(id);
    if i < 0 || i >= workers then None else Some(i)
  }

  lemma {:induction false} ValueInvertsItoa(n: nat)
    ensures Value(Itoa(n)) == n
  {
    if n >= 10 {
      ValueInvertsItoa(n / 10);
      assert Itoa(n)[..|Itoa(n)| - 1] == Itoa(n / 10);
    }
  }

  lemma AtoiInvertsItoa(n: nat)
    requires n <= MAX_INT
    ensures Atoi(Itoa(n)) == Some(n)
  {
    ValueInvertsItoa(n);
    assert IsDigit(Itoa(n)[0]);
  }

  /** Whatever follows the colon, the index comes back. */
  lemma IndexComesBack(index: nat, unique: string)
    requires index <= MAX_INT
    ensures WorkerIndex(BuildBatchId(Itoa(index), unique)) == index
  {
    var s := Itoa(index);
    var id := BuildBatchId(s, unique);
    var i := Colon(id);
    assert id[|s|] == ':';
    assert forall k :: 0 <= k < |s| ==> id[k] == s[k] && IsDigit(s[k]);
    assert id[..i] == s;
    AtoiInvertsItoa(index);
  }

  /** A response to a worker's own batch reaches that worker, and no other worker makes the same id. */
  lemma ResponsesReturn(workers: nat, index: nat, unique: string)
    requires index < workers <= MAX_INT
    ensures Route(workers, BuildBatchId(Itoa(index), unique)) == Some(index)
    ensures forall other, u :: 0 <= other < workers && BuildBatchId(Itoa(other), u) == BuildBatchId(Itoa(index), unique) ==>
                                 other == index
  {
    IndexComesBack(index, unique);
    forall other: nat, u | other < workers && BuildBatchId(Itoa(other), u) == BuildBatchId(Itoa(index), unique)
      ensures other == index
    {
      IndexComesBack(other, u);
    }
  }
}
