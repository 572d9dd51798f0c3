/** How many connections each endpoint should have. */
module PoolTarget {
  import opened Common
  import opened PoolState

  /** A compromise between what there is and what there was at the start, shared out and rounded down;
      at least one. */
  function Target(current: nat, required: nat, perEndpoint: nat, available: int): nat {
    var average := (current + required) / 2;
    if current == 0 || average == 0 || available <= 0 then 1
    else
      var estimated, shared := current / available, average / available;
      Max(1, if estimated < perEndpoint then Min(estimated, shared) else Max(perEndpoint, shared))
  }

  lemma SharedOut(total: nat, n: nat)
    requires n > 0
    ensures total / n * n <= total < (total / n + 1) * n
  {
    assert total == total / n * n + total % n;
    assert (total / n + 1) * n == total / n * n + n;
  }

  /** What the target is, without dividing. With fewer connections than the initial share for everybody it is what the
      smaller of their number and the average allows for each endpoint; otherwise what the average allows, but not less
      than the initial share. It is at least one. */
  predicate IsTarget(current: nat, required: nat, perEndpoint: nat, available: int, t: nat) {
    var average := (current + required) / 2;
    if current == 0 || average == 0 || available <= 0 then t == 1
    else if current < perEndpoint * available then
      && t >= 1 && (t + 1) * available > Min(current, average)
      && (t == 1 || t * available <= Min(current, average))
    else
      && t >= Max(1, perEndpoint) && (t + 1) * available > average
      && (t == Max(1, perEndpoint) || t * available <= average)
  }

  lemma TargetIsTarget(current: nat, required: nat, perEndpoint: nat, available: int)
    ensures IsTarget(current, required, perEndpoint, available, Target(current, required, perEndpoint, available))
  {
    var average := (current + required) / 2;
    if current > 0 && average > 0 && available > 0 {
      var estimated, shared := current / available, average / available;
      SharedOut(current, available);
      SharedOut(average, available);
      BelowShare(current, available, perEndpoint);
      if estimated < perEndpoint {
        SmallerShare(current, average, available);
      } else {
        LargerShare(average, available, perEndpoint);
      }
    }
  }

  /** There is only one such number. */
  lemma OneTarget(current: nat, required: nat, perEndpoint: nat, available: int, t: nat, u: nat)
    requires IsTarget(current, required, perEndpoint, available, t) && IsTarget(current, required, perEndpoint, available, u)
    ensures t == u
  {
    if available > 0 {
      if t < u {
        Scaled(t + 1, u, available);
      } else if u < t {
        Scaled(u + 1, t, available);
      }
    }
  }

  lemma BelowShare(current: nat, available: nat, perEndpoint: nat)
    requires available > 0
    ensures current / available < perEndpoint <==> current < perEndpoint * available
  {
    SharedOut(current, available);
    if current / available < perEndpoint {
      Scaled(current / available + 1, perEndpoint, available);
    } else {
      Scaled(perEndpoint, current / available, available);
    }
  }

  lemma SmallerShare(current: nat, average: nat, available: nat)
    requires available > 0
    ensures var t, m := Max(1, Min(current / available, average / available)), Min(current, average);
            (t + 1) * available > m && (t == 1 || t * available <= m)
  {
    var t := Max(1, Min(current / available, average / available));
    SharedOut(current, available);
    SharedOut(average, available);
    Scaled(Min(current / available, average / available), t, available);
    Scaled(Min(current / available, average / available) + 1, t + 1, available);
    if t > 1 {
      Scaled(t, current / available, available);
      Scaled(t, average / available, available);
    }
  }

  lemma LargerShare(average: nat, available: nat, perEndpoint: nat)
    requires available > 0
    ensures var t := Max(1, Max(perEndpoint, average / available));
            (t + 1) * available > average && (t == Max(1, perEndpoint) || t * available <= average)
  {
    var t := Max(1, Max(perEndpoint, average / available));
    SharedOut(average, available);
    Scaled(average / available + 1, t + 1, available);
  }

  /** The target is at least one. Beyond that it never asks for more than the larger of what there is and
      what was required at the start; and it grows over the initial share only when endpoints are missing. */
  lemma TargetBounds(current: nat, required: nat, perEndpoint: nat, available: int)
    ensures var t := Target(current, required, perEndpoint, available);
            && t >= 1
            && (t == 1 || t * available <= Max(current, required))
            && (t > perEndpoint && t > 1 ==> current >= perEndpoint * available)
            && (current > 0 && available > 0 && current / available >= perEndpoint ==> t >= perEndpoint)
  {
    if current > 0 && available > 0 {
      var average := (current + required) / 2;
      var estimated, shared := current / available, average / available;
      SharedOut(current, available);
      SharedOut(average, available);
      if estimated >= perEndpoint {
        Scaled(perEndpoint, estimated, available);
      } else {
        Scaled(Min(estimated, shared), estimated, available);
      }
    }
  }

  lemma Scaled(a: int, b: int, n: nat)
    requires a <= b
    ensures a * n <= b * n
  {
  }

  /** With all endpoints available and as many connections as required, the target is the initial share. */
  lemma TargetSteady(n: nat, perEndpoint: nat)
    requires n >= 1 && perEndpoint >= 1
    ensures Target(n * perEndpoint, n * perEndpoint, perEndpoint, n) == perEndpoint
  {
    var total := n * perEndpoint;
    assert total >= 1 by {
      Scaled(1, n, perEndpoint);
    }
    assert (total + total) / 2 == total;
    assert total / n == perEndpoint by {
      Quotient(total, n, perEndpoint);
    }
  }

  lemma Quotient(total: nat, n: nat, k: nat)
    requires n >= 1 && total == n * k
    ensures total / n == k
  {
    var q, r := total / n, total % n;
    assert total == n * q + r && 0 <= r < n;
    if q < k {
      Scaled(q + 1, k, n);
    } else if q > k {
      Scaled(k + 1, q, n);
    }
  }

  // ----- counting all connections

  /** The counted connections that lead to one of `keys`. */
  function Leading(counted: map<Conn, Addr>, keys: set<Addr>): set<Conn> {
    set c | c in counted && counted[c] in keys
  }

  lemma LeadingAdd(counted: map<Conn, Addr>, keys: set<Addr>, a: Addr)
    requires a !in keys
    ensures |Leading(counted, keys + {a})| == |Leading(counted, keys)| + Tally(counted, a)
  {
    var one := set c | c in counted && counted[c] == a;
    assert Leading(counted, keys + {a}) == Leading(counted, keys) + one;
    assert Leading(counted, keys) !! one;
  }

  lemma LeadingAll(counted: map<Conn, Addr>, counts: map<Addr, nat>)
    requires CountsOk(counted, counts)
    ensures |Leading(counted, counts.Keys)| == |counted|
  {
    forall c | c in counted ensures counted[c] in counts {
      var a := counted[c];
      TallyInc(counted - {c}, c, a);
      assert (counted - {c})[c := c.endpoint] == counted;
      assert At(counts, a) == Tally(counted, a);
    }
    assert Leading(counted, counts.Keys) == counted.Keys;
  }

  /** The same number at each of the keys. */
  lemma {:induction false} LeadingEven(counted: map<Conn, Addr>, keys: set<Addr>, k: nat)
    requires forall a :: a in keys ==> Tally(counted, a) == k
    ensures |Leading(counted, keys)| == |keys| * k
  {
    if keys == {} {
      assert Leading(counted, keys) == {};
    } else {
      var a :| a in keys;
      LeadingEven(counted, keys - {a}, k);
      LeadingAdd(counted, keys - {a}, a);
      assert keys - {a} + {a} == keys;
      assert |keys| * k == |keys - {a}| * k + k;
    }
  }

  // ----- what balancing achieves

  /** No endpoint has lost connections below the target, none has gained any. */
  ghost predicate Trimmed(before: map<Addr, nat>, after: map<Addr, nat>, target: nat) {
    forall a {:trigger At(after, a)} :: Min(At(before, a), target) <= At(after, a) <= At(before, a)
  }

  /** The endpoints in `done` that can be reached have dials for exactly what they lack; nothing else is
      dialled. */
  ghost predicate Raised(counts: map<Addr, nat>, before: map<Addr, nat>, after: map<Addr, nat>, target: nat,
                         done: set<Addr>, reachable: set<Addr>)
  {
    forall a {:trigger At(after, a)} :: At(after, a) == RaisedTo(counts, before, target, done * reachable, a)
  }

  function RaisedTo(counts: map<Addr, nat>, pending: map<Addr, nat>, target: nat, at: set<Addr>, a: Addr): nat {
    if a in at then Max(At(pending, a), target - At(counts, a)) else At(pending, a)
  }

  /** Where there were too many, the excess is gone, or there is nothing idle left to close, or one of the
      idle connections had been reported closed before. */
  ghost predicate Reduced(a: Addr, count: nat, target: nat, before: seq<Conn>, after: seq<Conn>, released: set<Conn>,
                          reported: set<Conn>)
  {
    || count <= target
    || (forall c :: c in after && c.endpoint == a ==> c in released)
    || (exists c :: c in before && c.endpoint == a && c in reported)
  }

  ghost predicate AllReduced(keys: set<Addr>, counts: map<Addr, nat>, target: nat, before: seq<Conn>, after: seq<Conn>,
                             released: set<Conn>, reported: set<Conn>)
  {
    forall a :: a in keys ==> Reduced(a, At(counts, a), target, before, after, released, reported)
  }

  ghost predicate Exact(counts: map<Addr, nat>, target: nat) {
    forall a :: a in counts ==> counts[a] == target
  }

  /** Only the counter of one endpoint has changed. */
  ghost predicate OnlyAt(before: map<Addr, nat>, after: map<Addr, nat>, addr: Addr) {
    forall a :: a != addr ==> At(after, a) == At(before, a)
  }

  /** Each of these addresses whose time has come, and that nobody was dialling, is being dialled now, once. */
  ghost predicate Redialled(before: map<Addr, nat>, after: map<Addr, nat>, dead: set<Addr>, due: set<Addr>, closed: bool) {
    forall a :: At(after, a) == At(before, a) + If(a in dead && a in due && a !in before && !closed)
  }

  lemma NothingRedialled(before: map<Addr, nat>, due: set<Addr>, closed: bool)
    ensures Redialled(before, before, {}, due, closed) && !AnyDue(before, {}, due)
  {
  }

  ghost predicate AnyDue(before: map<Addr, nat>, dead: set<Addr>, due: set<Addr>) {
    exists a :: a in dead && a in due && a !in before
  }

  lemma TrimmedStep(c0: map<Addr, nat>, c1: map<Addr, nat>, c2: map<Addr, nat>, target: nat, addr: Addr)
    requires Trimmed(c0, c1, target) && OnlyAt(c1, c2, addr) && At(c1, addr) == At(c0, addr)
    requires Min(At(c1, addr), target) <= At(c2, addr) <= At(c1, addr)
    ensures Trimmed(c0, c2, target)
  {
    forall a ensures Min(At(c0, a), target) <= At(c2, a) <= At(c0, a) {
      assert a != addr ==> At(c2, a) == At(c1, a);
    }
  }

  lemma RaisedStep(c0: map<Addr, nat>, c1: map<Addr, nat>, p0: map<Addr, nat>, p1: map<Addr, nat>, p2: map<Addr, nat>,
                   target: nat, done: set<Addr>, reachable: set<Addr>, addr: Addr)
    requires Raised(c0, p0, p1, target, done, reachable) && addr !in done && OnlyAt(p1, p2, addr)
    requires At(p2, addr) == RaisedTo(c1, p1, target, reachable, addr) && At(c1, addr) == At(c0, addr)
    ensures Raised(c0, p0, p2, target, done + {addr}, reachable)
  {
    forall a ensures At(p2, a) == RaisedTo(c0, p0, target, (done + {addr}) * reachable, a) {
      assert At(p1, a) == RaisedTo(c0, p0, target, done * reachable, a);
      assert a != addr ==> At(p2, a) == At(p1, a);
    }
  }

  lemma ReducedStep(keys: set<Addr>, c1: map<Addr, nat>, c2: map<Addr, nat>, target: nat, i0: seq<Conn>, i1: seq<Conn>,
                    i2: seq<Conn>, released: set<Conn>, reported: set<Conn>, addr: Addr)
    requires AllReduced(keys, c1, target, i0, i1, released, reported) && Fewer(i0, i1) && Fewer(i1, i2)
    requires OnlyAt(c1, c2, addr) && Reduced(addr, At(c2, addr), target, i1, i2, released, reported)
    ensures AllReduced(keys + {addr}, c2, target, i0, i2, released, reported)
  {
    forall a | a in keys + {addr} ensures Reduced(a, At(c2, a), target, i0, i2, released, reported) {
      assert a != addr ==> At(c2, a) == At(c1, a);
      assert a in keys ==> Reduced(a, At(c1, a), target, i0, i1, released, reported);
    }
  }

  /** Endpoints with connections first, the others afterwards. */
  lemma RaisedBoth(c0: map<Addr, nat>, c1: map<Addr, nat>, p0: map<Addr, nat>, p1: map<Addr, nat>, p2: map<Addr, nat>,
                   target: nat, reachable: set<Addr>)
    requires Raised(c0, p0, p1, target, c0.Keys, reachable) && c1.Keys == c0.Keys
    requires Raised(map[], p1, p2, target, reachable - c1.Keys, reachable)
    ensures Raised(c0, p0, p2, target, reachable, reachable)
  {
    forall a ensures At(p2, a) == RaisedTo(c0, p0, target, reachable * reachable, a) {
      assert At(p1, a) == RaisedTo(c0, p0, target, c0.Keys * reachable, a);
      assert At(p2, a) == RaisedTo(map[], p1, target, (reachable - c1.Keys) * reachable, a);
    }
  }

  lemma KeysKept(c0: map<Addr, nat>, c1: map<Addr, nat>, target: nat)
    requires Trimmed(c0, c1, target) && target >= 1
    requires forall a :: a in c0 ==> c0[a] > 0
    requires forall a :: a in c1 ==> c1[a] > 0
    ensures c1.Keys == c0.Keys
  {
    forall a ensures a in c0 <==> a in c1 {
      assert Min(At(c0, a), target) <= At(c1, a) <= At(c0, a);
    }
  }

  /** Every reachable endpoint has, or will have, as many connections as the target says. */
  lemma Enough(c0: map<Addr, nat>, c1: map<Addr, nat>, p0: map<Addr, nat>, p1: map<Addr, nat>, target: nat,
               reachable: set<Addr>, a: Addr)
    requires Trimmed(c0, c1, target) && Raised(c0, p0, p1, target, reachable, reachable) && a in reachable
    ensures At(c1, a) + At(p1, a) >= target
  {
    assert At(p1, a) == RaisedTo(c0, p0, target, reachable * reachable, a);
    assert Min(At(c0, a), target) <= At(c1, a);
  }
}
