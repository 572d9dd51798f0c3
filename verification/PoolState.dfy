/** What the connection pool keeps track of, one predicate per concern, and the arithmetic of its
    redundant counters. */
module PoolState {
  import opened Common

  /** Addresses are non-empty; an address that can no longer be read is `None`. */
  type Addr = nat

  /** A connection and the endpoint it was dialled to. */
  datatype Conn = Conn(id: nat, endpoint: Addr)

  /** The reply channel of one `Get`. */
  type Token = nat

  datatype Reply = Got(conn: Conn) | Failed

  /** A reply, and the endpoints that were allowed when it was given. */
  datatype Answer = Answer(token: Token, reply: Reply, allowed: set<Addr>)

  datatype Dialled = Connected(conn: Conn) | DialError | NilConn

  datatype Cmd =
    | Get(token: Token)
    | Put(conn: Conn, broken: bool)
    | Update(all: seq<Addr>, add: seq<Addr>, del: seq<Addr>)
    | ConnClosed(closedConn: Conn, addr: Option<Addr>, failed: bool)
    | DialResult(dialAddr: Addr, dialled: Dialled, reply: Option<Token>)
    | Close

  /** A dial goroutine. */
  datatype Dial = Dial(addr: Addr, reply: Option<Token>)

  /** `Sent` is the state between the close command being queued and being handled. */
  datatype Stage = Open | Waiting | Sent | Done

  // ----- what a queued item carries

  function One<T>(o: Option<T>): multiset<T> {
    match o case None => multiset{} case Some(x) => multiset{x}
  }

  function TokensOf(c: Cmd): multiset<Token> {
    match c
    case Get(t) => multiset{t}
    case DialResult(_, _, reply) => One(reply)
    case _ => multiset{}
  }

  function ConnsOf(c: Cmd): multiset<Conn> {
    match c
    case Put(conn, _) => multiset{conn}
    case DialResult(_, Connected(conn), _) => multiset{conn}
    case _ => multiset{}
  }

  function DialsOf(c: Cmd): multiset<Addr> {
    match c
    case DialResult(addr, _, _) => multiset{addr}
    case _ => multiset{}
  }

  function DialTokens(d: Dial): multiset<Token> {
    One(d.reply)
  }

  function DialAddrs(d: Dial): multiset<Addr> {
    multiset{d.addr}
  }

  function AnswerTokens(a: Answer): multiset<Token> {
    multiset{a.token}
  }

  /** Commands that pass through the admission gate. */
  predicate Gated(c: Cmd) {
    c.Put? || c.ConnClosed?
  }

  function Sum<E, T>(es: seq<E>, f: E -> multiset<T>): multiset<T> {
    if es == [] then multiset{} else Sum(es[..|es| - 1], f) + f(es[|es| - 1])
  }

  lemma SumAppend<E, T>(es: seq<E>, e: E, f: E -> multiset<T>)
    ensures Sum(es + [e], f) == Sum(es, f) + f(e)
  {
    assert (es + [e])[..|es|] == es;
  }

  lemma {:induction false} SumRemove<E, T>(es: seq<E>, i: nat, f: E -> multiset<T>)
    requires i < |es|
    ensures Sum(es, f) == Sum(es[..i] + es[i + 1..], f) + f(es[i])
  {
    var n := |es| - 1;
    if i == n {
      assert es[..i] + es[i + 1..] == es[..n];
    } else {
      SumRemove(es[..n], i, f);
      var rest := es[..i] + es[i + 1..];
      assert rest[..|rest| - 1] == es[..n][..i] + es[..n][i + 1..];
    }
  }

  lemma SumPop<E, T>(es: seq<E>, f: E -> multiset<T>)
    requires es != []
    ensures Sum(es, f) == Sum(es[1..], f) + f(es[0])
  {
    SumRemove(es, 0, f);
    assert es[..0] + es[1..] == es[1..];
  }

  /** What two items carry counts twice. */
  lemma SumTwice<E, T>(es: seq<E>, i: nat, j: nat, f: E -> multiset<T>, x: T)
    requires i < j < |es| && x in f(es[i]) && x in f(es[j])
    ensures Sum(es, f)[x] >= 2
  {
    SumRemove(es, j, f);
    var rest := es[..j] + es[j + 1..];
    SumRemove(rest, i, f);
    assert rest[i] == es[i];
  }

  /** What is in the sum comes from somewhere. */
  lemma {:induction false} SumSource<E, T>(es: seq<E>, f: E -> multiset<T>, x: T)
    ensures x in Sum(es, f) <==> exists i :: 0 <= i < |es| && x in f(es[i])
  {
    if es != [] {
      var n := |es| - 1;
      SumSource(es[..n], f, x);
      assert forall i :: 0 <= i < n ==> es[..n][i] == es[i];
    }
  }

  // ----- counters

  /** How many counted connections lead to `a`. */
  function Tally(counted: map<Conn, Addr>, a: Addr): nat {
    |set c | c in counted && counted[c] == a|
  }

  function At(m: map<Addr, nat>, a: Addr): nat {
    if a in m then m[a] else 0
  }

  /** The per-endpoint counters say what the table of counted connections says; there are no zero
      entries. */
  ghost predicate CountsOk(counted: map<Conn, Addr>, counts: map<Addr, nat>) {
    && (forall c {:trigger counted[c]} :: c in counted ==> counted[c] == c.endpoint)
    && (forall a {:trigger Tally(counted, a)} :: At(counts, a) == Tally(counted, a) && (a in counts ==> counts[a] > 0))
  }

  lemma TallyInc(counted: map<Conn, Addr>, c: Conn, a: Addr)
    requires c !in counted
    ensures Tally(counted[c := c.endpoint], a) == Tally(counted, a) + if a == c.endpoint then 1 else 0
  {
    var before := set x | x in counted && counted[x] == a;
    var more := counted[c := c.endpoint];
    var after := set x | x in more && more[x] == a;
    if a == c.endpoint {
      assert after == before + {c};
    } else {
      assert after == before;
    }
  }

  lemma CountsPositive(counted: map<Conn, Addr>, counts: map<Addr, nat>)
    requires CountsOk(counted, counts)
    ensures forall a :: a in counts ==> counts[a] > 0
  {
    assert forall a :: a in counts ==> At(counts, a) == Tally(counted, a);
  }

  lemma CountsInc(counted: map<Conn, Addr>, counts: map<Addr, nat>, c: Conn)
    requires CountsOk(counted, counts) && c !in counted
    ensures CountsOk(counted[c := c.endpoint], counts[c.endpoint := At(counts, c.endpoint) + 1])
  {
    var more, up := counted[c := c.endpoint], counts[c.endpoint := At(counts, c.endpoint) + 1];
    forall a ensures At(up, a) == Tally(more, a) && (a in up ==> up[a] > 0) {
      TallyInc(counted, c, a);
      assert At(counts, a) == Tally(counted, a);
    }
  }

  /** The counters after a connection has left. */
  function Lowered(counts: map<Addr, nat>, a: Addr): map<Addr, nat> {
    if At(counts, a) <= 1 then counts - {a} else counts[a := counts[a] - 1]
  }

  lemma CountsDec(counted: map<Conn, Addr>, counts: map<Addr, nat>, c: Conn)
    requires CountsOk(counted, counts) && c in counted
    ensures CountsOk(counted - {c}, Lowered(counts, c.endpoint)) && At(counts, c.endpoint) >= 1
  {
    assert At(counts, c.endpoint) == Tally(counted, c.endpoint);
    var less := counted - {c};
    forall a ensures Tally(counted, a) == Tally(less, a) + if a == c.endpoint then 1 else 0 {
      TallyInc(less, c, a);
      assert less[c := c.endpoint] == counted;
    }
    forall d | d in less ensures less[d] == d.endpoint {
      assert counted[d] == d.endpoint;
    }
    var low := Lowered(counts, c.endpoint);
    forall a ensures At(low, a) == Tally(less, a) && (a in low ==> low[a] > 0) {
      assert At(counts, a) == Tally(counted, a) && (a in counts ==> counts[a] > 0);
    }
  }

  /** The same when it may not have been counted. */
  lemma CountsForget(counted: map<Conn, Addr>, counts: map<Addr, nat>, c: Conn)
    requires CountsOk(counted, counts)
    ensures c in counted ==> counted[c] == c.endpoint
    ensures CountsOk(counted - {c}, if c in counted then Lowered(counts, c.endpoint) else counts)
  {
    if c in counted {
      CountsDec(counted, counts, c);
    } else {
      assert counted - {c} == counted;
    }
  }

  // ----- the concerns

  /** In how many places a connection is: idle, on its way in, or handed out. */
  ghost function Spots(c: Conn, idle: seq<Conn>, cmds: seq<Cmd>, gate: seq<Cmd>, held: set<Conn>): nat {
    multiset(idle)[c] + Sum(cmds, ConnsOf)[c] + Sum(gate, ConnsOf)[c] + If(c in held)
  }

  /** A connection is in one place at a time, and in none once the pool has decided to close it. One that
      is in no place is closed or closing, or has been reported closed. A leaked one is still in its place. */
  ghost predicate Exclusive(idle: seq<Conn>, cmds: seq<Cmd>, gate: seq<Cmd>, held: set<Conn>, hand: set<Conn>,
                            dialled: set<Conn>, closing: set<Conn>, reported: set<Conn>)
  {
    && (forall c {:trigger Spots(c, idle, cmds, gate, held)} ::
          var n := Spots(c, idle, cmds, gate, held) + If(c in hand);
          if n == 0 then c in dialled ==> c in closing || c in reported
          else n == 1 && c in dialled && c !in closing)
    && (forall c {:trigger In(c, closing)} :: In(c, closing) ==> c in dialled)
  }

  predicate PutQueued(c: Conn, cmds: seq<Cmd>) {
    exists i :: 0 <= i < |cmds| && cmds[i].Put? && cmds[i].conn == c
  }

  /** A connection that has been handed out before, or is ready to be. */
  predicate Settled(c: Conn, idle: seq<Conn>, cmds: seq<Cmd>, gate: seq<Cmd>, held: set<Conn>) {
    c in idle || PutQueued(c, cmds) || PutQueued(c, gate) || c in held
  }

  /** Such a connection is counted, unless its closing has been reported. */
  ghost predicate CountedOk(idle: seq<Conn>, cmds: seq<Cmd>, gate: seq<Cmd>, held: set<Conn>,
                            counted: map<Conn, Addr>, reported: set<Conn>)
  {
    forall c {:trigger Settled(c, idle, cmds, gate, held)} ::
      Settled(c, idle, cmds, gate, held) ==> c in counted || c in reported
  }

  /** Nothing given back to the pool is forgotten. */
  ghost predicate FateOk(given: set<Conn>, closing: set<Conn>, reported: set<Conn>, idle: seq<Conn>, cmds: seq<Cmd>,
                         gate: seq<Cmd>, held: set<Conn>, hand: set<Conn>)
  {
    forall c {:trigger In(c, given)} ::
      In(c, given) ==> c in closing || c in reported || c in hand || Settled(c, idle, cmds, gate, held)
  }

  ghost function TokenSpots(t: Token, cmds: seq<Cmd>, dials: seq<Dial>, answers: seq<Answer>): nat {
    Sum(cmds, TokensOf)[t] + Sum(dials, DialTokens)[t] + Sum(answers, AnswerTokens)[t]
  }

  /** Every reply token is in exactly one place: queued, with a dial, or answered. */
  ghost predicate TokensOk(issued: set<Token>, cmds: seq<Cmd>, dials: seq<Dial>, answers: seq<Answer>,
                           hand: Option<Token>)
  {
    forall t: Token {:trigger TokenSpots(t, cmds, dials, answers)} ::
      TokenSpots(t, cmds, dials, answers) + If(hand == Some(t)) == If(t in issued)
  }

  ghost function DialSpots(a: Addr, dials: seq<Dial>, cmds: seq<Cmd>, lost: multiset<Addr>): nat {
    Sum(dials, DialAddrs)[a] + Sum(cmds, DialsOf)[a] + lost[a]
  }

  /** Pending dials are the dial goroutines and the results on their way; some are lost after closing. */
  ghost predicate PendingOk(pending: map<Addr, nat>, dials: seq<Dial>, cmds: seq<Cmd>, lost: multiset<Addr>,
                            closed: bool, hand: Option<Addr>)
  {
    && (forall a: Addr {:trigger DialSpots(a, dials, cmds, lost)} ::
          && At(pending, a) == DialSpots(a, dials, cmds, lost) + If(hand == Some(a))
          && (a in pending ==> pending[a] > 0))
    && (!closed ==> lost == multiset{})
  }

  /** The close command is queued once, and nothing that passed the gate comes after it. */
  ghost predicate CloseLast(cmds: seq<Cmd>) {
    exists i :: 0 <= i < |cmds| && cmds[i] == Close
                && (forall j :: 0 <= j < |cmds| && j != i ==> cmds[j] != Close)
                && (forall j :: i < j < |cmds| ==> !Gated(cmds[j]))
  }

  ghost predicate Quiet(cmds: seq<Cmd>) {
    forall j :: 0 <= j < |cmds| ==> !Gated(cmds[j]) && cmds[j] != Close
  }

  ghost predicate GateOk(stage: Stage, closed: bool, gate: seq<Cmd>, cmds: seq<Cmd>) {
    && closed == (stage != Open)
    && (forall j :: 0 <= j < |gate| ==> Gated(gate[j]))
    && (stage == Sent || stage == Done ==> gate == [])
    && (stage == Open || stage == Waiting ==> forall j :: 0 <= j < |cmds| ==> cmds[j] != Close)
    && (stage == Sent ==> CloseLast(cmds))
    && (stage == Done ==> Quiet(cmds))
  }

  /** Addresses that come with connections are their own. */
  predicate Truthful(c: Cmd) {
    match c
    case ConnClosed(conn, addr, _) => addr == None || addr == Some(conn.endpoint)
    case DialResult(addr, Connected(conn), _) => conn.endpoint == addr
    case _ => true
  }

  ghost predicate AllTruthful(cmds: seq<Cmd>) {
    forall i :: 0 <= i < |cmds| ==> Truthful(cmds[i])
  }

  /** A reply carries a connection only to an endpoint that was allowed at that moment. */
  ghost predicate AnswersOk(answers: seq<Answer>) {
    forall i :: 0 <= i < |answers| && answers[i].reply.Got? ==> answers[i].reply.conn.endpoint in answers[i].allowed
  }

  predicate Posted(answers: seq<Answer>, i: int)
    requires 0 <= i < |answers|
  {
    answers[i].reply.Got?
  }

  /** What is in the mail has been sent to somebody who has not returned, and to nobody else. */
  ghost predicate InMail(answers: seq<Answer>, mail: map<Token, Conn>, returned: set<Token>, orphans: set<Conn>,
                         lent: set<Conn>)
  {
    && (forall t {:trigger InMap(t, mail)} :: InMap(t, mail) ==>
          t !in returned && t in Sum(answers, AnswerTokens) && mail[t] in lent && mail[t] !in orphans)
    && (forall t, u {:trigger InMap(t, mail), InMap(u, mail)} ::
          InMap(t, mail) && InMap(u, mail) && mail[t] == mail[u] ==> t == u)
  }

  /** A reply with a connection stays in the mail until its caller returns. */
  ghost predicate Mailed(answers: seq<Answer>, mail: map<Token, Conn>, returned: set<Token>) {
    forall i {:trigger Posted(answers, i)} :: 0 <= i < |answers| && Posted(answers, i) && answers[i].token !in returned ==>
      answers[i].token in mail && mail[answers[i].token] == answers[i].reply.conn
  }

  /** Callers leave without their replies only when the pool goroutine has ended. */
  ghost predicate Gone(answers: seq<Answer>, returned: set<Token>, orphans: set<Conn>, lent: set<Conn>, stage: Stage) {
    && (forall t {:trigger In(t, returned)} :: In(t, returned) ==> stage == Done || t in Sum(answers, AnswerTokens))
    && (forall c {:trigger In(c, orphans)} :: In(c, orphans) ==> stage == Done && c in lent)
  }

  ghost predicate MailOk(answers: seq<Answer>, mail: map<Token, Conn>, returned: set<Token>, orphans: set<Conn>,
                         lent: set<Conn>, stage: Stage)
  {
    && InMail(answers, mail, returned, orphans, lent)
    && Mailed(answers, mail, returned)
    && Gone(answers, returned, orphans, lent, stage)
  }

  /** The dead connections in the books. A connection is `resolved` when its dial result has left the queue;
      it is `early` if its closing was reported before that, `blind` if its address could not be read when it
      was taken back, and `late` if it was given back after closing had begun. */
  ghost predicate DeadOk(counted: map<Conn, Addr>, resolved: set<Conn>, reported: set<Conn>, early: set<Conn>,
                         closing: set<Conn>, blind: set<Conn>, late: set<Conn>, closed: bool)
  {
    && (forall c {:trigger InMap(c, counted)} :: InMap(c, counted) ==>
          c in resolved && (c in reported <==> c in early) && (c in closing <==> c in blind || c in late))
    && (forall c {:trigger In(c, reported)} :: In(c, reported) ==> c in resolved || c in early)
    && (forall c {:trigger In(c, early)} :: In(c, early) ==> c in reported)
    && (forall c {:trigger In(c, blind)} :: In(c, blind) ==> c in closing)
    && (forall c {:trigger In(c, late)} :: In(c, late) ==> c in closing && closed)
  }

  /** The connection in a dial result. */
  function Result(m: Cmd): set<Conn> {
    if m.DialResult? && m.dialled.Connected? then {m.dialled.conn} else {}
  }

  predicate Announced(c: Conn, cmds: seq<Cmd>) {
    exists i :: 0 <= i < |cmds| && c in Result(cmds[i])
  }

  /** A connection whose dial result is still queued is not resolved. */
  ghost predicate DialsOk(cmds: seq<Cmd>, resolved: set<Conn>, dialled: set<Conn>) {
    && (forall c {:trigger Announced(c, cmds)} :: Announced(c, cmds) ==> c in dialled && c !in resolved)
    && (forall c {:trigger In(c, resolved)} :: In(c, resolved) ==> c in dialled)
  }

  ghost predicate EndpointsOk(endpoints: seq<Addr>, allowed: set<Addr>, unavailable: set<Addr>) {
    && allowed == AddrSet(endpoints)
    && (forall a {:trigger In(a, unavailable)} :: In(a, unavailable) ==> a in allowed)
  }

  function AddrSet(all: seq<Addr>): set<Addr> {
    set a | a in all
  }

  lemma UnavailableAllowed(endpoints: seq<Addr>, allowed: set<Addr>, unavailable: set<Addr>, a: Addr)
    requires EndpointsOk(endpoints, allowed, unavailable) && a in unavailable
    ensures a in allowed
  {
    assert In(a, unavailable);
  }

  lemma EndpointsMark(endpoints: seq<Addr>, allowed: set<Addr>, unavailable: set<Addr>, a: Addr)
    requires EndpointsOk(endpoints, allowed, unavailable)
    ensures a in allowed ==> EndpointsOk(endpoints, allowed, unavailable + {a})
    ensures EndpointsOk(endpoints, allowed, unavailable - {a})
  {
    forall b | In(b, unavailable + {a}) ensures b in allowed || b == a {
      assert In(b, unavailable) || b == a;
    }
    forall b | In(b, unavailable - {a}) ensures b in allowed {
      assert In(b, unavailable);
    }
  }

  lemma EndpointsReplaced(all: seq<Addr>, unavailable: set<Addr>)
    ensures EndpointsOk(all, AddrSet(all), unavailable * AddrSet(all))
  {
  }

  /** Idle connections lead to allowed endpoints. */
  ghost predicate Restricted(idle: seq<Conn>, allowed: set<Addr>) {
    forall i :: 0 <= i < |idle| ==> idle[i].endpoint in allowed
  }

  ghost predicate Fewer(before: seq<Conn>, after: seq<Conn>) {
    forall c :: c in after ==> c in before
  }

  /** Up to position `i`, the unwanted ones among `before` are gone, and nothing else is. */
  ghost predicate Sifted(before: seq<Conn>, now: seq<Conn>, unwanted: set<Conn>, i: nat) {
    && i <= |now| && Fewer(before, now)
    && (forall c :: c in before && c !in unwanted ==> c in now)
    && (forall j :: 0 <= j < i ==> now[j] !in unwanted)
  }

  lemma SiftedStep(before: seq<Conn>, now: seq<Conn>, unwanted: set<Conn>, i: nat)
    requires Sifted(before, now, unwanted, i) && i < |now|
    ensures if now[i] in unwanted then Sifted(before, now[..i] + now[i + 1..], unwanted, i)
            else Sifted(before, now, unwanted, i + 1)
  {
    assert now == now[..i] + [now[i]] + now[i + 1..];
  }

  lemma RestrictedFewer(before: seq<Conn>, after: seq<Conn>, allowed: set<Addr>)
    requires Restricted(before, allowed) && Fewer(before, after)
    ensures Restricted(after, allowed)
  {
    forall i | 0 <= i < |after| ensures after[i].endpoint in allowed {
      assert after[i] in before;
    }
  }

  /** One `Get` has been answered, or has been handed to a dial to a reachable endpoint. */
  ghost predicate Served(token: Token, before: seq<Answer>, after: seq<Answer>, dials: seq<Dial>, more: seq<Dial>,
                         reachable: set<Addr>)
  {
    || (more == dials && |after| > 0 && after == before + [after[|after| - 1]] && after[|after| - 1].token == token)
    || Dialling(token, before, after, dials, more, reachable)
  }

  /** A `Get` has got an idle connection. */
  ghost predicate FromIdle(token: Token, idle: seq<Conn>, allowed: set<Addr>, before: seq<Answer>, after: seq<Answer>) {
    exists c :: c in idle && after == before + [Answer(token, Got(c), allowed)]
  }

  /** A `Get` for which there is nothing idle. */
  ghost predicate InDial(token: Token, before: seq<Answer>, after: seq<Answer>, dials: seq<Dial>, more: seq<Dial>,
                          reachable: set<Addr>)
  {
    if reachable == {} then more == dials && |after| > 0 && after == before + [after[|after| - 1]]
                            && after[|after| - 1].token == token && after[|after| - 1].reply == Failed
    else Dialling(token, before, after, dials, more, reachable)
  }

  ghost predicate Dialling(token: Token, before: seq<Answer>, after: seq<Answer>, dials: seq<Dial>, more: seq<Dial>,
                           reachable: set<Addr>)
  {
    && after == before && |more| > 0 && more == dials + [more[|more| - 1]]
    && more[|more| - 1].reply == Some(token) && more[|more| - 1].addr in reachable
  }

  /** A pool without connections and commands. */
  lemma NothingYet()
    ensures CountsOk(map[], map[]) && Exclusive([], [], [], {}, {}, {}, {}, {}) && CountedOk([], [], [], {}, map[], {})
    ensures FateOk({}, {}, {}, [], [], [], {}, {}) && TokensOk({}, [], [], [], None)
    ensures PendingOk(map[], [], [], multiset{}, false, None) && DeadOk(map[], {}, {}, {}, {}, {}, {}, false)
    ensures DialsOk([], {}, {}) && GateOk(Open, false, [], []) && MailOk([], map[], {}, {}, {}, Open)
  {
  }

  // ----- taking a command out of the queue

  lemma ExclusivePop(idle: seq<Conn>, cmds: seq<Cmd>, gate: seq<Cmd>, held: set<Conn>, hand: set<Conn>,
                     dialled: set<Conn>, closing: set<Conn>, reported: set<Conn>)
    requires cmds != [] && Exclusive(idle, cmds, gate, held, {}, dialled, closing, reported)
    requires forall c :: c in hand <==> c in ConnsOf(cmds[0])
    ensures Exclusive(idle, cmds[1..], gate, held, hand, dialled, closing, reported)
  {
    forall c ensures Spots(c, idle, cmds, gate, held) == Spots(c, idle, cmds[1..], gate, held) + If(c in hand) {
      SumPop(cmds, ConnsOf);
    }
  }

  lemma SettledPop(c: Conn, idle: seq<Conn>, cmds: seq<Cmd>, gate: seq<Cmd>, held: set<Conn>)
    requires cmds != []
    ensures Settled(c, idle, cmds[1..], gate, held) ==> Settled(c, idle, cmds, gate, held)
    ensures Settled(c, idle, cmds, gate, held) ==> Settled(c, idle, cmds[1..], gate, held) || c in ConnsOf(cmds[0])
  {
    if PutQueued(c, cmds[1..]) {
      var i :| 0 <= i < |cmds[1..]| && cmds[1..][i].Put? && cmds[1..][i].conn == c;
      assert cmds[i + 1].conn == c;
    }
    if PutQueued(c, cmds) {
      var i :| 0 <= i < |cmds| && cmds[i].Put? && cmds[i].conn == c;
      if i > 0 {
        assert cmds[1..][i - 1].conn == c;
      }
    }
  }

  lemma BooksPop(idle: seq<Conn>, cmds: seq<Cmd>, gate: seq<Cmd>, held: set<Conn>, hand: set<Conn>,
                 counted: map<Conn, Addr>, reported: set<Conn>, given: set<Conn>, closing: set<Conn>)
    requires cmds != [] && CountedOk(idle, cmds, gate, held, counted, reported)
    requires FateOk(given, closing, reported, idle, cmds, gate, held, {})
    requires forall c :: c in hand <==> c in ConnsOf(cmds[0])
    ensures CountedOk(idle, cmds[1..], gate, held, counted, reported)
    ensures FateOk(given, closing, reported, idle, cmds[1..], gate, held, hand)
    ensures cmds[0].Put? ==> cmds[0].conn in counted || cmds[0].conn in reported
  {
    forall c
      ensures Settled(c, idle, cmds[1..], gate, held) ==> Settled(c, idle, cmds, gate, held)
      ensures Settled(c, idle, cmds, gate, held) ==> Settled(c, idle, cmds[1..], gate, held) || c in hand
    {
      SettledPop(c, idle, cmds, gate, held);
    }
    assert cmds[0].Put? ==> PutQueued(cmds[0].conn, cmds) && Settled(cmds[0].conn, idle, cmds, gate, held);
  }

  lemma TokensPop(issued: set<Token>, cmds: seq<Cmd>, dials: seq<Dial>, answers: seq<Answer>, hand: Option<Token>)
    requires cmds != [] && TokensOk(issued, cmds, dials, answers, None) && One(hand) == TokensOf(cmds[0])
    ensures TokensOk(issued, cmds[1..], dials, answers, hand)
  {
    forall t: Token
      ensures TokenSpots(t, cmds, dials, answers) == TokenSpots(t, cmds[1..], dials, answers) + If(hand == Some(t))
    {
      SumPop(cmds, TokensOf);
    }
  }

  lemma PendingPop(pending: map<Addr, nat>, dials: seq<Dial>, cmds: seq<Cmd>, lost: multiset<Addr>, closed: bool,
                   hand: Option<Addr>)
    requires cmds != [] && PendingOk(pending, dials, cmds, lost, closed, None) && One(hand) == DialsOf(cmds[0])
    ensures PendingOk(pending, dials, cmds[1..], lost, closed, hand)
  {
    forall a: Addr ensures DialSpots(a, dials, cmds, lost) == DialSpots(a, dials, cmds[1..], lost) + If(hand == Some(a)) {
      SumPop(cmds, DialsOf);
    }
  }

  lemma GatePop(stage: Stage, closed: bool, gate: seq<Cmd>, cmds: seq<Cmd>)
    requires cmds != [] && GateOk(stage, closed, gate, cmds)
    ensures cmds[0] != Close ==> GateOk(stage, closed, gate, cmds[1..])
    ensures cmds[0] == Close ==> GateOk(Done, true, gate, cmds[1..])
  {
    if stage == Sent {
      var i :| 0 <= i < |cmds| && cmds[i] == Close
               && (forall j :: 0 <= j < |cmds| && j != i ==> cmds[j] != Close)
               && (forall j :: i < j < |cmds| ==> !Gated(cmds[j]));
      if i > 0 {
        assert cmds[1..][i - 1] == Close;
      }
    }
  }

  // ----- putting a command into the queue

  lemma ExclusivePush(idle: seq<Conn>, cmds: seq<Cmd>, gate: seq<Cmd>, held: set<Conn>, dialled: set<Conn>,
                      closing: set<Conn>, reported: set<Conn>, m: Cmd, hand: set<Conn>)
    requires Exclusive(idle, cmds, gate, held, hand, dialled, closing, reported)
    requires forall c :: c in hand <==> c in ConnsOf(m)
    ensures Exclusive(idle, cmds + [m], gate, held, {}, dialled, closing, reported)
  {
    forall c ensures Spots(c, idle, cmds + [m], gate, held) == Spots(c, idle, cmds, gate, held) + If(c in hand) {
      SumAppend(cmds, m, ConnsOf);
    }
  }

  lemma SettledPush(c: Conn, idle: seq<Conn>, cmds: seq<Cmd>, gate: seq<Cmd>, held: set<Conn>, m: Cmd)
    ensures Settled(c, idle, cmds + [m], gate, held)
       <==> Settled(c, idle, cmds, gate, held) || (m.Put? && m.conn == c)
  {
    PutQueuedPush(c, cmds, m);
  }

  lemma PutQueuedPush(c: Conn, cmds: seq<Cmd>, m: Cmd)
    ensures PutQueued(c, cmds + [m]) <==> PutQueued(c, cmds) || (m.Put? && m.conn == c)
  {
    var more := cmds + [m];
    if PutQueued(c, cmds) {
      var i :| 0 <= i < |cmds| && cmds[i].Put? && cmds[i].conn == c;
      assert more[i].conn == c;
    }
    if m.Put? && m.conn == c {
      assert more[|cmds|].conn == c;
    }
  }

  lemma TokensPush(issued: set<Token>, cmds: seq<Cmd>, dials: seq<Dial>, answers: seq<Answer>, m: Cmd,
                   hand: Option<Token>)
    requires TokensOk(issued, cmds, dials, answers, hand) && One(hand) == TokensOf(m)
    ensures TokensOk(issued, cmds + [m], dials, answers, None)
  {
    forall t: Token
      ensures TokenSpots(t, cmds + [m], dials, answers) == TokenSpots(t, cmds, dials, answers) + If(hand == Some(t))
    {
      SumAppend(cmds, m, TokensOf);
    }
  }

  lemma PendingPush(pending: map<Addr, nat>, dials: seq<Dial>, cmds: seq<Cmd>, lost: multiset<Addr>, closed: bool,
                    m: Cmd, hand: Option<Addr>)
    requires PendingOk(pending, dials, cmds, lost, closed, hand) && One(hand) == DialsOf(m)
    ensures PendingOk(pending, dials, cmds + [m], lost, closed, None)
  {
    forall a: Addr
      ensures DialSpots(a, dials, cmds + [m], lost) == DialSpots(a, dials, cmds, lost) + If(hand == Some(a))
    {
      SumAppend(cmds, m, DialsOf);
    }
  }

  /** Commands that do not pass the gate may be queued at any time. */
  lemma GatePush(stage: Stage, closed: bool, gate: seq<Cmd>, cmds: seq<Cmd>, m: Cmd)
    requires GateOk(stage, closed, gate, cmds) && m != Close && (Gated(m) ==> stage == Open || stage == Waiting)
    ensures GateOk(stage, closed, gate, cmds + [m])
  {
    if stage == Sent {
      CloseLastPush(cmds, m);
    }
  }

  lemma CloseLastPush(cmds: seq<Cmd>, m: Cmd)
    requires CloseLast(cmds) && m != Close && !Gated(m)
    ensures CloseLast(cmds + [m])
  {
    var i :| 0 <= i < |cmds| && cmds[i] == Close
             && (forall j :: 0 <= j < |cmds| && j != i ==> cmds[j] != Close)
             && (forall j :: i < j < |cmds| ==> !Gated(cmds[j]));
    assert (cmds + [m])[i] == Close;
  }

  // ----- the gate

  lemma ExclusiveEnter(idle: seq<Conn>, cmds: seq<Cmd>, gate: seq<Cmd>, held: set<Conn>, dialled: set<Conn>,
                       closing: set<Conn>, reported: set<Conn>, m: Cmd, hand: set<Conn>)
    requires Exclusive(idle, cmds, gate, held, hand, dialled, closing, reported)
    requires forall c :: c in hand <==> c in ConnsOf(m)
    ensures Exclusive(idle, cmds, gate + [m], held, {}, dialled, closing, reported)
  {
    forall c ensures Spots(c, idle, cmds, gate + [m], held) == Spots(c, idle, cmds, gate, held) + If(c in hand) {
      SumAppend(gate, m, ConnsOf);
    }
  }

  lemma ExclusiveAdmit(idle: seq<Conn>, cmds: seq<Cmd>, gate: seq<Cmd>, held: set<Conn>, dialled: set<Conn>,
                       closing: set<Conn>, reported: set<Conn>, i: nat)
    requires i < |gate| && Exclusive(idle, cmds, gate, held, {}, dialled, closing, reported)
    ensures Exclusive(idle, cmds + [gate[i]], gate[..i] + gate[i + 1..], held, {}, dialled, closing, reported)
  {
    var rest := gate[..i] + gate[i + 1..];
    forall c ensures Spots(c, idle, cmds + [gate[i]], rest, held) == Spots(c, idle, cmds, gate, held) {
      SumAppend(cmds, gate[i], ConnsOf);
      SumRemove(gate, i, ConnsOf);
    }
  }

  lemma SettledAdmit(c: Conn, idle: seq<Conn>, cmds: seq<Cmd>, gate: seq<Cmd>, held: set<Conn>, i: nat)
    requires i < |gate|
    ensures Settled(c, idle, cmds + [gate[i]], gate[..i] + gate[i + 1..], held)
       <==> Settled(c, idle, cmds, gate, held)
  {
    PutQueuedPush(c, cmds, gate[i]);
    PutQueuedRemove(c, gate, i);
  }

  lemma PutQueuedRemove(c: Conn, gate: seq<Cmd>, i: nat)
    requires i < |gate|
    ensures PutQueued(c, gate) <==> PutQueued(c, gate[..i] + gate[i + 1..]) || (gate[i].Put? && gate[i].conn == c)
  {
    var rest := gate[..i] + gate[i + 1..];
    if PutQueued(c, gate) {
      var j :| 0 <= j < |gate| && gate[j].Put? && gate[j].conn == c;
      assert j < i ==> rest[j] == gate[j];
      assert j > i ==> rest[j - 1] == gate[j];
    }
    if PutQueued(c, rest) {
      var j :| 0 <= j < |rest| && rest[j].Put? && rest[j].conn == c;
      assert rest[j] == if j < i then gate[j] else gate[j + 1];
    }
  }

  // ----- dials and answers

  lemma TokensAnswer(issued: set<Token>, cmds: seq<Cmd>, dials: seq<Dial>, answers: seq<Answer>, a: Answer)
    requires TokensOk(issued, cmds, dials, answers, Some(a.token))
    ensures TokensOk(issued, cmds, dials, answers + [a], None)
  {
    forall t: Token
      ensures TokenSpots(t, cmds, dials, answers + [a]) == TokenSpots(t, cmds, dials, answers) + If(a.token == t)
    {
      SumAppend(answers, a, AnswerTokens);
    }
  }

  lemma TokensDial(issued: set<Token>, cmds: seq<Cmd>, dials: seq<Dial>, answers: seq<Answer>, d: Dial)
    requires TokensOk(issued, cmds, dials, answers, d.reply)
    ensures TokensOk(issued, cmds, dials + [d], answers, None)
  {
    forall t: Token
      ensures TokenSpots(t, cmds, dials + [d], answers) == TokenSpots(t, cmds, dials, answers) + If(d.reply == Some(t))
    {
      SumAppend(dials, d, DialTokens);
    }
  }

  lemma PendingDial(pending: map<Addr, nat>, dials: seq<Dial>, cmds: seq<Cmd>, lost: multiset<Addr>, closed: bool,
                    d: Dial, hand: Option<Addr>)
    requires PendingOk(pending, dials, cmds, lost, closed, hand)
    ensures PendingOk(pending[d.addr := At(pending, d.addr) + 1], dials + [d], cmds, lost, closed, hand)
  {
    forall a: Addr
      ensures DialSpots(a, dials + [d], cmds, lost) == DialSpots(a, dials, cmds, lost) + If(a == d.addr)
    {
      SumAppend(dials, d, DialAddrs);
    }
  }

  /** A dial goroutine comes to its end: what it carried is in hand. */
  lemma TokensEnd(issued: set<Token>, cmds: seq<Cmd>, dials: seq<Dial>, answers: seq<Answer>, i: nat)
    requires i < |dials| && TokensOk(issued, cmds, dials, answers, None)
    ensures TokensOk(issued, cmds, dials[..i] + dials[i + 1..], answers, dials[i].reply)
  {
    var rest := dials[..i] + dials[i + 1..];
    forall t: Token
      ensures TokenSpots(t, cmds, dials, answers) == TokenSpots(t, cmds, rest, answers) + If(dials[i].reply == Some(t))
    {
      SumRemove(dials, i, DialTokens);
    }
  }

  lemma PendingEnd(pending: map<Addr, nat>, dials: seq<Dial>, cmds: seq<Cmd>, lost: multiset<Addr>, closed: bool,
                   i: nat)
    requires i < |dials| && PendingOk(pending, dials, cmds, lost, closed, None)
    ensures PendingOk(pending, dials[..i] + dials[i + 1..], cmds, lost, closed, Some(dials[i].addr))
  {
    var rest, gone := dials[..i] + dials[i + 1..], dials[i].addr;
    forall a: Addr ensures DialSpots(a, dials, cmds, lost) == DialSpots(a, rest, cmds, lost) + If(gone == a) {
      DialSpotsEnd(a, dials, cmds, lost, i);
    }
  }

  lemma DialSpotsEnd(a: Addr, dials: seq<Dial>, cmds: seq<Cmd>, lost: multiset<Addr>, i: nat)
    requires i < |dials|
    ensures DialSpots(a, dials, cmds, lost) == DialSpots(a, dials[..i] + dials[i + 1..], cmds, lost) + If(dials[i].addr == a)
  {
    SumRemove(dials, i, DialAddrs);
  }

  lemma PendingLost(pending: map<Addr, nat>, dials: seq<Dial>, cmds: seq<Cmd>, lost: multiset<Addr>, a: Addr)
    requires PendingOk(pending, dials, cmds, lost, true, Some(a))
    ensures PendingOk(pending, dials, cmds, lost + multiset{a}, true, None)
  {
    forall b: Addr
      ensures DialSpots(b, dials, cmds, lost + multiset{a}) == DialSpots(b, dials, cmds, lost) + If(a == b)
    {
    }
  }

  lemma PendingSettle(pending: map<Addr, nat>, dials: seq<Dial>, cmds: seq<Cmd>, lost: multiset<Addr>, closed: bool,
                      a: Addr)
    requires PendingOk(pending, dials, cmds, lost, closed, Some(a))
    ensures PendingOk(Lowered(pending, a), dials, cmds, lost, closed, None) && At(pending, a) >= 1
  {
    assert At(pending, a) == DialSpots(a, dials, cmds, lost) + 1;
  }

  // ----- where connections go

  lemma OnceEach(xs: seq<Conn>)
    requires forall i :: 0 <= i < |xs| ==> multiset(xs)[xs[i]] == 1
    ensures Distinct(xs)
  {
    forall i, j | 0 <= i < j < |xs| ensures xs[i] != xs[j] {
      assert xs == xs[..i] + [xs[i]] + xs[i + 1..j] + [xs[j]] + xs[j + 1..];
    }
  }

  lemma NotIdle(idle: seq<Conn>, cmds: seq<Cmd>, gate: seq<Cmd>, held: set<Conn>, hand: set<Conn>,
                dialled: set<Conn>, closing: set<Conn>, reported: set<Conn>, c: Conn)
    requires Exclusive(idle, cmds, gate, held, hand, dialled, closing, reported) && c in hand
    ensures c !in idle
  {
    assert Spots(c, idle, cmds, gate, held) == 0;
    assert c in idle ==> c in multiset(idle);
  }

  lemma NotClosing(idle: seq<Conn>, cmds: seq<Cmd>, gate: seq<Cmd>, held: set<Conn>, hand: set<Conn>,
                   dialled: set<Conn>, closing: set<Conn>, reported: set<Conn>, c: Conn)
    requires Exclusive(idle, cmds, gate, held, hand, dialled, closing, reported) && c in hand
    ensures c !in closing && c in dialled
  {
    assert Spots(c, idle, cmds, gate, held) == 0;
  }

  lemma ExclusiveClose(idle: seq<Conn>, cmds: seq<Cmd>, gate: seq<Cmd>, held: set<Conn>, hand: set<Conn>,
                       dialled: set<Conn>, closing: set<Conn>, reported: set<Conn>, c: Conn)
    requires Exclusive(idle, cmds, gate, held, hand, dialled, closing, reported) && c in hand
    ensures Exclusive(idle, cmds, gate, held, hand - {c}, dialled, closing + {c}, reported)
    ensures !Settled(c, idle, cmds, gate, held)
  {
    assert Spots(c, idle, cmds, gate, held) == 0;
    NotSettled(c, idle, cmds, gate, held);
    forall d | In(d, closing + {c}) ensures d in dialled {
      assert In(d, closing) || d == c;
    }
  }

  lemma NotSettled(c: Conn, idle: seq<Conn>, cmds: seq<Cmd>, gate: seq<Cmd>, held: set<Conn>)
    requires Spots(c, idle, cmds, gate, held) == 0
    ensures !Settled(c, idle, cmds, gate, held)
  {
    PutCounts(c, cmds);
    PutCounts(c, gate);
    assert c in idle ==> c in multiset(idle);
  }

  lemma PutCounts(c: Conn, cmds: seq<Cmd>)
    ensures PutQueued(c, cmds) ==> c in Sum(cmds, ConnsOf)
  {
    if PutQueued(c, cmds) {
      var i :| 0 <= i < |cmds| && cmds[i].Put? && cmds[i].conn == c;
      SumRemove(cmds, i, ConnsOf);
    }
  }

  lemma ExclusiveLend(idle: seq<Conn>, cmds: seq<Cmd>, gate: seq<Cmd>, held: set<Conn>, hand: set<Conn>,
                      dialled: set<Conn>, closing: set<Conn>, reported: set<Conn>, c: Conn)
    requires Exclusive(idle, cmds, gate, held, hand, dialled, closing, reported) && c in hand
    ensures c !in held && Exclusive(idle, cmds, gate, held + {c}, hand - {c}, dialled, closing, reported)
  {
    assert Spots(c, idle, cmds, gate, held) == 0;
    forall d
      ensures Spots(d, idle, cmds, gate, held + {c}) == Spots(d, idle, cmds, gate, held) + If(d == c)
    {
    }
  }

  lemma ExclusiveReturn(idle: seq<Conn>, cmds: seq<Cmd>, gate: seq<Cmd>, held: set<Conn>, hand: set<Conn>,
                        dialled: set<Conn>, closing: set<Conn>, reported: set<Conn>, c: Conn)
    requires Exclusive(idle, cmds, gate, held, hand, dialled, closing, reported) && c in held
    ensures Exclusive(idle, cmds, gate, held - {c}, hand + {c}, dialled, closing, reported)
  {
    assert Spots(c, idle, cmds, gate, held) >= 1;
    forall d
      ensures Spots(d, idle, cmds, gate, held) == Spots(d, idle, cmds, gate, held - {c}) + If(d == c)
    {
    }
  }

  lemma ExclusiveTake(idle: seq<Conn>, cmds: seq<Cmd>, gate: seq<Cmd>, held: set<Conn>, hand: set<Conn>,
                      dialled: set<Conn>, closing: set<Conn>, reported: set<Conn>, i: nat)
    requires i < |idle| && Exclusive(idle, cmds, gate, held, hand, dialled, closing, reported)
    ensures Exclusive(idle[..i] + idle[i + 1..], cmds, gate, held, hand + {idle[i]}, dialled, closing, reported)
    ensures idle[i] !in hand && idle[i] !in idle[..i] + idle[i + 1..]
  {
    var c, rest := idle[i], idle[..i] + idle[i + 1..];
    assert idle == idle[..i] + [c] + idle[i + 1..];
    assert multiset(idle) == multiset(rest) + multiset{c};
    assert Spots(c, idle, cmds, gate, held) >= 1;
    forall d ensures Spots(d, idle, cmds, gate, held) == Spots(d, rest, cmds, gate, held) + If(d == c) {
    }
    assert c in rest ==> c in multiset(rest);
  }

  lemma ExclusiveStore(idle: seq<Conn>, cmds: seq<Cmd>, gate: seq<Cmd>, held: set<Conn>, hand: set<Conn>,
                       dialled: set<Conn>, closing: set<Conn>, reported: set<Conn>, c: Conn)
    requires Exclusive(idle, cmds, gate, held, hand, dialled, closing, reported) && c in hand
    ensures Exclusive(idle + [c], cmds, gate, held, hand - {c}, dialled, closing, reported)
    ensures c !in idle
  {
    assert Spots(c, idle, cmds, gate, held) == 0;
    assert c in idle ==> c in multiset(idle);
    forall d ensures Spots(d, idle + [c], cmds, gate, held) == Spots(d, idle, cmds, gate, held) + If(d == c) {
    }
  }

  /** A new connection is in no place yet. */
  lemma ExclusiveDialled(idle: seq<Conn>, cmds: seq<Cmd>, gate: seq<Cmd>, held: set<Conn>, hand: set<Conn>,
                         dialled: set<Conn>, closing: set<Conn>, reported: set<Conn>, c: Conn)
    requires Exclusive(idle, cmds, gate, held, hand, dialled, closing, reported) && c !in dialled
    ensures c !in hand && Exclusive(idle, cmds, gate, held, hand + {c}, dialled + {c}, closing, reported)
  {
    assert Spots(c, idle, cmds, gate, held) + If(c in hand) == 0;
    assert In(c, closing) <==> c in closing;
  }

  /** A connection that has been reported closed may be dropped. */
  lemma ExclusiveDrop(idle: seq<Conn>, cmds: seq<Cmd>, gate: seq<Cmd>, held: set<Conn>, hand: set<Conn>,
                      dialled: set<Conn>, closing: set<Conn>, reported: set<Conn>)
    requires Exclusive(idle, cmds, gate, held, hand, dialled, closing, reported)
    requires forall c :: c in hand ==> c in reported
    ensures Exclusive(idle, cmds, gate, held, {}, dialled, closing, reported)
  {
  }

  lemma TokensIssue(issued: set<Token>, cmds: seq<Cmd>, dials: seq<Dial>, answers: seq<Answer>, t: Token)
    requires TokensOk(issued, cmds, dials, answers, None) && t !in issued
    ensures TokensOk(issued + {t}, cmds, dials, answers, Some(t))
  {
  }

  /** A connection that was never given back may be queued. */
  lemma BooksPush(idle: seq<Conn>, cmds: seq<Cmd>, gate: seq<Cmd>, held: set<Conn>, counted: map<Conn, Addr>,
                  reported: set<Conn>, given: set<Conn>, closing: set<Conn>, m: Cmd)
    requires CountedOk(idle, cmds, gate, held, counted, reported) && !m.Put?
    requires FateOk(given, closing, reported, idle, cmds, gate, held, {})
    ensures CountedOk(idle, cmds + [m], gate, held, counted, reported)
    ensures FateOk(given, closing, reported, idle, cmds + [m], gate, held, {})
  {
    forall c ensures Settled(c, idle, cmds + [m], gate, held) <==> Settled(c, idle, cmds, gate, held) {
      SettledPush(c, idle, cmds, gate, held, m);
    }
  }

  /** Whatever is in hand enters the gate. */
  lemma BooksEnter(idle: seq<Conn>, cmds: seq<Cmd>, gate: seq<Cmd>, held: set<Conn>, counted: map<Conn, Addr>,
                   reported: set<Conn>, given: set<Conn>, closing: set<Conn>, m: Cmd, hand: set<Conn>)
    requires CountedOk(idle, cmds, gate, held, counted, reported)
    requires FateOk(given, closing, reported, idle, cmds, gate, held, hand)
    requires forall c :: c in hand ==> m.Put? && c == m.conn
    requires m.Put? ==> m.conn in counted || m.conn in reported
    ensures CountedOk(idle, cmds, gate + [m], held, counted, reported)
    ensures FateOk(given, closing, reported, idle, cmds, gate + [m], held, {})
  {
    forall c
      ensures Settled(c, idle, cmds, gate + [m], held)
         <==> Settled(c, idle, cmds, gate, held) || (m.Put? && m.conn == c)
    {
      PutQueuedPush(c, gate, m);
    }
  }

  lemma BooksAdmit(idle: seq<Conn>, cmds: seq<Cmd>, gate: seq<Cmd>, held: set<Conn>, counted: map<Conn, Addr>,
                   reported: set<Conn>, given: set<Conn>, closing: set<Conn>, i: nat)
    requires i < |gate| && CountedOk(idle, cmds, gate, held, counted, reported)
    requires FateOk(given, closing, reported, idle, cmds, gate, held, {})
    ensures CountedOk(idle, cmds + [gate[i]], gate[..i] + gate[i + 1..], held, counted, reported)
    ensures FateOk(given, closing, reported, idle, cmds + [gate[i]], gate[..i] + gate[i + 1..], held, {})
  {
    var more, rest := cmds + [gate[i]], gate[..i] + gate[i + 1..];
    forall c ensures Settled(c, idle, more, rest, held) <==> Settled(c, idle, cmds, gate, held) {
      SettledAdmit(c, idle, cmds, gate, held, i);
    }
  }

  /** A connection comes back from its holder. */
  lemma BooksReturn(idle: seq<Conn>, cmds: seq<Cmd>, gate: seq<Cmd>, held: set<Conn>, counted: map<Conn, Addr>,
                    reported: set<Conn>, given: set<Conn>, closing: set<Conn>, c: Conn)
    requires c in held && CountedOk(idle, cmds, gate, held, counted, reported)
    requires FateOk(given, closing, reported, idle, cmds, gate, held, {})
    ensures CountedOk(idle, cmds, gate, held - {c}, counted, reported) && (c in counted || c in reported)
    ensures FateOk(given + {c}, closing, reported, idle, cmds, gate, held - {c}, {c})
  {
    forall d
      ensures Settled(d, idle, cmds, gate, held - {c}) ==> Settled(d, idle, cmds, gate, held)
      ensures Settled(d, idle, cmds, gate, held) ==> Settled(d, idle, cmds, gate, held - {c}) || d == c
    {
    }
    assert Settled(c, idle, cmds, gate, held);
    forall d | In(d, given + {c})
      ensures d in closing || d in reported || d in {c} || Settled(d, idle, cmds, gate, held - {c})
    {
      assert In(d, given) || d == c;
    }
  }

  lemma GateAdmit(stage: Stage, closed: bool, gate: seq<Cmd>, cmds: seq<Cmd>, i: nat)
    requires GateOk(stage, closed, gate, cmds) && i < |gate|
    ensures GateOk(stage, closed, gate[..i] + gate[i + 1..], cmds + [gate[i]])
  {
    assert stage == Open || stage == Waiting;
  }

  lemma GateSend(closed: bool, gate: seq<Cmd>, cmds: seq<Cmd>)
    requires GateOk(Waiting, closed, gate, cmds) && gate == []
    ensures GateOk(Sent, closed, gate, cmds + [Close])
  {
    var all := cmds + [Close];
    assert all[|cmds|] == Close;
    assert forall j :: 0 <= j < |all| && j != |cmds| ==> all[j] != Close;
  }

  // ----- replies and their callers

  lemma TokenFresh(issued: set<Token>, cmds: seq<Cmd>, dials: seq<Dial>, answers: seq<Answer>, t: Token)
    requires TokensOk(issued, cmds, dials, answers, Some(t))
    ensures t !in Sum(answers, AnswerTokens)
  {
    assert TokenSpots(t, cmds, dials, answers) == 0;
  }

  /** `MailOk`, for any member of the sets and maps. */
  lemma MailFacts(answers: seq<Answer>, mail: map<Token, Conn>, returned: set<Token>, orphans: set<Conn>,
                  lent: set<Conn>, stage: Stage)
    requires MailOk(answers, mail, returned, orphans, lent, stage)
    ensures forall t :: t in mail ==>
              t !in returned && t in Sum(answers, AnswerTokens) && mail[t] in lent && mail[t] !in orphans
    ensures forall t, u :: t in mail && u in mail && mail[t] == mail[u] ==> t == u
    ensures forall i :: 0 <= i < |answers| && answers[i].reply.Got? && answers[i].token !in returned ==>
              answers[i].token in mail && mail[answers[i].token] == answers[i].reply.conn
    ensures forall t :: t in returned ==> stage == Done || t in Sum(answers, AnswerTokens)
    ensures forall c :: c in orphans ==> stage == Done && c in lent
  {
    assert forall t :: t in mail <==> InMap(t, mail);
    assert forall i :: 0 <= i < |answers| ==> (answers[i].reply.Got? <==> Posted(answers, i));
    assert forall t :: t in returned <==> In(t, returned);
    assert forall c :: c in orphans <==> In(c, orphans);
  }

  lemma MailFailed(answers: seq<Answer>, mail: map<Token, Conn>, returned: set<Token>, orphans: set<Conn>,
                   lent: set<Conn>, stage: Stage, a: Answer)
    requires MailOk(answers, mail, returned, orphans, lent, stage) && a.reply == Failed
    ensures MailOk(answers + [a], mail, returned, orphans, lent, stage)
  {
    MailFacts(answers, mail, returned, orphans, lent, stage);
    SumAppend(answers, a, AnswerTokens);
    var more := answers + [a];
    forall i | 0 <= i < |more| && Posted(more, i) && more[i].token !in returned
      ensures more[i].token in mail && mail[more[i].token] == more[i].reply.conn
    {
      assert more[i] == answers[i];
    }
  }

  lemma Unanswered(answers: seq<Answer>, t: Token, i: nat)
    requires t !in Sum(answers, AnswerTokens) && i < |answers|
    ensures answers[i].token != t
  {
    SumSource(answers, AnswerTokens, t);
    assert AnswerTokens(answers[i])[answers[i].token] == 1;
  }

  /** Nobody has returned with an answer that is only given now, and nobody has lost a connection that nobody has. */
  lemma NotBefore(answers: seq<Answer>, mail: map<Token, Conn>, returned: set<Token>, orphans: set<Conn>,
                  lent: set<Conn>, stage: Stage, t: Token, c: Conn)
    requires MailOk(answers, mail, returned, orphans, lent, stage) && stage != Done
    requires t !in Sum(answers, AnswerTokens) && c !in lent
    ensures t !in returned && c !in orphans && forall u :: u in mail ==> u != t && mail[u] != c
  {
    assert In(t, returned) <==> t in returned;
    assert In(c, orphans) <==> c in orphans;
    forall u | u in mail ensures u != t && mail[u] != c {
      assert InMap(u, mail);
    }
  }

  lemma InMailLend(answers: seq<Answer>, mail: map<Token, Conn>, returned: set<Token>, orphans: set<Conn>,
                   lent: set<Conn>, a: Answer)
    requires InMail(answers, mail, returned, orphans, lent) && a.reply.Got?
    requires a.token !in returned && a.reply.conn !in orphans && forall u :: u in mail ==> u != a.token && mail[u] != a.reply.conn
    ensures InMail(answers + [a], mail[a.token := a.reply.conn], returned, orphans, lent + {a.reply.conn})
  {
    var more, posted := answers + [a], mail[a.token := a.reply.conn];
    SumAppend(answers, a, AnswerTokens);
    forall t | InMap(t, posted)
      ensures t !in returned && t in Sum(more, AnswerTokens) && posted[t] in lent + {a.reply.conn} && posted[t] !in orphans
    {
      assert t == a.token || InMap(t, mail);
    }
    forall t, u | InMap(t, posted) && InMap(u, posted) && posted[t] == posted[u] ensures t == u {
      PairAdded(mail, a.token, a.reply.conn, t, u);
    }
  }

  lemma PairAdded(mail: map<Token, Conn>, token: Token, c: Conn, t: Token, u: Token)
    requires forall x, y :: InMap(x, mail) && InMap(y, mail) && mail[x] == mail[y] ==> x == y
    requires forall x :: x in mail ==> x != token && mail[x] != c
    requires t in mail[token := c] && u in mail[token := c] && mail[token := c][t] == mail[token := c][u]
    ensures t == u
  {
    if t != token && u != token {
      assert InMap(t, mail) && InMap(u, mail);
    }
  }

  lemma MailedLend(answers: seq<Answer>, mail: map<Token, Conn>, returned: set<Token>, a: Answer)
    requires Mailed(answers, mail, returned) && a.reply.Got? && a.token !in Sum(answers, AnswerTokens)
    ensures Mailed(answers + [a], mail[a.token := a.reply.conn], returned)
  {
    var more, posted := answers + [a], mail[a.token := a.reply.conn];
    forall i | 0 <= i < |more| && Posted(more, i) && more[i].token !in returned
      ensures more[i].token in posted && posted[more[i].token] == more[i].reply.conn
    {
      if i < |answers| {
        assert Posted(answers, i);
        Unanswered(answers, a.token, i);
      }
    }
  }

  lemma MailLend(answers: seq<Answer>, mail: map<Token, Conn>, returned: set<Token>, orphans: set<Conn>,
                 lent: set<Conn>, stage: Stage, a: Answer)
    requires MailOk(answers, mail, returned, orphans, lent, stage) && stage != Done
    requires a.reply.Got? && a.reply.conn !in lent && a.token !in Sum(answers, AnswerTokens)
    ensures MailOk(answers + [a], mail[a.token := a.reply.conn], returned, orphans, lent + {a.reply.conn}, stage)
  {
    SumAppend(answers, a, AnswerTokens);
    NotBefore(answers, mail, returned, orphans, lent, stage, a.token, a.reply.conn);
    InMailLend(answers, mail, returned, orphans, lent, a);
    MailedLend(answers, mail, returned, a);
  }

  /** A `Get` whose token is in hand is answered with a connection that nobody has. */
  lemma AnswerLends(issued: set<Token>, cmds: seq<Cmd>, dials: seq<Dial>, answers: seq<Answer>, mail: map<Token, Conn>,
                    returned: set<Token>, orphans: set<Conn>, lent: set<Conn>, stage: Stage, a: Answer)
    requires TokensOk(issued, cmds, dials, answers, Some(a.token)) && AnswersOk(answers)
    requires MailOk(answers, mail, returned, orphans, lent, stage) && stage != Done
    requires a.reply.Got? && a.reply.conn !in lent && a.reply.conn.endpoint in a.allowed
    ensures TokensOk(issued, cmds, dials, answers + [a], None) && AnswersOk(answers + [a])
    ensures MailOk(answers + [a], mail[a.token := a.reply.conn], returned, orphans, lent + {a.reply.conn}, stage)
  {
    TokensAnswer(issued, cmds, dials, answers, a);
    TokenFresh(issued, cmds, dials, answers, a.token);
    MailLend(answers, mail, returned, orphans, lent, stage, a);
  }

  lemma MailReturn(answers: seq<Answer>, mail: map<Token, Conn>, returned: set<Token>, orphans: set<Conn>,
                   lent: set<Conn>, stage: Stage, c: Conn)
    requires MailOk(answers, mail, returned, orphans, lent, stage) && c !in mail.Values && c !in orphans
    ensures MailOk(answers, mail, returned, orphans, lent - {c}, stage)
  {
    forall t | t in mail ensures mail[t] != c {
      assert mail[t] in mail.Values;
    }
  }

  lemma MailReceive(answers: seq<Answer>, mail: map<Token, Conn>, returned: set<Token>, orphans: set<Conn>,
                    lent: set<Conn>, stage: Stage, i: nat)
    requires MailOk(answers, mail, returned, orphans, lent, stage) && i < |answers| && answers[i].token !in returned
    ensures MailOk(answers, mail - {answers[i].token}, returned + {answers[i].token}, orphans, lent, stage)
    ensures answers[i].reply.Got? ==>
              var c := answers[i].reply.conn;
              c in lent && c !in (mail - {answers[i].token}).Values && c !in orphans
  {
    MailFacts(answers, mail, returned, orphans, lent, stage);
    SumSource(answers, AnswerTokens, answers[i].token);
    assert answers[i].token in AnswerTokens(answers[i]);
  }

  lemma MailLeave(answers: seq<Answer>, mail: map<Token, Conn>, returned: set<Token>, orphans: set<Conn>,
                  lent: set<Conn>, t: Token)
    requires MailOk(answers, mail, returned, orphans, lent, Done)
    ensures MailOk(answers, mail - {t}, returned + {t}, orphans + (if t in mail then {mail[t]} else {}), lent, Done)
  {
    MailFacts(answers, mail, returned, orphans, lent, Done);
  }

  lemma MailStage(answers: seq<Answer>, mail: map<Token, Conn>, returned: set<Token>, orphans: set<Conn>,
                  lent: set<Conn>, stage: Stage, next: Stage)
    requires MailOk(answers, mail, returned, orphans, lent, stage) && stage != Done
    ensures MailOk(answers, mail, returned, orphans, lent, next)
  {
  }

  // ----- dead connections in the books

  lemma DeadInc(counted: map<Conn, Addr>, resolved: set<Conn>, reported: set<Conn>, early: set<Conn>,
                closing: set<Conn>, blind: set<Conn>, late: set<Conn>, closed: bool, c: Conn)
    requires DeadOk(counted, resolved, reported, early, closing, blind, late, closed) && c in resolved && c !in closing
    requires c in reported <==> c in early
    ensures DeadOk(counted[c := c.endpoint], resolved, reported, early, closing, blind, late, closed)
  {
    assert In(c, blind) <==> c in blind;
    assert In(c, late) <==> c in late;
    forall d | InMap(d, counted[c := c.endpoint]) && d != c
      ensures d in resolved && (d in reported <==> d in early) && (d in closing <==> d in blind || d in late)
    {
      assert InMap(d, counted);
    }
  }

  lemma DeadDec(counted: map<Conn, Addr>, resolved: set<Conn>, reported: set<Conn>, early: set<Conn>,
                closing: set<Conn>, blind: set<Conn>, late: set<Conn>, closed: bool, c: Conn)
    requires DeadOk(counted, resolved, reported, early, closing, blind, late, closed)
    ensures DeadOk(counted - {c}, resolved, reported, early, closing, blind, late, closed)
    ensures DeadOk(counted - {c}, resolved, reported, early, closing + {c}, blind, late, closed)
  {
    forall d | InMap(d, counted - {c})
      ensures d != c && d in resolved && (d in reported <==> d in early) && (d in closing <==> d in blind || d in late)
    {
      assert InMap(d, counted);
    }
  }

  lemma DeadReport(counted: map<Conn, Addr>, resolved: set<Conn>, reported: set<Conn>, early: set<Conn>,
                   closing: set<Conn>, blind: set<Conn>, late: set<Conn>, closed: bool, c: Conn)
    requires DeadOk(counted, resolved, reported, early, closing, blind, late, closed)
    ensures DeadOk(counted - {c}, resolved, reported + {c}, if c in resolved then early else early + {c},
                   closing, blind, late, closed)
  {
    var sooner := if c in resolved then early else early + {c};
    forall d | InMap(d, counted - {c})
      ensures d in resolved && (d in reported + {c} <==> d in sooner) && (d in closing <==> d in blind || d in late)
    {
      assert InMap(d, counted);
    }
    forall d | In(d, reported + {c}) ensures d in resolved || d in sooner {
      assert In(d, reported) || d == c;
    }
    forall d | In(d, sooner) ensures d in reported + {c} {
      assert In(d, early) || d == c;
    }
  }

  /** A connection that is not in the books is closed. */
  lemma DeadClose(counted: map<Conn, Addr>, resolved: set<Conn>, reported: set<Conn>, early: set<Conn>,
                  closing: set<Conn>, blind: set<Conn>, late: set<Conn>, closed: bool, c: Conn)
    requires DeadOk(counted, resolved, reported, early, closing, blind, late, closed) && c !in counted
    ensures DeadOk(counted, resolved, reported, early, closing + {c}, blind, late, closed)
  {
    forall d | InMap(d, counted) ensures d in closing + {c} <==> d in blind || d in late {
      assert d != c;
    }
  }

  /** A connection that has come back is closed, without a look at the books. */
  lemma DeadReturn(counted: map<Conn, Addr>, resolved: set<Conn>, reported: set<Conn>, early: set<Conn>,
                   closing: set<Conn>, blind: set<Conn>, late: set<Conn>, closed: bool, c: Conn)
    requires DeadOk(counted, resolved, reported, early, closing, blind, late, closed)
    ensures DeadOk(counted, resolved, reported, early, closing + {c}, blind + {c}, late, closed)
    ensures closed ==> DeadOk(counted, resolved, reported, early, closing + {c}, blind, late + {c}, closed)
  {
    forall d | In(d, blind + {c}) ensures d in closing + {c} {
      assert In(d, blind) || d == c;
    }
    forall d | In(d, late + {c}) && closed ensures d in closing + {c} {
      assert In(d, late) || d == c;
    }
  }

  lemma DeadResolve(counted: map<Conn, Addr>, resolved: set<Conn>, reported: set<Conn>, early: set<Conn>,
                    closing: set<Conn>, blind: set<Conn>, late: set<Conn>, closed: bool, c: Conn)
    requires DeadOk(counted, resolved, reported, early, closing, blind, late, closed)
    ensures DeadOk(counted, resolved + {c}, reported, early, closing, blind, late, closed)
    ensures c !in resolved ==> c !in counted && (c in reported <==> c in early)
  {
    assert InMap(c, counted) <==> c in counted;
    assert In(c, reported) <==> c in reported;
    assert In(c, early) <==> c in early;
  }

  lemma DialsPush(cmds: seq<Cmd>, resolved: set<Conn>, dialled: set<Conn>, m: Cmd)
    requires DialsOk(cmds, resolved, dialled) && Result(m) <= dialled && Result(m) !! resolved
    ensures DialsOk(cmds + [m], resolved, dialled)
  {
    forall c | Announced(c, cmds + [m]) ensures c in dialled && c !in resolved {
      var i :| 0 <= i < |cmds + [m]| && c in Result((cmds + [m])[i]);
      if i < |cmds| {
        assert c in Result(cmds[i]);
        assert Announced(c, cmds);
      }
    }
  }

  lemma AnnouncedOnce(cmds: seq<Cmd>, c: Conn)
    requires cmds != [] && Announced(c, cmds[1..])
    ensures Announced(c, cmds) && (c in Result(cmds[0]) ==> Sum(cmds, ConnsOf)[c] >= 2)
  {
    var i :| 0 <= i < |cmds[1..]| && c in Result(cmds[1..][i]);
    assert c in Result(cmds[i + 1]);
    if c in Result(cmds[0]) {
      SumTwice(cmds, 0, i + 1, ConnsOf, c);
    }
  }

  /** A dial result that leaves the queue is the only one of its connection. */
  lemma DialsPop(idle: seq<Conn>, cmds: seq<Cmd>, gate: seq<Cmd>, held: set<Conn>, dialled: set<Conn>,
                 closing: set<Conn>, reported: set<Conn>, resolved: set<Conn>)
    requires cmds != [] && DialsOk(cmds, resolved, dialled)
    requires Exclusive(idle, cmds, gate, held, {}, dialled, closing, reported)
    ensures DialsOk(cmds[1..], resolved + Result(cmds[0]), dialled) && Result(cmds[0]) !! resolved
  {
    forall c | c in Result(cmds[0]) ensures c in dialled && c !in resolved {
      assert Announced(c, cmds);
    }
    forall c | Announced(c, cmds[1..]) ensures c in dialled && c !in resolved + Result(cmds[0]) {
      AnnouncedOnce(cmds, c);
      assert Spots(c, idle, cmds, gate, held) <= 1;
    }
    forall c | In(c, resolved + Result(cmds[0])) ensures c in dialled {
      assert In(c, resolved) || c in Result(cmds[0]);
    }
  }

  /** A connection is dialled before the pool goroutine runs: nobody else announces it. */
  lemma DialsAtOnce(cmds: seq<Cmd>, resolved: set<Conn>, dialled: set<Conn>, c: Conn)
    requires DialsOk(cmds, resolved, dialled) && c !in dialled
    ensures DialsOk(cmds, resolved + {c}, dialled + {c}) && DialsOk(cmds, resolved, dialled + {c}) && c !in resolved
  {
    assert In(c, resolved) <==> c in resolved;
    forall d | In(d, resolved + {c}) ensures d in dialled + {c} {
      assert In(d, resolved) || d == c;
    }
  }

  lemma BooksLend(idle: seq<Conn>, cmds: seq<Cmd>, gate: seq<Cmd>, lent: set<Conn>, counted: map<Conn, Addr>,
                  reported: set<Conn>, given: set<Conn>, closing: set<Conn>, c: Conn, hand: set<Conn>)
    requires c in counted || c in reported
    requires CountedOk(idle, cmds, gate, lent, counted, reported)
    requires FateOk(given, closing, reported, idle, cmds, gate, lent, hand)
    ensures CountedOk(idle, cmds, gate, lent + {c}, counted, reported)
    ensures FateOk(given, closing, reported, idle, cmds, gate, lent + {c}, hand - {c})
  {
    forall d ensures Settled(d, idle, cmds, gate, lent + {c}) <==> Settled(d, idle, cmds, gate, lent) || d == c {
    }
  }

  lemma ExclusiveReport(idle: seq<Conn>, cmds: seq<Cmd>, gate: seq<Cmd>, held: set<Conn>, hand: set<Conn>,
                        dialled: set<Conn>, closing: set<Conn>, reported: set<Conn>, c: Conn)
    requires Exclusive(idle, cmds, gate, held, hand, dialled, closing, reported)
    ensures Exclusive(idle, cmds, gate, held, hand, dialled, closing, reported + {c})
  {
  }

  /** Closing has begun. */
  lemma BooksClosed(pending: map<Addr, nat>, dials: seq<Dial>, cmds: seq<Cmd>, lost: multiset<Addr>,
                    counted: map<Conn, Addr>, resolved: set<Conn>, reported: set<Conn>, early: set<Conn>,
                    closing: set<Conn>, blind: set<Conn>, late: set<Conn>)
    requires PendingOk(pending, dials, cmds, lost, false, None)
    requires DeadOk(counted, resolved, reported, early, closing, blind, late, false)
    ensures PendingOk(pending, dials, cmds, lost, true, None)
    ensures DeadOk(counted, resolved, reported, early, closing, blind, late, true)
  {
  }

  lemma BooksReport(idle: seq<Conn>, cmds: seq<Cmd>, gate: seq<Cmd>, lent: set<Conn>, counted: map<Conn, Addr>,
                    reported: set<Conn>, given: set<Conn>, closing: set<Conn>, c: Conn)
    requires CountedOk(idle, cmds, gate, lent, counted, reported)
    requires FateOk(given, closing, reported, idle, cmds, gate, lent, {})
    ensures CountedOk(idle, cmds, gate, lent, counted - {c}, reported + {c})
    ensures FateOk(given, closing, reported + {c}, idle, cmds, gate, lent, {})
  {
  }
}
