/** The endpoint-restricted connection pool: one goroutine owns the books, and callers, dial
    goroutines and the event loop talk to it through a command queue. */
module ConnPool {
  import opened Common
  import opened PoolState
  import opened PoolTarget

  /** What the running handler has taken out of a queue and not yet put somewhere else. */
  datatype Hand = Hand(token: Option<Token>, conns: set<Conn>, dial: Option<Addr>)

  const EMPTY: Hand := Hand(None, {}, None)

  function ConnSet(d: Dialled): set<Conn> {
    if d.Connected? then {d.conn} else {}
  }

  function HandOf(m: Cmd): (h: Hand)
    ensures One(h.token) == TokensOf(m) && One(h.dial) == DialsOf(m)
    ensures forall c :: c in h.conns <==> c in ConnsOf(m)
  {
    match m
    case Get(t) => Hand(Some(t), {}, None)
    case Put(c, _) => Hand(None, {c}, None)
    case DialResult(a, d, r) => Hand(r, ConnSet(d), Some(a))
    case _ => EMPTY
  }

  function Elems(conns: seq<Conn>): set<Conn> {
    set c | c in conns
  }

  lemma ElemsAppend(conns: seq<Conn>, c: Conn)
    requires c !in Elems(conns) && Distinct(conns)
    ensures Elems(conns + [c]) == Elems(conns) + {c} && Distinct(conns + [c])
  {
  }

  lemma ElemsPop(conns: seq<Conn>)
    requires conns != [] && Distinct(conns)
    ensures Elems(conns[1..]) == Elems(conns) - {conns[0]} && Distinct(conns[1..])
  {
    assert conns == [conns[0]] + conns[1..];
  }

  /** Each handler is written against the parts of the invariant that it touches. Where all of `Valid` is meant, a
      method of one line around it (`StartUp`, `OnGet`, `TickClean` and the like) adds the parts that it leaves alone. */
  class ConnPool {
    const size: nat
    const perEndpoint: nat
    const required: nat

    // owned by the pool goroutine
    var idle: seq<Conn>
    var endpoints: seq<Addr>
    var allowed: set<Addr>
    var unavailable: set<Addr>
    var counts: map<Addr, nat>
    var pending: map<Addr, nat>
    var counted: map<Conn, Addr>
    var index: nat

    // shared with the callers and the dial goroutines
    var cmds: seq<Cmd>
    var gate: seq<Cmd>
    var dials: seq<Dial>
    var stage: Stage
    var closed: bool

    // the connections themselves: whose context is gone, and whose lifetime is over
    var released: set<Conn>
    var aged: set<Conn>

    // what has been handed out: the connections in replies that no caller has taken yet, those whose caller
    // has left without its reply, and those with their holders
    var answers: seq<Answer>
    var lent: set<Conn>
    var mail: map<Token, Conn>
    var orphans: set<Conn>
    var returned: set<Token>

    // what has happened so far; `resolved` are the connections whose dial result has left the queue, `early`
    // those whose closing was reported before that, `blind` those that could not be read when they came back,
    // and `late` those that came back after closing had begun
    var closing: set<Conn>
    var issued: set<Token>
    var dialled: set<Conn>
    var given: set<Conn>
    var reported: set<Conn>
    var lost: multiset<Addr>
    var resolved: set<Conn>
    var early: set<Conn>
    var blind: set<Conn>
    var late: set<Conn>

    ghost predicate Inv(h: Hand)
      reads this
    {
      && perEndpoint >= 1
      && CountsOk(counted, counts)
      && |idle| <= size
      && Exclusive(idle, cmds, gate, lent, h.conns, dialled, closing, reported)
      && CountedOk(idle, cmds, gate, lent, counted, reported)
      && FateOk(given, closing, reported, idle, cmds, gate, lent, h.conns)
      && TokensOk(issued, cmds, dials, answers, h.token)
      && PendingOk(pending, dials, cmds, lost, closed, h.dial)
      && DeadOk(counted, resolved, reported, early, closing, blind, late, closed)
    }

    /** The gate and the queue behind it. */
    ghost predicate GateGood()
      reads `stage, `closed, `gate, `cmds
    {
      GateOk(stage, closed, gate, cmds) && AllTruthful(cmds) && AllTruthful(gate)
    }

    /** Dial results in the queue. */
    ghost predicate DialsGood()
      reads `cmds, `resolved, `dialled
    {
      DialsOk(cmds, resolved, dialled)
    }

    ghost predicate EndpointsGood()
      reads `endpoints, `allowed, `unavailable
    {
      EndpointsOk(endpoints, allowed, unavailable)
    }

    /** Replies, and the callers they are meant for. */
    ghost predicate MailGood()
      reads `answers, `mail, `returned, `orphans, `lent, `stage
    {
      MailOk(answers, mail, returned, orphans, lent, stage) && AnswersOk(answers)
    }

    /** What holds between the steps of the pool and its surroundings. */
    ghost predicate Valid()
      reads this
    {
      && Inv(EMPTY) && MailGood() && GateGood() && DialsGood() && EndpointsGood()
      && Restricted(idle, allowed)
      && (stage == Done ==> idle == [])
    }

    /** What holds when a command has been taken out of the queue. */
    ghost predicate Ready(h: Hand)
      reads this
    {
      && Inv(h) && MailGood() && GateGood() && DialsGood() && EndpointsGood()
      && Restricted(idle, allowed) && stage != Done
    }

    function Read(c: Conn): Option<Addr>
      reads this`released
    {
      if c in released then None else Some(c.endpoint)
    }

    predicate Expired(c: Conn)
      reads this`aged, this`released
    {
      c in aged && c !in released
    }

    constructor (init: seq<Addr>, share: nat, capacity: nat)
      requires init != [] && share >= 1
      ensures Valid() && stage == Open && endpoints == init && perEndpoint == share && size == capacity
      ensures required == |init| * share && idle == [] && dialled == {} && lent == {} && given == {} && answers == []
      ensures allowed == AddrSet(init) && unavailable == {} && cmds == [] && dials == [] && gate == [] && issued == {}
      ensures returned == {} && orphans == {} && reported == {}
      ensures fresh(this)
    {
      size, perEndpoint, required := capacity, share, |init| * share;
      idle, endpoints, allowed, unavailable := [], init, AddrSet(init), {};
      counts, pending, counted, index := map[], map[], map[], 0;
      cmds, gate, dials, stage, closed := [], [], [], Open, false;
      released, aged := {}, {};
      answers, lent, mail, orphans, returned := [], {}, map[], {}, {};
      closing, issued, dialled, given, reported := {}, {}, {}, {}, {};
      lost, resolved, early, blind, late := multiset{}, {}, {}, {}, {};
      NothingYet();
    }

    /** A pool for some endpoints. There is none without endpoints, nor when every dial fails. */
    static method New(init: seq<Addr>, share: int, capacity: int) returns (pool: ConnPool?)
      ensures init == [] ==> pool == null
      ensures pool != null ==> fresh(pool) && pool.Valid() && pool.stage == Open && pool.endpoints == init
                               && pool.perEndpoint == Max(1, share) && pool.required == |init| * pool.perEndpoint
                               && pool.size == if capacity <= 0 then Max(1024, pool.required) else capacity
    {
      if init == [] {
        return null;
      }
      var each := Max(1, share);
      var required := |init| * each;
      var p := new ConnPool(init, each, if capacity <= 0 then Max(1024, required) else capacity);
      var ok := p.StartUp(required);
      if ok {
        pool := p;
      } else {
        p.CloseIdle();
        pool := null;
      }
    }

    // ----- bookkeeping

    /** Forgets a connection in the books; a second time changes nothing. */
    method Dec(c: Conn, addr: Option<Addr>, ghost h: Hand)
      requires Inv(h) && (addr == None || addr == Some(c.endpoint))
      requires !Settled(c, idle, cmds, gate, lent)
      modifies `counted, `counts
      ensures Inv(h) && counted == old(counted) - {c}
      ensures counts == if c in old(counted) then Lowered(old(counts), c.endpoint) else old(counts)
    {
      if c in counted {
        CountsDec(counted, counts, c);
        DeadDec(counted, resolved, reported, early, closing, blind, late, closed, c);
        var a := if addr == None then counted[c] else addr.value;
        counts := Lowered(counts, a);
        counted := counted - {c};
      } else {
        assert counted - {c} == counted;
      }
    }

    /** What is known of a connection when its dial result has just been taken out of the queue. */
    predicate Arrived(c: Conn)
      reads `resolved, `reported, `early
    {
      c in resolved && (c in reported <==> c in early)
    }

    predicate Newly(d: Dialled)
      reads `resolved, `reported, `early, `counted
    {
      d.Connected? ==> Arrived(d.conn) && d.conn !in counted
    }

    method Inc(c: Conn, ghost h: Hand)
      requires Inv(h) && c in h.conns && Arrived(c)
      modifies `counted, `counts
      ensures Inv(h) && counted == old(counted)[c := c.endpoint]
      ensures counts == if c in old(counted) then old(counts)
                        else old(counts)[c.endpoint := At(old(counts), c.endpoint) + 1]
    {
      if c in counted {
        assert counted[c] == c.endpoint;
      } else {
        CountsInc(counted, counts, c);
        NotClosing(idle, cmds, gate, lent, h.conns, dialled, closing, reported, c);
        DeadInc(counted, resolved, reported, early, closing, blind, late, closed, c);
        counted := counted[c := c.endpoint];
        counts := counts[c.endpoint := At(counts, c.endpoint) + 1];
      }
    }

    /** Closes a connection that is not in the books, now or after a delay: nobody gets it from the pool again. */
    method CloseConn(c: Conn, ghost h: Hand)
      requires Inv(h) && c in h.conns && c !in counted
      modifies `closing
      ensures Inv(h.(conns := h.conns - {c})) && closing == old(closing) + {c}
    {
      ExclusiveClose(idle, cmds, gate, lent, h.conns, dialled, closing, reported, c);
      DeadClose(counted, resolved, reported, early, closing, blind, late, closed, c);
      closing := closing + {c};
    }

    /** Closes a connection that has come back and cannot be read. The books are left as they are. */
    method CloseBlind(c: Conn, ghost h: Hand)
      requires Inv(h) && c in h.conns && Read(c) == None
      modifies `closing, `blind
      ensures Inv(h.(conns := h.conns - {c})) && closing == old(closing) + {c} && blind == old(blind) + {c}
    {
      ExclusiveClose(idle, cmds, gate, lent, h.conns, dialled, closing, reported, c);
      DeadReturn(counted, resolved, reported, early, closing, blind, late, closed, c);
      closing, blind := closing + {c}, blind + {c};
    }

    /** Closes a connection that has come back after closing has begun. The books are left as they are. */
    method CloseLate(c: Conn, ghost h: Hand)
      requires Inv(h) && c in h.conns && closed
      modifies `closing, `late
      ensures Inv(h.(conns := h.conns - {c})) && closing == old(closing) + {c} && late == old(late) + {c}
    {
      ExclusiveClose(idle, cmds, gate, lent, h.conns, dialled, closing, reported, c);
      DeadReturn(counted, resolved, reported, early, closing, blind, late, closed, c);
      closing, late := closing + {c}, late + {c};
    }

    method CloseCounted(c: Conn, addr: Option<Addr>, ghost h: Hand)
      requires Inv(h) && c in h.conns && (addr == None || addr == Some(c.endpoint))
      modifies `closing, `counted, `counts
      ensures Inv(h.(conns := h.conns - {c})) && closing == old(closing) + {c} && counted == old(counted) - {c}
      ensures counts == if c in old(counted) then Lowered(old(counts), c.endpoint) else old(counts)
    {
      ExclusiveClose(idle, cmds, gate, lent, h.conns, dialled, closing, reported, c);
      Dec(c, addr, h);
      DeadDec(counted, resolved, reported, early, closing, blind, late, closed, c);
      assert counted - {c} == counted;
      closing := closing + {c};
    }

    /** Answers a `Get` with an error. */
    method Refuse(token: Token, ghost h: Hand)
      requires MailGood() && Inv(h) && h.token == Some(token)
      modifies `answers
      ensures MailGood() && Inv(h.(token := None)) && answers == old(answers) + [Answer(token, Failed, allowed)]
    {
      var a := Answer(token, Failed, allowed);
      TokensAnswer(issued, cmds, dials, answers, a);
      MailFailed(answers, mail, returned, orphans, lent, stage, a);
      answers := answers + [a];
    }

    /** Answers a `Get` with a connection: it is in the mail until the caller takes it. */
    method Lend(token: Token, c: Conn, ghost h: Hand)
      requires MailGood() && Inv(h) && h.token == Some(token) && stage != Done
      requires c in h.conns && c.endpoint in allowed && (c in counted || c in reported)
      modifies `answers, `lent, `mail
      ensures MailGood() && Inv(Hand(None, h.conns - {c}, h.dial)) && answers == old(answers) + [Answer(token, Got(c), allowed)]
      ensures lent == old(lent) + {c} && c !in old(lent) && mail == old(mail)[token := c]
    {
      HandOut(c, h);
      Post(token, c, h.(conns := h.conns - {c}));
    }

    method HandOut(c: Conn, ghost h: Hand)
      requires MailGood() && Inv(h) && c in h.conns && (c in counted || c in reported)
      modifies `lent
      ensures MailOk(answers, mail, returned, orphans, lent - {c}, stage) && Inv(h.(conns := h.conns - {c}))
      ensures lent == old(lent) + {c} && c !in old(lent)
    {
      ExclusiveLend(idle, cmds, gate, lent, h.conns, dialled, closing, reported, c);
      BooksLend(idle, cmds, gate, lent, counted, reported, given, closing, c, h.conns);
      assert lent + {c} - {c} == lent;
      lent := lent + {c};
    }

    method Post(token: Token, c: Conn, ghost h: Hand)
      requires MailOk(answers, mail, returned, orphans, lent - {c}, stage) && AnswersOk(answers) && Inv(h)
      requires h.token == Some(token) && stage != Done && c in lent && c.endpoint in allowed
      modifies `answers, `mail
      ensures MailGood() && Inv(h.(token := None)) && answers == old(answers) + [Answer(token, Got(c), allowed)]
      ensures mail == old(mail)[token := c]
    {
      var a := Answer(token, Got(c), allowed);
      assert lent - {c} + {c} == lent;
      AnswerLends(issued, cmds, dials, answers, mail, returned, orphans, lent - {c}, stage, a);
      answers, mail := answers + [a], mail[token := c];
    }

    /** The reply channel may be missing: then nobody is told. */
    method Fail(token: Option<Token>, ghost h: Hand)
      requires MailGood() && Inv(h) && h.token == token
      modifies `answers
      ensures MailGood() && Inv(h.(token := None))
      ensures answers == old(answers) + if token.Some? then [Answer(token.value, Failed, allowed)] else []
    {
      if token.Some? {
        Refuse(token.value, h);
      }
    }

    method TakeIdle(i: nat, ghost h: Hand) returns (c: Conn)
      requires Inv(h) && i < |idle|
      modifies `idle
      ensures c == old(idle[i]) && idle == old(idle[..i] + idle[i + 1..]) && c !in h.conns && c !in idle
      ensures Inv(h.(conns := h.conns + {c})) && (c in counted || c in reported)
    {
      c := idle[i];
      ExclusiveTake(idle, cmds, gate, lent, h.conns, dialled, closing, reported, i);
      assert Settled(c, idle, cmds, gate, lent);
      idle := idle[..i] + idle[i + 1..];
      forall d ensures old(Settled(d, idle, cmds, gate, lent)) <==> Settled(d, idle, cmds, gate, lent) || d == c {
        assert old(idle) == old(idle[..i]) + [c] + old(idle[i + 1..]);
      }
    }

    method StoreIdle(c: Conn, addr: Addr, ghost h: Hand)
      requires Inv(h) && c in h.conns && addr == c.endpoint && addr in allowed && (c in counted || c in reported)
      modifies `idle, `closing, `counted, `counts
      ensures Inv(h.(conns := h.conns - {c}))
      ensures old(Restricted(idle, allowed)) ==> Restricted(idle, allowed)
      ensures |old(idle)| < size ==> idle == old(idle) + [c] && closing == old(closing) && counts == old(counts)
      ensures |old(idle)| >= size ==> idle == old(idle) && closing == old(closing) + {c} && c !in counted
    {
      if |idle| >= size {
        CloseCounted(c, Some(addr), h);
      } else {
        ExclusiveStore(idle, cmds, gate, lent, h.conns, dialled, closing, reported, c);
        idle := idle + [c];
        forall d ensures Settled(d, idle, cmds, gate, lent) <==> old(Settled(d, idle, cmds, gate, lent)) || d == c {
        }
      }
    }

    /** Starts a dial goroutine, unless the pool is closed or the address is unknown. */
    method StartDial(addr: Option<Addr>, token: Option<Token>, ghost h: Hand)
      requires MailGood() && Inv(h) && h.token == token
      modifies `pending, `dials, `answers
      ensures MailGood() && Inv(h.(token := None))
      ensures addr == None || closed ==> pending == old(pending) && dials == old(dials)
      ensures addr == None || closed ==>
                answers == old(answers) + if token.Some? then [Answer(token.value, Failed, allowed)] else []
      ensures addr.Some? && !closed ==>
                && dials == old(dials) + [Dial(addr.value, token)] && answers == old(answers)
                && pending == old(pending)[addr.value := At(old(pending), addr.value) + 1]
    {
      if addr == None || closed {
        Fail(token, h);
      } else {
        Launch(addr.value, token, h);
      }
    }

    method Launch(addr: Addr, token: Option<Token>, ghost h: Hand)
      requires Inv(h) && h.token == token
      modifies `pending, `dials
      ensures Inv(h.(token := None)) && dials == old(dials) + [Dial(addr, token)]
      ensures pending == old(pending)[addr := At(old(pending), addr) + 1]
    {
      PendingDial(pending, dials, cmds, lost, closed, Dial(addr, token), h.dial);
      TokensDial(issued, cmds, dials, answers, Dial(addr, token));
      pending := pending[addr := At(pending, addr) + 1];
      dials := dials + [Dial(addr, token)];
    }

    /** A dial that nobody waits for. */
    method Redial(addr: Addr, ghost h: Hand)
      requires Inv(h) && h.token == None
      modifies `pending, `dials
      ensures Inv(h)
      ensures closed ==> pending == old(pending) && dials == old(dials)
      ensures !closed ==> dials == old(dials) + [Dial(addr, None)]
      ensures !closed ==> pending == old(pending)[addr := At(old(pending), addr) + 1]
    {
      if !closed {
        Launch(addr, None, h);
      }
    }

    /** The only endpoint is never marked. */
    method MarkUnavailable(ep: Addr, ghost h: Hand)
      requires EndpointsGood() && Inv(h)
      modifies `unavailable
      ensures EndpointsGood() && Inv(h)
      ensures unavailable == if |endpoints| <= 1 || ep !in allowed then old(unavailable) else old(unavailable) + {ep}
    {
      if |endpoints| <= 1 || ep !in allowed {
        return;
      }
      EndpointsMark(endpoints, allowed, unavailable, ep);
      unavailable := unavailable + {ep};
    }

    /** Round robin over the endpoints that are not marked: it fails exactly when all are marked, and
        otherwise skips marked ones only. */
    method GetEndpoint(ghost h: Hand) returns (r: Option<Addr>)
      requires EndpointsGood() && Inv(h)
      modifies `index
      ensures Inv(h)
      ensures r == None <==> forall a :: a in allowed ==> a in unavailable
      ensures r.Some? ==> r.value in allowed && r.value !in unavailable
      ensures r.Some? ==> index > old(index) && endpoints != [] && r.value == endpoints[(index - 1) % |endpoints|]
                          && forall k :: old(index) <= k < index - 1 ==> endpoints[k % |endpoints|] in unavailable
    {
      var i := 0;
      while i < |endpoints|
        invariant i <= |endpoints| && index == old(index) + i
        invariant forall k :: old(index) <= k < index ==> endpoints[k % |endpoints|] in unavailable
      {
        var ep := endpoints[index % |endpoints|];
        index := index + 1;
        if ep !in unavailable {
          return Some(ep);
        }
        i := i + 1;
      }
      forall j | 0 <= j < |endpoints| ensures endpoints[j] in unavailable {
        var k := Reached(old(index), |endpoints|, j);
      }
      r := None;
    }

    // ----- the start

    /** One dial, before the pool goroutine runs; a failed one marks its endpoint. */
    method NewConn(ghost h: Hand) returns (ok: bool, result: Dialled)
      requires EndpointsGood() && DialsGood() && Inv(h)
      modifies `index, `unavailable, `dialled, `resolved
      ensures EndpointsGood() && DialsGood() && Inv(h.(conns := h.conns + ConnSet(result)))
      ensures result.Connected? ==> ok && result.conn !in h.conns && Arrived(result.conn)
      ensures dialled == old(dialled) + ConnSet(result) && resolved == old(resolved) + ConnSet(result)
      ensures ok ==> !result.DialError?
    {
      ok, result := false, DialError;
      assert h.conns + {} == h.conns;
      var ep := GetEndpoint(h);
      if ep.Some? {
        var id: nat, up: bool, nil: bool := *, *, *;
        var c := Conn(id, ep.value);
        if up && nil {
          ok, result := true, NilConn;
        } else if up && c !in dialled {
          ok, result := true, Connected(c);
          DialAtOnce(c, h);
        } else {
          MarkUnavailable(ep.value, h);
        }
      }
    }

    /** A dial whose result nobody has to queue. */
    method DialAtOnce(c: Conn, ghost h: Hand)
      requires DialsGood() && Inv(h) && c !in dialled
      modifies `dialled, `resolved
      ensures DialsGood() && Inv(h.(conns := h.conns + {c})) && c !in h.conns && Arrived(c)
      ensures dialled == old(dialled) + {c} && resolved == old(resolved) + {c}
    {
      ExclusiveDialled(idle, cmds, gate, lent, h.conns, dialled, closing, reported, c);
      DialsAtOnce(cmds, resolved, dialled, c);
      DeadResolve(counted, resolved, reported, early, closing, blind, late, closed, c);
      dialled, resolved := dialled + {c}, resolved + {c};
    }

    method StartUp(count: nat) returns (ok: bool)
      requires Valid() && stage == Open
      modifies this
      ensures Valid() && stage == Open && endpoints == old(endpoints)
    {
      ok := InitConns(count);
    }

    /** Dials `count` times and keeps what succeeds; it fails when nothing does. */
    method InitConns(count: nat) returns (ok: bool)
      requires Valid() && stage == Open
      modifies `idle, `closing, `blind, `counted, `counts, `pending, `dials, `unavailable, `index, `dialled, `resolved
      ensures Inv(EMPTY) && EndpointsGood() && DialsGood() && Restricted(idle, allowed)
      ensures !ok ==> idle == old(idle) && dialled == old(dialled)
    {
      var conns;
      ok, conns := DialAll(count);
      if ok {
        PutAll(conns);
      } else {
        assert Elems(conns) == {};
      }
    }

    method DialAll(count: nat) returns (ok: bool, conns: seq<Conn>)
      requires EndpointsGood() && DialsGood() && Inv(EMPTY)
      modifies `index, `unavailable, `dialled, `resolved
      ensures EndpointsGood() && DialsGood() && Inv(Hand(None, Elems(conns), None))
      ensures Distinct(conns) && forall c :: c in conns ==> Arrived(c)
      ensures !ok ==> dialled == old(dialled) && conns == []
    {
      ok, conns := false, [];
      assert Elems(conns) == {};
      for n := 0 to count
        invariant EndpointsGood() && DialsGood() && Inv(Hand(None, Elems(conns), None))
        invariant Distinct(conns) && forall c :: c in conns ==> Arrived(c)
        invariant !ok ==> dialled == old(dialled) && conns == []
      {
        var up: bool;
        up, conns := DialOnce(conns);
        ok := ok || up;
      }
    }

    method DialOnce(conns: seq<Conn>) returns (up: bool, more: seq<Conn>)
      requires EndpointsGood() && DialsGood() && Inv(Hand(None, Elems(conns), None))
      requires Distinct(conns) && forall c :: c in conns ==> Arrived(c)
      modifies `index, `unavailable, `dialled, `resolved
      ensures EndpointsGood() && DialsGood() && Inv(Hand(None, Elems(more), None))
      ensures Distinct(more) && forall c :: c in more ==> Arrived(c)
      ensures !up ==> more == conns && dialled == old(dialled)
    {
      var result;
      up, result := NewConn(Hand(None, Elems(conns), None));
      if result.Connected? {
        ElemsAppend(conns, result.conn);
        more := conns + [result.conn];
      } else {
        assert Elems(conns) + {} == Elems(conns);
        more := conns;
      }
    }

    method PutAll(conns: seq<Conn>)
      requires EndpointsGood() && Inv(Hand(None, Elems(conns), None)) && Restricted(idle, allowed)
      requires Distinct(conns) && forall c :: c in conns ==> Arrived(c)
      modifies `idle, `closing, `blind, `counted, `counts, `pending, `dials, `unavailable
      ensures EndpointsGood() && Inv(EMPTY) && Restricted(idle, allowed)
    {
      assert conns[0..] == conns;
      for n := 0 to |conns|
        invariant EndpointsGood() && Inv(Hand(None, Elems(conns[n..]), None)) && Restricted(idle, allowed)
      {
        assert conns[n..][1..] == conns[n + 1..];
        PutFirst(conns[n..]);
      }
      assert Elems(conns[|conns|..]) == {};
    }

    method PutFirst(conns: seq<Conn>)
      requires EndpointsGood() && Inv(Hand(None, Elems(conns), None)) && Restricted(idle, allowed)
      requires conns != [] && Distinct(conns) && Arrived(conns[0])
      modifies `idle, `closing, `blind, `counted, `counts, `pending, `dials, `unavailable
      ensures EndpointsGood() && Inv(Hand(None, Elems(conns[1..]), None)) && Restricted(idle, allowed)
    {
      ElemsPop(conns);
      PutConn(conns[0], false, true, Hand(None, Elems(conns), None));
    }

    // ----- the command handlers

    /** The next command is in hand. */
    method Pop() returns (m: Cmd)
      requires GateGood() && DialsGood() && Inv(EMPTY) && cmds != [] && cmds[0] != Close
      modifies `cmds, `resolved
      ensures GateGood() && DialsGood() && m == old(cmds[0]) && cmds == old(cmds[1..]) && Truthful(m) && Inv(HandOf(m))
      ensures m.Put? ==> m.conn in counted || m.conn in reported
      ensures resolved == old(resolved) + Result(m) && (m.DialResult? ==> Newly(m.dialled))
    {
      Resolve();
      m := Dequeue();
    }

    method Dequeue() returns (m: Cmd)
      requires GateGood() && Inv(EMPTY) && cmds != [] && cmds[0] != Close
      modifies `cmds
      ensures GateGood() && m == old(cmds[0]) && cmds == old(cmds[1..]) && Truthful(m) && Inv(HandOf(m))
      ensures m.Put? ==> m.conn in counted || m.conn in reported
    {
      m := cmds[0];
      ghost var h := HandOf(m);
      ExclusivePop(idle, cmds, gate, lent, h.conns, dialled, closing, reported);
      TokensPop(issued, cmds, dials, answers, h.token);
      PendingPop(pending, dials, cmds, lost, closed, h.dial);
      GatePop(stage, closed, gate, cmds);
      BooksPop(idle, cmds, gate, lent, h.conns, counted, reported, given, closing);
      cmds := cmds[1..];
    }

    /** From now on the result of the dial counts as known. */
    method Resolve()
      requires DialsGood() && Inv(EMPTY) && cmds != []
      modifies `resolved
      ensures Inv(EMPTY) && DialsOk(cmds[1..], resolved, dialled) && resolved == old(resolved) + Result(cmds[0])
      ensures cmds[0].DialResult? ==> Newly(cmds[0].dialled)
    {
      DialsPop(idle, cmds, gate, lent, dialled, closing, reported, resolved);
      var m := cmds[0];
      if m.DialResult? && m.dialled.Connected? {
        DeadResolve(counted, resolved, reported, early, closing, blind, late, closed, m.dialled.conn);
      } else {
        assert resolved + {} == resolved;
      }
      resolved := resolved + Result(m);
    }

    method HandleGet(token: Token)
      requires EndpointsGood() && GateGood() && MailGood() && Inv(Hand(Some(token), {}, None))
      modifies `idle, `closing, `counted, `counts, `answers, `lent, `mail, `index, `pending, `dials
      ensures MailGood() && Inv(EMPTY)
      ensures (old(Restricted(idle, allowed)) ==> Restricted(idle, allowed)) && old(closing) <= closing
      ensures Served(token, old(answers), answers, old(dials), dials, allowed - unavailable)
      ensures closed ==> answers == old(answers) + [Answer(token, Failed, allowed)] && dials == old(dials)
      ensures !closed ==> Found(token, old(idle), old(answers), old(dials))
    {
      if closed {
        Refuse(token, Hand(Some(token), {}, None));
      } else {
        HandleOpenGet(token);
      }
    }

    /** A `Get` has got an idle connection if one was usable. Otherwise none is left, and it waits for a dial, or has
        failed because no endpoint can be reached. */
    ghost predicate Found(token: Token, before: seq<Conn>, answered: seq<Answer>, dialling: seq<Dial>)
      reads `idle, `answers, `dials, `released, `aged, `allowed, `unavailable
    {
      if NoneUsable(before) then idle == [] && InDial(token, answered, answers, dialling, dials, allowed - unavailable)
      else dials == dialling && FromIdle(token, before, allowed, answered, answers)
    }

    /** A `Get` has started again: it has failed if no endpoint is left to dial, and is served as a new one otherwise. */
    ghost predicate Resumed(token: Token, before: seq<Conn>, answered: seq<Answer>, dialling: seq<Dial>)
      reads `closed, `endpoints, `idle, `answers, `dials, `released, `aged, `allowed, `unavailable
    {
      if closed || |endpoints| <= |unavailable| then answers == answered + [Answer(token, Failed, allowed)] && dials == dialling
      else Found(token, before, answered, dialling)
    }

    lemma ResumedServes(token: Token, before: seq<Conn>, answered: seq<Answer>, dialling: seq<Dial>)
      requires Resumed(token, before, answered, dialling)
      ensures Served(token, answered, answers, dialling, dials, allowed - unavailable)
    {
    }

    /** Usable is a connection that can be read, leads to an allowed endpoint and is young enough. */
    lemma UsableExactly(c: Conn)
      ensures Usable(c) <==> c !in released && c.endpoint in allowed && c !in aged
    {
    }

    /** A `Get` is answered from the idle connections if one is usable. Otherwise it waits for a dial, or
        fails because no endpoint can be reached. */
    method HandleOpenGet(token: Token)
      requires EndpointsGood() && MailGood() && Inv(Hand(Some(token), {}, None)) && !closed && stage != Done
      modifies `idle, `closing, `counted, `counts, `answers, `lent, `mail, `index, `pending, `dials
      ensures MailGood() && Inv(EMPTY)
      ensures (old(Restricted(idle, allowed)) ==> Restricted(idle, allowed)) && old(closing) <= closing
      ensures Found(token, old(idle), old(answers), old(dials))
    {
      var c := PopUsable(Hand(Some(token), {}, None));
      GiveOrDial(token, c);
    }

    method GiveOrDial(token: Token, c: Option<Conn>)
      requires EndpointsGood() && MailGood() && !closed && stage != Done
      requires Inv(Hand(Some(token), if c.Some? then {c.value} else {}, None))
      requires c.Some? ==> c.value.endpoint in allowed && (c.value in counted || c.value in reported)
      modifies `answers, `lent, `mail, `index, `pending, `dials
      ensures MailGood() && Inv(EMPTY)
      ensures c.Some? ==> dials == old(dials) && answers == old(answers) + [Answer(token, Got(c.value), allowed)]
      ensures c == None ==> InDial(token, old(answers), answers, old(dials), dials, allowed - unavailable)
    {
      if c.Some? {
        Serve(token, c.value);
      } else {
        DialFor(token);
      }
    }

    ghost predicate NoneUsable(conns: seq<Conn>)
      reads `released, `aged, `allowed
    {
      forall i :: 0 <= i < |conns| ==> !Usable(conns[i])
    }

    method Serve(token: Token, c: Conn)
      requires MailGood() && Inv(Hand(Some(token), {c}, None)) && c.endpoint in allowed && (c in counted || c in reported)
      requires stage != Done
      modifies `answers, `lent, `mail
      ensures MailGood() && Inv(EMPTY) && answers == old(answers) + [Answer(token, Got(c), allowed)]
    {
      Lend(token, c, Hand(Some(token), {c}, None));
      assert {c} - {c} == {};
    }

    method DialFor(token: Token)
      requires EndpointsGood() && MailGood() && Inv(Hand(Some(token), {}, None)) && !closed
      modifies `answers, `index, `pending, `dials
      ensures MailGood() && Inv(EMPTY)
      ensures InDial(token, old(answers), answers, old(dials), dials, allowed - unavailable)
    {
      ghost var h := Hand(Some(token), {}, None);
      var ep := GetEndpoint(h);
      assert ep.Some? ==> ep.value in allowed - unavailable;
      assert ep == None ==> allowed - unavailable == {};
      StartDial(ep, Some(token), h);
    }

    /** The first usable idle connection; those before it are closed. */
    method PopUsable(ghost h: Hand) returns (r: Option<Conn>)
      requires Inv(h) && h.conns == {}
      modifies `idle, `closing, `counted, `counts
      ensures Inv(if r.Some? then h.(conns := {r.value}) else h)
      ensures r == None ==> idle == [] && NoneUsable(old(idle))
      ensures r.Some? ==> Usable(r.value) && (r.value in counted || r.value in reported)
      ensures r.Some? ==> exists n :: 0 <= n < |old(idle)| && r.value == old(idle)[n] && idle == old(idle)[n + 1..]
                                      && forall i :: 0 <= i < n ==> !Usable(old(idle)[i])
      ensures old(Restricted(idle, allowed)) ==> Restricted(idle, allowed)
      ensures old(closing) <= closing
    {
      ghost var n := 0;
      while idle != []
        invariant Inv(h) && 0 <= n <= |old(idle)| && idle == old(idle)[n..] && old(closing) <= closing
        invariant forall i :: 0 <= i < n ==> !Usable(old(idle)[i])
        decreases |idle|
      {
        assert idle[0] == old(idle)[n];
        if Usable(idle[0]) {
          var c := PopIdle(h);
          return Some(c);
        }
        CloseFirst(h);
        n := n + 1;
      }
      r := None;
    }

    method CloseFirst(ghost h: Hand)
      requires Inv(h) && h.conns == {} && idle != []
      modifies `idle, `closing, `counted, `counts
      ensures Inv(h) && idle == old(idle[1..]) && old(closing) <= closing
    {
      var c := PopIdle(h);
      CloseCounted(c, Read(c), h.(conns := {c}));
      assert {c} - {c} == {};
    }

    method PopIdle(ghost h: Hand) returns (c: Conn)
      requires Inv(h) && h.conns == {} && idle != []
      modifies `idle
      ensures c == old(idle[0]) && idle == old(idle[1..])
      ensures Inv(h.(conns := {c})) && (c in counted || c in reported)
    {
      c := TakeIdle(0, h);
      assert h.conns + {c} == {c};
    }

    predicate Usable(c: Conn)
      reads `released, `aged, `allowed
    {
      Read(c).Some? && Read(c).value in allowed && !Expired(c)
    }

    /** The outcome of a dial: the pending dial is settled, and the waiting `Get`, if any, is answered
        or starts again. */
    method HandleDialResult(addr: Addr, dialled: Dialled, token: Option<Token>)
      requires Ready(HandOf(DialResult(addr, dialled, token))) && (dialled.Connected? ==> dialled.conn.endpoint == addr)
      requires Newly(dialled)
      modifies this
      ensures Valid() && stage == old(stage)
      ensures token.Some? ==> Served(token.value, old(answers), answers, old(dials), dials, allowed - unavailable)
      ensures closed || !dialled.Connected? ==> idle == old(idle) && closing == old(closing) + ConnSet(dialled)
                                                && pending == Lowered(old(pending), addr)
    {
      SettleDial(addr, Hand(token, ConnSet(dialled), None));
      if closed || !dialled.Connected? {
        OnNoConn(addr, dialled, token);
      } else if token.Some? {
        OnConnectedFor(dialled.conn, token.value);
      } else {
        OnConnectedIdle(dialled.conn);
      }
    }

    method OnNoConn(addr: Addr, dialled: Dialled, token: Option<Token>)
      requires Ready(Hand(token, ConnSet(dialled), None)) && (closed || !dialled.Connected?)
      requires dialled.Connected? ==> dialled.conn !in counted
      modifies this
      ensures Valid() && stage == old(stage)
      ensures token.Some? ==> Served(token.value, old(answers), answers, old(dials), dials, allowed - unavailable)
      ensures idle == old(idle) && closing == old(closing) + ConnSet(dialled) && pending == old(pending) && closed == old(closed)
    {
      HandleNoConn(addr, dialled, token);
    }

    method OnConnectedFor(c: Conn, token: Token)
      requires Ready(Hand(Some(token), {c}, None)) && !closed && Arrived(c) && c !in counted
      modifies this
      ensures Valid() && stage == old(stage)
      ensures Served(token, old(answers), answers, old(dials), dials, allowed - unavailable)
    {
      HandleConnectedFor(c, token);
    }

    method OnConnectedIdle(c: Conn)
      requires Ready(Hand(None, {c}, None)) && Arrived(c) && c !in counted
      modifies this
      ensures Valid() && stage == old(stage)
    {
      HandleConnectedIdle(c);
    }

    /** The pool is closed, or there is no connection. */
    method HandleNoConn(addr: Addr, dialled: Dialled, token: Option<Token>)
      requires dialled.Connected? ==> closed && dialled.conn !in counted
      requires EndpointsGood() && MailGood() && Inv(Hand(token, ConnSet(dialled), None))
      modifies `closing, `answers, `unavailable
      ensures EndpointsGood() && MailGood() && Inv(EMPTY) && closing == old(closing) + ConnSet(dialled)
      ensures answers == old(answers) + if token.Some? then [Answer(token.value, Failed, allowed)] else []
      ensures unavailable == if !closed && dialled.DialError? && |endpoints| > 1 && addr in allowed
                             then old(unavailable) + {addr} else old(unavailable)
    {
      if !closed && dialled.DialError? {
        MarkUnavailable(addr, Hand(token, {}, None));
      }
      CloseAndFail(dialled, token);
    }

    /** The connection, if any, is closed, and the caller, if any, gets an error. */
    method CloseAndFail(dialled: Dialled, token: Option<Token>)
      requires MailGood() && Inv(Hand(token, ConnSet(dialled), None)) && (dialled.Connected? ==> dialled.conn !in counted)
      modifies `closing, `answers
      ensures MailGood() && Inv(EMPTY) && closing == old(closing) + ConnSet(dialled)
      ensures answers == old(answers) + if token.Some? then [Answer(token.value, Failed, allowed)] else []
    {
      CloseDialled(dialled, Hand(token, ConnSet(dialled), None));
      Fail(token, Hand(token, {}, None));
    }

    method SettleDial(addr: Addr, ghost h: Hand)
      requires Inv(h.(dial := Some(addr))) && h.dial == None
      modifies `pending
      ensures Inv(h) && pending == Lowered(old(pending), addr)
    {
      PendingSettle(pending, dials, cmds, lost, closed, addr);
      pending := if At(pending, addr) > 1 then pending[addr := pending[addr] - 1] else pending - {addr};
    }

    method CloseDialled(dialled: Dialled, ghost h: Hand)
      requires Inv(h) && h.conns == ConnSet(dialled) && (dialled.Connected? ==> dialled.conn !in counted)
      modifies `closing
      ensures Inv(h.(conns := {}))
      ensures closing == old(closing) + h.conns
    {
      if dialled.Connected? {
        CloseConn(dialled.conn, h);
        assert h.conns - {dialled.conn} == {};
      }
    }

    /** A dial has succeeded while somebody waits for it. */
    method HandleConnectedFor(c: Conn, token: Token)
      requires EndpointsGood() && GateGood() && MailGood() && Inv(Hand(Some(token), {c}, None)) && !closed
      requires Arrived(c) && c !in counted
      modifies `idle, `closing, `counted, `counts, `answers, `lent, `mail, `index, `pending, `dials, `unavailable
      ensures EndpointsGood() && MailGood() && Inv(EMPTY)
      ensures old(Restricted(idle, allowed)) ==> Restricted(idle, allowed)
      ensures c.endpoint !in allowed ==> c in closing
      ensures c.endpoint !in unavailable
      ensures c.endpoint in allowed ==> answers == old(answers) + [Answer(token, Got(c), allowed)] && dials == old(dials)
      ensures c.endpoint !in allowed ==> Resumed(token, old(idle), old(answers), old(dials))
      ensures Served(token, old(answers), answers, old(dials), dials, allowed - unavailable)
    {
      if c.endpoint in allowed {
        UnmarkAndAccept(c, token);
      } else {
        assert In(c.endpoint, unavailable) <==> c.endpoint in unavailable;
        CloseAndRetry(c, token);
        ResumedServes(token, old(idle), old(answers), old(dials));
      }
    }

    method UnmarkAndAccept(c: Conn, token: Token)
      requires EndpointsGood() && MailGood() && Inv(Hand(Some(token), {c}, None)) && stage != Done
      requires c.endpoint in allowed && Arrived(c)
      modifies `counted, `counts, `answers, `lent, `mail, `unavailable
      ensures EndpointsGood() && MailGood() && Inv(EMPTY) && c.endpoint !in unavailable
      ensures answers == old(answers) + [Answer(token, Got(c), allowed)]
    {
      Unmark(c.endpoint);
      AcceptFor(c, token);
    }

    /** The endpoint has been deleted in the meantime. */
    method CloseAndRetry(c: Conn, token: Token)
      requires EndpointsGood() && GateGood() && MailGood() && Inv(Hand(Some(token), {c}, None)) && c !in counted
      modifies `idle, `closing, `counted, `counts, `answers, `lent, `mail, `index, `pending, `dials
      ensures MailGood() && Inv(EMPTY) && c in closing
      ensures old(Restricted(idle, allowed)) ==> Restricted(idle, allowed)
      ensures Resumed(token, old(idle), old(answers), old(dials))
    {
      CloseConn(c, Hand(Some(token), {c}, None));
      assert {c} - {c} == {};
      RetryGet(token);
    }

    /** A dial has succeeded and nobody waits for it. */
    method HandleConnectedIdle(c: Conn)
      requires EndpointsGood() && Inv(Hand(None, {c}, None)) && Arrived(c) && c !in counted
      modifies `idle, `closing, `counted, `counts, `unavailable
      ensures EndpointsGood() && Inv(EMPTY)
      ensures old(Restricted(idle, allowed)) ==> Restricted(idle, allowed)
      ensures c.endpoint !in unavailable
      ensures if c.endpoint in allowed && |old(idle)| < size then idle == old(idle) + [c] && closing == old(closing)
              else idle == old(idle) && closing == old(closing) + {c}
    {
      if c.endpoint in allowed {
        Unmark(c.endpoint);
        AcceptIdle(c);
      } else {
        assert In(c.endpoint, unavailable) <==> c.endpoint in unavailable;
        CloseConn(c, Hand(None, {c}, None));
        assert {c} - {c} == {};
      }
    }

    /** The endpoint answers again. */
    method Unmark(ep: Addr)
      requires EndpointsGood()
      modifies `unavailable
      ensures EndpointsGood() && unavailable == old(unavailable) - {ep}
    {
      EndpointsMark(endpoints, allowed, unavailable, ep);
      unavailable := unavailable - {ep};
    }

    /** A new connection is counted and lent. */
    method AcceptFor(c: Conn, token: Token)
      requires MailGood() && Inv(Hand(Some(token), {c}, None)) && c.endpoint in allowed && stage != Done && Arrived(c)
      modifies `counted, `counts, `answers, `lent, `mail
      ensures MailGood() && Inv(EMPTY) && answers == old(answers) + [Answer(token, Got(c), allowed)]
      ensures mail == old(mail)[token := c] && c in counted
    {
      ghost var h := Hand(Some(token), {c}, None);
      Inc(c, h);
      Lend(token, c, h);
      assert {c} - {c} == {};
    }

    /** A new connection is counted and kept. */
    method AcceptIdle(c: Conn)
      requires Inv(Hand(None, {c}, None)) && c.endpoint in allowed && Arrived(c)
      modifies `idle, `closing, `counted, `counts
      ensures Inv(EMPTY) && (old(Restricted(idle, allowed)) ==> Restricted(idle, allowed))
      ensures if |old(idle)| < size then idle == old(idle) + [c] && closing == old(closing)
              else idle == old(idle) && closing == old(closing) + {c}
    {
      TakeIn(c, true, Hand(None, {c}, None));
      assert {c} - {c} == {};
    }

    method RetryGet(token: Token)
      requires EndpointsGood() && GateGood() && MailGood() && Inv(Hand(Some(token), {}, None))
      modifies `idle, `closing, `counted, `counts, `answers, `lent, `mail, `index, `pending, `dials
      ensures MailGood() && Inv(EMPTY) && old(closing) <= closing
      ensures old(Restricted(idle, allowed)) ==> Restricted(idle, allowed)
      ensures Resumed(token, old(idle), old(answers), old(dials))
    {
      var available := AvailableCount();
      if endpoints == [] || available <= 0 {
        RefuseRetry(token);
      } else {
        GetAgain(token);
      }
    }

    method GetAgain(token: Token)
      requires EndpointsGood() && GateGood() && MailGood() && Inv(Hand(Some(token), {}, None)) && |endpoints| > |unavailable|
      modifies `idle, `closing, `counted, `counts, `answers, `lent, `mail, `index, `pending, `dials
      ensures MailGood() && Inv(EMPTY) && old(closing) <= closing
      ensures old(Restricted(idle, allowed)) ==> Restricted(idle, allowed)
      ensures Resumed(token, old(idle), old(answers), old(dials))
    {
      HandleGet(token);
    }

    method RefuseRetry(token: Token)
      requires MailGood() && Inv(Hand(Some(token), {}, None)) && |endpoints| <= |unavailable|
      modifies `answers
      ensures MailGood() && Inv(EMPTY) && Resumed(token, idle, old(answers), dials)
    {
      Refuse(token, Hand(Some(token), {}, None));
    }

    /** The connection has become idle or is being closed, one of the two. */
    predicate Kept(c: Conn, before: seq<Conn>, closed: set<Conn>)
      reads `idle, `closing
    {
      (idle == before + [c] && closing == closed) || (idle == before && closing == closed + {c})
    }

    /** Takes back a connection, or takes in a new one. */
    method PutConn(c: Conn, broken: bool, isNew: bool, ghost h: Hand)
      requires EndpointsGood() && Inv(h) && c in h.conns && h.token == None && (if isNew then Arrived(c) else c in counted || c in reported)
      modifies `idle, `closing, `blind, `counted, `counts, `pending, `dials, `unavailable
      ensures EndpointsGood() && Inv(h.(conns := h.conns - {c}))
      ensures old(Restricted(idle, allowed)) ==> Restricted(idle, allowed)
      ensures c in idle || c in closing
      ensures c in idle <==> c !in released && c.endpoint in allowed && !broken && c !in aged && |old(idle)| < size
      ensures Kept(c, old(idle), old(closing)) && (c in closing && c !in released ==> c !in counted)
      ensures unavailable == if c !in released && c.endpoint in allowed && broken && |endpoints| > 1 then old(unavailable) + {c.endpoint}
                             else old(unavailable)
      ensures dials == if c !in released && c.endpoint in allowed && !broken && c in aged && !closed
                       then old(dials) + [Dial(c.endpoint, None)] else old(dials)
      ensures blind == if c in released then old(blind) + {c} else old(blind)
      ensures c in released ==> counted == old(counted) && counts == old(counts)
    {
      NotIdle(idle, cmds, gate, lent, h.conns, dialled, closing, reported, c);
      if Read(c) == None {
        CloseBlind(c, h);
      } else {
        PutReadable(c, broken, isNew, h);
      }
    }

    method PutReadable(c: Conn, broken: bool, isNew: bool, ghost h: Hand)
      requires EndpointsGood() && Inv(h) && c in h.conns && h.token == None && (if isNew then Arrived(c) else c in counted || c in reported)
      requires c !in idle && c !in released
      modifies `idle, `closing, `counted, `counts, `pending, `dials, `unavailable
      ensures EndpointsGood() && Inv(h.(conns := h.conns - {c}))
      ensures old(Restricted(idle, allowed)) ==> Restricted(idle, allowed)
      ensures c in idle || c in closing
      ensures c in idle <==> c.endpoint in allowed && !broken && c !in aged && |old(idle)| < size
      ensures Kept(c, old(idle), old(closing)) && (c in closing ==> c !in counted)
      ensures unavailable == if c.endpoint in allowed && broken && |endpoints| > 1 then old(unavailable) + {c.endpoint} else old(unavailable)
      ensures dials == if c.endpoint in allowed && !broken && c in aged && !closed then old(dials) + [Dial(c.endpoint, None)] else old(dials)
    {
      NotClosing(idle, cmds, gate, lent, h.conns, dialled, closing, reported, c);
      if c.endpoint !in allowed {
        CloseCounted(c, Some(c.endpoint), h);
      } else if broken {
        MarkUnavailable(c.endpoint, h);
        CloseCounted(c, Some(c.endpoint), h);
      } else {
        PutWorking(c, isNew, h);
      }
    }

    method PutWorking(c: Conn, isNew: bool, ghost h: Hand)
      requires Inv(h) && c in h.conns && h.token == None && (if isNew then Arrived(c) else c in counted || c in reported)
      requires c !in idle && c !in released && c.endpoint in allowed
      modifies `idle, `closing, `counted, `counts, `pending, `dials
      ensures Inv(h.(conns := h.conns - {c}))
      ensures old(Restricted(idle, allowed)) ==> Restricted(idle, allowed)
      ensures c in idle || c in closing
      ensures c in idle <==> c !in aged && |old(idle)| < size
      ensures Kept(c, old(idle), old(closing)) && (c in closing && c !in old(closing) ==> c !in counted)
      ensures dials == if c in aged && !closed then old(dials) + [Dial(c.endpoint, None)] else old(dials)
    {
      if Expired(c) {
        CloseCounted(c, Some(c.endpoint), h);
        Redial(c.endpoint, h.(conns := h.conns - {c}));
      } else {
        TakeIn(c, isNew, h);
      }
    }

    method TakeIn(c: Conn, isNew: bool, ghost h: Hand)
      requires Inv(h) && c in h.conns && c.endpoint in allowed && (if isNew then Arrived(c) else c in counted || c in reported)
      modifies `idle, `closing, `counted, `counts
      ensures Inv(h.(conns := h.conns - {c}))
      ensures old(Restricted(idle, allowed)) ==> Restricted(idle, allowed)
      ensures if |old(idle)| < size then idle == old(idle) + [c] && closing == old(closing)
              else idle == old(idle) && closing == old(closing) + {c} && c !in counted
    {
      if isNew {
        Inc(c, h);
      }
      StoreIdle(c, c.endpoint, h);
    }

    /** A connection was closed by the other side: it leaves the books and the idle list. Hearing of it
        again changes nothing more. */
    method HandleConnClosed(c: Conn, addr: Option<Addr>, failed: bool)
      requires EndpointsGood() && Inv(EMPTY) && (addr == None || addr == Some(c.endpoint))
      modifies `idle, `counted, `counts, `unavailable, `reported, `early
      ensures EndpointsGood() && Inv(EMPTY)
      ensures old(Restricted(idle, allowed)) ==> Restricted(idle, allowed)
      ensures c !in counted && c !in idle && reported == old(reported) + {c}
      ensures early == if c in resolved then old(early) else old(early) + {c}
      ensures old(c !in counted && c !in idle) && !failed ==>
                idle == old(idle) && counts == old(counts) && counted == old(counted) && unavailable == old(unavailable)
      ensures counts == if c in old(counted) then Lowered(old(counts), c.endpoint) else old(counts)
      ensures unavailable == if failed && addr.Some? && |endpoints| > 1 && addr.value in allowed then old(unavailable) + {addr.value}
                             else old(unavailable)
      ensures forall d :: d != c && d in old(idle) ==> d in idle
    {
      if addr.Some? && failed {
        MarkUnavailable(addr.value, EMPTY);
      }
      Report(c, addr);
      RemoveIdle(c);
    }

    /** The closing of a connection becomes known, and it leaves the books. */
    method Report(c: Conn, addr: Option<Addr>)
      requires Inv(EMPTY) && (addr == None || addr == Some(c.endpoint))
      modifies `counted, `counts, `reported, `early
      ensures Inv(EMPTY) && reported == old(reported) + {c} && counted == old(counted) - {c}
      ensures counts == if c in old(counted) then Lowered(old(counts), c.endpoint) else old(counts)
      ensures early == if c in resolved then old(early) else old(early) + {c}
    {
      CountsForget(counted, counts, c);
      var low := if c in counted then Lowered(counts, if addr == None then counted[c] else addr.value) else counts;
      assert low == if c in counted then Lowered(counts, c.endpoint) else counts;
      Record(c, low);
    }

    method Record(c: Conn, low: map<Addr, nat>)
      requires CountsOk(counted - {c}, low) && Exclusive(idle, cmds, gate, lent, {}, dialled, closing, reported)
      requires CountedOk(idle, cmds, gate, lent, counted, reported)
      requires FateOk(given, closing, reported, idle, cmds, gate, lent, {})
      requires DeadOk(counted, resolved, reported, early, closing, blind, late, closed)
      modifies `counted, `counts, `reported, `early
      ensures CountsOk(counted, counts) && Exclusive(idle, cmds, gate, lent, {}, dialled, closing, reported)
      ensures CountedOk(idle, cmds, gate, lent, counted, reported)
      ensures FateOk(given, closing, reported, idle, cmds, gate, lent, {})
      ensures DeadOk(counted, resolved, reported, early, closing, blind, late, closed)
      ensures reported == old(reported) + {c} && counted == old(counted) - {c} && counts == low
      ensures early == if c in resolved then old(early) else old(early) + {c}
    {
      DeadReport(counted, resolved, reported, early, closing, blind, late, closed, c);
      ExclusiveReport(idle, cmds, gate, lent, {}, dialled, closing, reported, c);
      BooksReport(idle, cmds, gate, lent, counted, reported, given, closing, c);
      early := if c in resolved then early else early + {c};
      counted, counts, reported := counted - {c}, low, reported + {c};
    }

    method RemoveIdle(target: Conn)
      requires Inv(EMPTY) && target in reported
      modifies `idle
      ensures Inv(EMPTY) && target !in idle && (target !in old(idle) ==> idle == old(idle))
      ensures old(Restricted(idle, allowed)) ==> Restricted(idle, allowed)
      ensures forall d :: d in idle <==> d != target && d in old(idle)
    {
      var i := 0;
      while i < |idle|
        invariant i <= |idle| && idle == old(idle)
        invariant forall j :: 0 <= j < i ==> idle[j] != target
      {
        if idle[i] == target {
          var c := TakeIdle(i, EMPTY);
          assert old(idle) == old(idle[..i]) + [c] + old(idle[i + 1..]);
          ExclusiveDrop(idle, cmds, gate, lent, {c}, dialled, closing, reported);
          return;
        }
        i := i + 1;
      }
    }

    /** The set of endpoints is replaced: idle connections to others are closed, and so are those whose
        endpoint can no longer be read. */
    method HandleUpdate(all: seq<Addr>, add: seq<Addr>, del: seq<Addr>)
      requires EndpointsGood() && Inv(EMPTY) && Restricted(idle, allowed)
      modifies `idle, `closing, `counted, `counts, `endpoints, `allowed, `unavailable, `pending, `dials
      ensures EndpointsGood() && Inv(EMPTY) && Restricted(idle, allowed)
      ensures all == [] ==> endpoints == old(endpoints) && allowed == old(allowed) && idle == old(idle)
      ensures all != [] ==> endpoints == all && unavailable == old(unavailable) * allowed
      ensures all != [] && add == [] && del == [] ==>
                && (forall c :: c in idle <==> c in old(idle) && c !in released && c.endpoint in allowed)
                && dials == old(dials) && pending == old(pending)
      ensures all != [] && (add != [] || del != []) ==>
                forall a :: a in Reachable() ==> At(counts, a) + At(pending, a) >= 1
    {
      if all != [] {
        Replace(all);
        if add != [] || del != [] {
          TargetBounds(|counted|, required, perEndpoint, |endpoints| - |unavailable|);
          Rebalance();
        }
      }
    }

    method Replace(all: seq<Addr>)
      requires Inv(EMPTY)
      modifies `idle, `closing, `counted, `counts, `endpoints, `allowed, `unavailable
      ensures EndpointsGood() && Inv(EMPTY) && Restricted(idle, allowed) && endpoints == all && unavailable == old(unavailable) * allowed
      ensures forall c :: c in idle <==> c in old(idle) && c !in released && c.endpoint in allowed
    {
      EndpointsReplaced(all, unavailable);
      endpoints, allowed, unavailable := all, AddrSet(all), unavailable * AddrSet(all);
      RemoveDeleted();
    }

    method RemoveDeleted()
      requires Inv(EMPTY)
      modifies `idle, `closing, `counted, `counts
      ensures Inv(EMPTY) && Restricted(idle, allowed)
      ensures forall c :: c in idle <==> c in old(idle) && c !in released && c.endpoint in allowed
      ensures forall c :: c in old(idle) ==> c in idle || c in closing
    {
      var i := 0;
      while i < |idle|
        invariant i <= |idle| && Inv(EMPTY)
        invariant forall c :: c in idle ==> c in old(idle)
        invariant forall c :: c in old(idle) ==> c in idle || c in closing
        invariant forall c :: c in old(idle) && c !in released && c.endpoint in allowed ==> c in idle
        invariant forall j :: 0 <= j < i ==> idle[j] !in released && idle[j].endpoint in allowed
        decreases |idle| - i
      {
        if idle[i] in released || idle[i].endpoint !in allowed {
          DropIdle(i);
        } else {
          i := i + 1;
        }
      }
    }

    /** Takes an idle connection out and closes it. */
    method DropIdle(i: nat)
      requires Inv(EMPTY) && i < |idle|
      modifies `idle, `closing, `counted, `counts
      ensures Inv(EMPTY) && idle == old(idle[..i] + idle[i + 1..]) && closing == old(closing) + {old(idle[i])}
      ensures forall c :: c in old(idle) <==> c in idle || c == old(idle[i])
      ensures old(idle[i]) !in idle && counted == old(counted) - {old(idle[i])}
      ensures counts == if old(idle[i] in counted) then Lowered(old(counts), old(idle[i]).endpoint) else old(counts)
      ensures old(Restricted(idle, allowed)) ==> Restricted(idle, allowed)
    {
      var c := TakeIdle(i, EMPTY);
      assert old(idle) == old(idle[..i]) + [c] + old(idle[i + 1..]);
      assert {c} - {c} == {} && EMPTY.conns + {c} == {c};
      CloseCounted(c, Read(c), EMPTY.(conns := {c}));
    }

    /** Closes an idle connection and dials a new one. */
    method Renew(i: nat)
      requires Inv(EMPTY) && i < |idle|
      modifies `idle, `closing, `counted, `counts, `pending, `dials
      ensures Inv(EMPTY) && idle == old(idle[..i] + idle[i + 1..])
      ensures old(Restricted(idle, allowed)) ==> Restricted(idle, allowed)
      ensures dials == if !closed && old(idle[i]) !in released then old(dials) + [Dial(old(idle[i]).endpoint, None)] else old(dials)
    {
      var addr := Read(idle[i]);
      DropIdle(i);
      if addr.Some? {
        Redial(addr.value, EMPTY);
      }
    }

    /** Idle connections whose lifetime is over are closed and replaced. */
    method CleanExpired()
      requires Inv(EMPTY)
      modifies `idle, `closing, `counted, `counts, `pending, `dials
      ensures Inv(EMPTY) && (old(Restricted(idle, allowed)) ==> Restricted(idle, allowed))
      ensures forall c :: c in idle <==> c in old(idle) && !Expired(c)
      ensures !closed ==> |dials| == |old(dials)| + |old(idle)| - |idle|
    {
      var i: nat := 0;
      while i < |idle|
        invariant Inv(EMPTY) && (old(Restricted(idle, allowed)) ==> Restricted(idle, allowed))
        invariant Sifted(old(idle), idle, aged - released, i)
        invariant !closed ==> |dials| == |old(dials)| + |old(idle)| - |idle|
        decreases |idle| - i
      {
        i := CleanAt(i, old(idle));
      }
    }

    method CleanAt(i: nat, ghost before: seq<Conn>) returns (next: nat)
      requires Inv(EMPTY) && Sifted(before, idle, aged - released, i) && i < |idle|
      modifies `idle, `closing, `counted, `counts, `pending, `dials
      ensures Inv(EMPTY) && (old(Restricted(idle, allowed)) ==> Restricted(idle, allowed))
      ensures Sifted(before, idle, aged - released, next) && |idle| - next < |old(idle)| - i
      ensures !closed ==> |dials| + |idle| == |old(dials)| + |old(idle)|
      ensures dials == if Expired(old(idle[i])) && !closed then old(dials) + [Dial(old(idle[i]).endpoint, None)] else old(dials)
    {
      SiftedStep(before, idle, aged - released, i);
      if Expired(idle[i]) {
        Renew(i);
        next := i;
      } else {
        next := i + 1;
      }
    }

    /** Unavailable endpoints whose time has come, and that nobody is dialling, are dialled. */
    method Recover(due: set<Addr>) returns (recovered: bool)
      requires Inv(EMPTY)
      modifies `pending, `dials
      ensures Inv(EMPTY)
      ensures recovered <==> exists a :: a in unavailable && a in due && a !in old(pending)
      ensures !recovered ==> pending == old(pending) && dials == old(dials)
      ensures !closed ==> forall a :: a in unavailable && a in due && a !in old(pending) ==> At(pending, a) == 1
      ensures forall a :: a !in unavailable || a !in due || a in old(pending) ==> At(pending, a) == At(old(pending), a)
    {
      var done: set<Addr> := {};
      recovered := false;
      NothingRedialled(pending, due, closed);
      while done < unavailable
        invariant done <= unavailable && Inv(EMPTY)
        invariant Redialled(old(pending), pending, done, due, closed) && (recovered <==> AnyDue(old(pending), done, due))
        invariant !recovered ==> pending == old(pending) && dials == old(dials)
        decreases unavailable - done
      {
        var ep :| ep in unavailable && ep !in done;
        assert old(DialSpots(ep, dials, cmds, lost)) >= 0;
        recovered := RecoverOne(ep, due, recovered, old(pending), done);
        done := done + {ep};
      }
    }

    method RecoverOne(ep: Addr, due: set<Addr>, before: bool, ghost start: map<Addr, nat>, ghost done: set<Addr>)
      returns (recovered: bool)
      requires Inv(EMPTY) && Redialled(start, pending, done, due, closed) && (before <==> AnyDue(start, done, due))
      requires ep !in done && (ep in start ==> start[ep] > 0)
      modifies `pending, `dials
      ensures Inv(EMPTY) && Redialled(start, pending, done + {ep}, due, closed)
      ensures recovered <==> AnyDue(start, done + {ep}, due)
      ensures !recovered ==> !before && pending == old(pending) && dials == old(dials)
    {
      recovered := before;
      assert At(pending, ep) == At(start, ep);
      if At(pending, ep) == 0 && ep in due {
        Redial(ep, EMPTY);
        recovered := true;
      }
    }

    // ----- balancing

    method ConnCount() returns (total: nat)
      requires CountsOk(counted, counts)
      ensures total == |counted|
    {
      var todo := counts.Keys;
      ghost var done: set<Addr> := {};
      total := 0;
      while todo != {}
        invariant done + todo == counts.Keys && done !! todo
        invariant total == |Leading(counted, done)|
        decreases |todo|
      {
        var a :| a in todo;
        LeadingAdd(counted, done, a);
        assert counts[a] == Tally(counted, a);
        total := total + counts[a];
        done, todo := done + {a}, todo - {a};
      }
      LeadingAll(counted, counts);
      assert done == counts.Keys;
    }

    method AvailableCount() returns (n: int)
      requires EndpointsGood()
      ensures n == |endpoints| - |unavailable|
    {
      var todo, marked := unavailable, 0;
      while todo != {}
        invariant todo <= unavailable && marked == |unavailable| - |todo|
        decreases |todo|
      {
        var ep :| ep in todo;
        todo := todo - {ep};
        UnavailableAllowed(endpoints, allowed, unavailable, ep);
        if ep in allowed {
          marked := marked + 1;
        }
      }
      n := |endpoints| - marked;
    }

    method Expected() returns (t: nat)
      requires CountsOk(counted, counts) && EndpointsGood()
      ensures t == Target(|counted|, required, perEndpoint, |endpoints| - |unavailable|)
      ensures IsTarget(|counted|, required, perEndpoint, |endpoints| - |unavailable|, t)
    {
      TargetIsTarget(|counted|, required, perEndpoint, |endpoints| - |unavailable|);
      var current := ConnCount();
      var average := (current + required) / 2;
      var available := AvailableCount();
      if current == 0 || average == 0 || available <= 0 {
        return 1;
      }
      var estimated, shared := current / available, average / available;
      var result := if estimated < perEndpoint then Min(estimated, shared) else Max(perEndpoint, shared);
      t := Max(1, result);
    }

    /** Dials `need` more connections. */
    method DialMore(addr: Addr, need: int)
      requires Inv(EMPTY)
      modifies `pending, `dials
      ensures Inv(EMPTY)
      ensures OnlyAt(old(pending), pending, addr)
      ensures At(pending, addr) == At(old(pending), addr) + if closed || need < 0 then 0 else need
      ensures need <= 0 ==> pending == old(pending) && dials == old(dials)
    {
      var i := 0;
      while i < need
        invariant 0 <= i && (need <= 0 ==> i == 0) && (need > 0 ==> i <= need) && Inv(EMPTY)
        invariant OnlyAt(old(pending), pending, addr)
        invariant At(pending, addr) == At(old(pending), addr) + if closed then 0 else i
        invariant need <= 0 ==> pending == old(pending) && dials == old(dials)
      {
        Redial(addr, EMPTY);
        i := i + 1;
      }
    }

    /** Closes up to `count` idle connections to an endpoint. */
    method RemoveEndpointConn(addr: Addr, count: nat)
      requires Inv(EMPTY) && count < At(counts, addr)
      modifies `idle, `closing, `counted, `counts
      ensures Inv(EMPTY)
      ensures OnlyAt(old(counts), counts, addr)
      ensures At(old(counts), addr) - count <= At(counts, addr) <= At(old(counts), addr)
      ensures Fewer(old(idle), idle) && |old(idle)| - |idle| <= count
      ensures |old(idle)| - |idle| < count ==> forall c :: c in idle ==> c.endpoint != addr || c in released
      ensures forall c :: c in old(idle) && (c.endpoint != addr || c in released) ==> c in idle
      ensures Reduced(addr, At(counts, addr), At(old(counts), addr) - count, old(idle), idle, released, reported)
    {
      var i, removed := 0, 0;
      ghost var gone := false;
      while i < |idle|
        invariant i <= |idle| && removed <= count && |idle| == |old(idle)| - removed && Inv(EMPTY)
        invariant OnlyAt(old(counts), counts, addr)
        invariant At(old(counts), addr) - removed <= At(counts, addr) <= At(old(counts), addr)
        invariant !gone ==> At(counts, addr) == At(old(counts), addr) - removed
        invariant gone ==> exists c :: c in old(idle) && c.endpoint == addr && c in reported
        invariant forall c :: c in idle ==> c in old(idle)
        invariant forall c :: c in old(idle) && (c.endpoint != addr || c in released) ==> c in idle
        invariant removed < count ==> forall j :: 0 <= j < i ==> idle[j].endpoint != addr || idle[j] in released
        decreases |idle| - i
      {
        if Read(idle[i]) == Some(addr) && removed < count {
          gone := gone || idle[i] !in counted;
          DropOneOf(i, addr);
          removed := removed + 1;
        } else {
          i := i + 1;
        }
      }
    }

    /** An idle connection to an endpoint is closed. */
    method DropOneOf(i: nat, addr: Addr)
      requires Inv(EMPTY) && i < |idle| && idle[i].endpoint == addr
      modifies `idle, `closing, `counted, `counts
      ensures Inv(EMPTY) && |idle| == |old(idle)| - 1 && (forall j :: 0 <= j < i ==> idle[j] == old(idle[j]))
      ensures forall c :: c in old(idle) <==> c in idle || c == old(idle[i])
      ensures OnlyAt(old(counts), counts, addr) && (old(idle[i]) in reported || old(idle[i]) in old(counted))
      ensures At(counts, addr) == At(old(counts), addr) - If(old(idle[i]) in old(counted))
    {
      CountedOrReported(i);
      DropIdle(i);
    }

    lemma CountedOrReported(i: nat)
      requires Inv(EMPTY) && i < |idle|
      ensures idle[i] in counted || idle[i] in reported
      ensures idle[i] in counted ==> At(counts, idle[i].endpoint) >= 1
    {
      assert Settled(idle[i], idle, cmds, gate, lent);
      if idle[i] in counted {
        CountsDec(counted, counts, idle[i]);
      }
    }

    /** Where a dial would be started now. */
    function Reachable(): set<Addr>
      reads `allowed, `unavailable, `closed
    {
      if closed then {} else allowed - unavailable
    }

    /** One endpoint that has connections: too few are made up for, too many are reduced. */
    method Adjust(addr: Addr, target: nat)
      requires Inv(EMPTY) && addr in counts && target >= 1
      modifies `idle, `closing, `counted, `counts, `pending, `dials
      ensures Inv(EMPTY) && Fewer(old(idle), idle)
      ensures OnlyAt(old(counts), counts, addr)
      ensures Min(At(old(counts), addr), target) <= At(counts, addr) <= At(old(counts), addr)
      ensures Reduced(addr, At(counts, addr), target, old(idle), idle, released, reported)
      ensures OnlyAt(old(pending), pending, addr)
      ensures At(pending, addr) == RaisedTo(old(counts), old(pending), target, Reachable(), addr)
      ensures old(counts)[addr] == target ==> unchanged(`idle, `closing, `counted, `counts, `pending, `dials)
    {
      var count := counts[addr];
      if count < target {
        if addr in allowed && addr !in unavailable {
          DialMore(addr, target - count - At(pending, addr));
        }
      } else if count > target {
        RemoveEndpointConn(addr, count - target);
      }
    }

    /** An endpoint without connections. */
    method Begin(addr: Addr, target: nat)
      requires Inv(EMPTY) && addr in allowed
      modifies `pending, `dials
      ensures Inv(EMPTY) && OnlyAt(old(pending), pending, addr)
      ensures At(pending, addr) == RaisedTo(map[], old(pending), target, Reachable() - counts.Keys, addr)
      ensures addr in counts ==> pending == old(pending) && dials == old(dials)
    {
      if addr !in counts && addr !in unavailable {
        DialMore(addr, target - At(pending, addr));
      }
    }

    /** Everything is as it was at the start: distinct endpoints, all available, each with its share. */
    ghost predicate Steady()
      reads this
    {
      && endpoints != [] && |endpoints| == |allowed| && unavailable == {} && pending == map[]
      && required == |endpoints| * perEndpoint
      && counts.Keys == allowed && forall a :: a in allowed ==> counts[a] == perEndpoint
    }

    lemma SteadyTarget()
      requires Inv(EMPTY) && Steady()
      ensures Target(|counted|, required, perEndpoint, |endpoints| - |unavailable|) == perEndpoint
    {
      forall a | a in allowed ensures Tally(counted, a) == perEndpoint {
        assert At(counts, a) == Tally(counted, a);
      }
      LeadingEven(counted, allowed, perEndpoint);
      LeadingAll(counted, counts);
      TargetSteady(|allowed|, perEndpoint);
    }

    ghost function CurrentTarget(): (t: nat)
      reads this
      ensures IsTarget(|counted|, required, perEndpoint, |endpoints| - |unavailable|, t)
    {
      TargetIsTarget(|counted|, required, perEndpoint, |endpoints| - |unavailable|);
      Target(|counted|, required, perEndpoint, |endpoints| - |unavailable|)
    }

    /** Brings every endpoint towards the target. Reachable endpoints get dials for exactly what they
        lack, others none; no endpoint is reduced below the target; and a steady pool is left alone. */
    method Rebalance()
      requires EndpointsGood() && Inv(EMPTY) && Restricted(idle, allowed)
      modifies `idle, `closing, `counted, `counts, `pending, `dials
      ensures Inv(EMPTY) && Restricted(idle, allowed)
      ensures Trimmed(old(counts), counts, old(CurrentTarget())) && counts.Keys == old(counts).Keys
      ensures Raised(old(counts), old(pending), pending, old(CurrentTarget()), Reachable(), Reachable())
      ensures forall a :: a in Reachable() ==> At(counts, a) + At(pending, a) >= old(CurrentTarget())
      ensures AllReduced(counts.Keys, counts, old(CurrentTarget()), old(idle), idle, released, reported)
      ensures old(Steady()) ==> unchanged(`idle, `closing, `counted, `counts, `pending, `dials)
    {
      var target := Expected();
      TargetFits();
      RebalanceTo(target);
    }

    lemma TargetFits()
      requires EndpointsGood() && Inv(EMPTY)
      ensures CurrentTarget() >= 1 && (Steady() ==> Exact(counts, CurrentTarget()) && allowed <= counts.Keys)
    {
      TargetBounds(|counted|, required, perEndpoint, |endpoints| - |unavailable|);
      if Steady() {
        SteadyTarget();
      }
    }

    method RebalanceTo(target: nat)
      requires EndpointsGood() && Inv(EMPTY) && Restricted(idle, allowed) && target >= 1
      modifies `idle, `closing, `counted, `counts, `pending, `dials
      ensures Inv(EMPTY) && Restricted(idle, allowed)
      ensures Trimmed(old(counts), counts, target) && counts.Keys == old(counts).Keys
      ensures Raised(old(counts), old(pending), pending, target, Reachable(), Reachable())
      ensures forall a :: a in Reachable() ==> At(counts, a) + At(pending, a) >= target
      ensures AllReduced(counts.Keys, counts, target, old(idle), idle, released, reported)
      ensures old(Exact(counts, target) && allowed <= counts.Keys) ==>
                unchanged(`idle, `closing, `counted, `counts, `pending, `dials)
    {
      AdjustAll(target);
      ghost var between := pending;
      BeginAll(target);
      RaisedBoth(old(counts), counts, old(pending), between, pending, target, Reachable());
      forall a | a in Reachable() ensures At(counts, a) + At(pending, a) >= target {
        Enough(old(counts), counts, old(pending), pending, target, Reachable(), a);
      }
    }

    /** One turn of the loop, on top of what earlier turns did. */
    method AdjustNext(addr: Addr, target: nat, ghost c0: map<Addr, nat>, ghost p0: map<Addr, nat>, ghost i0: seq<Conn>,
                      ghost done: set<Addr>)
      requires Inv(EMPTY) && addr in counts && target >= 1 && addr !in done && At(counts, addr) == At(c0, addr)
      requires Trimmed(c0, counts, target) && Raised(c0, p0, pending, target, done, Reachable())
      requires AllReduced(done, counts, target, i0, idle, released, reported) && Fewer(i0, idle)
      modifies `idle, `closing, `counted, `counts, `pending, `dials
      ensures Inv(EMPTY) && Fewer(i0, idle) && Trimmed(c0, counts, target) && OnlyAt(old(counts), counts, addr)
      ensures Raised(c0, p0, pending, target, done + {addr}, Reachable())
      ensures AllReduced(done + {addr}, counts, target, i0, idle, released, reported)
      ensures old(counts)[addr] == target ==> unchanged(`idle, `closing, `counted, `counts, `pending, `dials)
    {
      Adjust(addr, target);
      TrimmedStep(c0, old(counts), counts, target, addr);
      RaisedStep(c0, old(counts), p0, old(pending), pending, target, done, Reachable(), addr);
      ReducedStep(done, old(counts), counts, target, i0, old(idle), idle, released, reported, addr);
    }

    method BeginNext(addr: Addr, target: nat, ghost p0: map<Addr, nat>, ghost done: set<Addr>)
      requires Inv(EMPTY) && addr in allowed && addr !in done
      requires Raised(map[], p0, pending, target, done, Reachable() - counts.Keys)
      modifies `pending, `dials
      ensures Inv(EMPTY) && Raised(map[], p0, pending, target, done + {addr}, Reachable() - counts.Keys)
      ensures addr in counts ==> pending == old(pending) && dials == old(dials)
    {
      Begin(addr, target);
      RaisedStep(map[], map[], p0, old(pending), pending, target, done, Reachable() - counts.Keys, addr);
    }

    method AdjustAll(target: nat)
      requires EndpointsGood() && Inv(EMPTY) && Restricted(idle, allowed) && target >= 1
      modifies `idle, `closing, `counted, `counts, `pending, `dials
      ensures Inv(EMPTY) && Restricted(idle, allowed)
      ensures Trimmed(old(counts), counts, target) && counts.Keys == old(counts).Keys
      ensures Raised(old(counts), old(pending), pending, target, old(counts).Keys, Reachable())
      ensures AllReduced(counts.Keys, counts, target, old(idle), idle, released, reported)
      ensures old(Exact(counts, target)) ==> unchanged(`idle, `closing, `counted, `counts, `pending, `dials)
    {
      var keys, done: set<Addr> := counts.Keys, {};
      CountsPositive(counted, counts);
      while done < keys
        invariant done <= keys && Inv(EMPTY) && Fewer(old(idle), idle) && Trimmed(old(counts), counts, target)
        invariant forall a :: a in keys && a !in done ==> At(counts, a) == At(old(counts), a)
        invariant Raised(old(counts), old(pending), pending, target, done, Reachable())
        invariant AllReduced(done, counts, target, old(idle), idle, released, reported)
        invariant old(Exact(counts, target)) ==> unchanged(`idle, `closing, `counted, `counts, `pending, `dials)
        decreases keys - done
      {
        var a :| a in keys && a !in done;
        AdjustNext(a, target, old(counts), old(pending), old(idle), done);
        done := done + {a};
      }
      CountsPositive(counted, counts);
      KeysKept(old(counts), counts, target);
      RestrictedFewer(old(idle), idle, allowed);
    }

    method BeginAll(target: nat)
      requires Inv(EMPTY)
      modifies `pending, `dials
      ensures Inv(EMPTY)
      ensures Raised(map[], old(pending), pending, target, Reachable() - counts.Keys, Reachable())
      ensures allowed <= counts.Keys ==> pending == old(pending) && dials == old(dials)
    {
      var done: set<Addr> := {};
      while done < allowed
        invariant done <= allowed && Inv(EMPTY)
        invariant Raised(map[], old(pending), pending, target, done, Reachable() - counts.Keys)
        invariant allowed <= counts.Keys ==> pending == old(pending) && dials == old(dials)
        decreases allowed - done
      {
        var a :| a in allowed && a !in done;
        BeginNext(a, target, old(pending), done);
        done := done + {a};
      }
      assert done * (Reachable() - counts.Keys) == (Reachable() - counts.Keys) * Reachable();
    }

    // ----- closing

    method CloseIdle()
      requires Inv(EMPTY)
      modifies `idle, `closing, `counted, `counts
      ensures Inv(EMPTY) && idle == [] && forall c :: c in old(idle) || c in old(closing) ==> c in closing
    {
      while idle != []
        invariant Inv(EMPTY) && forall c :: c in old(idle) || c in old(closing) ==> c in closing || c in idle
        decreases |idle|
      {
        DropIdle(0);
      }
    }

    /** A dial result that is not settled any more. */
    method LoseDial(addr: Addr, ghost h: Hand)
      requires Inv(h.(dial := Some(addr))) && h.dial == None && closed
      modifies `lost
      ensures Inv(h)
    {
      PendingLost(pending, dials, cmds, lost, addr);
      lost := lost + multiset{addr};
    }

    /** Answers the callers whose commands are still queued, and closes the connections that arrive
        too late. Nothing that passed the gate is left by now, so there is no `Put` among them. */
    method Drain()
      requires GateGood() && DialsGood() && MailGood() && Inv(EMPTY) && stage == Done
      modifies `cmds, `resolved, `answers, `closing, `lost
      ensures GateGood() && DialsGood() && MailGood() && Inv(EMPTY) && cmds == []
    {
      while cmds != []
        invariant MailGood() && GateGood() && DialsGood() && Inv(EMPTY)
        decreases |cmds|
      {
        DrainOne();
      }
    }

    method DrainOne()
      requires GateGood() && DialsGood() && MailGood() && Inv(EMPTY) && stage == Done && cmds != []
      modifies `cmds, `resolved, `answers, `closing, `lost
      ensures GateGood() && DialsGood() && MailGood() && Inv(EMPTY) && cmds == old(cmds[1..])
    {
      assert !Gated(cmds[0]) && cmds[0] != Close;
      var m := Pop();
      DropCmd(m);
    }

    method DropCmd(m: Cmd)
      requires MailGood() && closed && Inv(HandOf(m)) && !Gated(m) && (m.DialResult? ==> Newly(m.dialled))
      modifies `answers, `closing, `lost
      ensures MailGood() && Inv(EMPTY)
    {
      if m.Get? {
        Fail(Some(m.token), HandOf(m));
      } else if m.DialResult? {
        DropResult(m.dialAddr, m.dialled, m.reply);
      }
    }

    method DropResult(addr: Addr, dialled: Dialled, token: Option<Token>)
      requires MailGood() && closed && Inv(HandOf(DialResult(addr, dialled, token)))
      requires dialled.Connected? ==> dialled.conn !in counted
      modifies `answers, `closing, `lost
      ensures MailGood() && Inv(EMPTY) && closing == old(closing) + ConnSet(dialled)
      ensures answers == old(answers) + if token.Some? then [Answer(token.value, Failed, allowed)] else []
    {
      LoseDial(addr, Hand(token, ConnSet(dialled), None));
      CloseAndFail(dialled, token);
    }

    method PopClose()
      requires GateGood() && DialsGood() && MailGood() && Inv(EMPTY) && cmds != [] && cmds[0] == Close
      modifies `cmds, `stage
      ensures GateGood() && DialsGood() && MailGood() && Inv(EMPTY) && cmds == old(cmds[1..]) && stage == Done
    {
      DialsPop(idle, cmds, gate, lent, dialled, closing, reported, resolved);
      assert resolved + {} == resolved;
      ExclusivePop(idle, cmds, gate, lent, {}, dialled, closing, reported);
      TokensPop(issued, cmds, dials, answers, None);
      PendingPop(pending, dials, cmds, lost, closed, None);
      BooksPop(idle, cmds, gate, lent, {}, counted, reported, given, closing);
      GatePop(stage, closed, gate, cmds);
      MailStage(answers, mail, returned, orphans, lent, stage, Done);
      stage := Done;
      cmds := cmds[1..];
    }

    /** The close command: afterwards the pool holds nothing. */
    method HandleClose()
      requires GateGood() && DialsGood() && MailGood() && Inv(EMPTY) && cmds != [] && cmds[0] == Close
      modifies `cmds, `resolved, `stage, `idle, `closing, `counted, `counts, `answers, `lost
      ensures GateGood() && DialsGood() && MailGood() && Inv(EMPTY) && stage == Done && idle == [] && cmds == [] && gate == []
    {
      PopClose();
      CloseIdle();
      Drain();
    }

    // ----- what the callers and the dial goroutines do

    /** A `Get` puts its command into the queue; when the pool is closed it need not. */
    method QueueGet(token: Token)
      requires Valid() && token !in issued
      modifies `cmds, `issued
      ensures Valid() && cmds == old(cmds) + [Get(token)] && issued == old(issued) + {token}
    {
      var m := Get(token);
      TokensIssue(issued, cmds, dials, answers, token);
      issued := issued + {token};
      Push(m, Hand(Some(token), {}, None));
    }

    /** A command that does not pass the gate is queued. */
    method Push(m: Cmd, ghost h: Hand)
      requires GateGood() && Inv(h) && h == HandOf(m) && Truthful(m) && m != Close && (Gated(m) ==> stage == Open || stage == Waiting)
      requires !m.Put? && FateOk(given, closing, reported, idle, cmds, gate, lent, {})
      requires DialsGood() && Result(m) <= dialled && Result(m) !! resolved
      modifies `cmds
      ensures GateGood() && DialsGood() && Inv(EMPTY) && cmds == old(cmds) + [m]
    {
      DialsPush(cmds, resolved, dialled, m);
      ExclusivePush(idle, cmds, gate, lent, dialled, closing, reported, m, h.conns);
      TokensPush(issued, cmds, dials, answers, m, h.token);
      PendingPush(pending, dials, cmds, lost, closed, m, h.dial);
      GatePush(stage, closed, gate, cmds, m);
      BooksPush(idle, cmds, gate, lent, counted, reported, given, closing, m);
      cmds := cmds + [m];
    }

    method QueueUpdate(all: seq<Addr>, add: seq<Addr>, del: seq<Addr>)
      requires Valid()
      modifies `cmds
      ensures Valid() && cmds == if all == [] || closed then old(cmds) else old(cmds) + [Update(all, add, del)]
    {
      if all != [] && !closed {
        Push(Update(all, add, del), EMPTY);
      }
    }

    /** Somebody has the connection: it is neither in the mail nor abandoned there. */
    predicate Holds(c: Conn)
      reads `lent, `mail, `orphans
    {
      c in lent && c !in mail.Values && c !in orphans
    }

    /** A caller takes its reply, and the connection in it. */
    method TakeReply(i: nat)
      requires Valid() && i < |answers| && answers[i].token !in returned
      modifies `mail, `returned
      ensures Valid() && returned == old(returned) + {answers[i].token} && mail == old(mail) - {answers[i].token}
      ensures answers[i].reply.Got? ==> Holds(answers[i].reply.conn)
    {
      var t := answers[i].token;
      MailReceive(answers, mail, returned, orphans, lent, stage, i);
      returned, mail := returned + {t}, mail - {t};
    }

    /** When the pool goroutine has ended a caller may leave without looking at its reply. */
    method Leave(t: Token)
      requires Valid() && stage == Done && t in issued && t !in returned
      modifies `mail, `returned, `orphans
      ensures Valid() && returned == old(returned) + {t} && mail == old(mail) - {t}
      ensures orphans == old(orphans) + if t in old(mail) then {old(mail)[t]} else {}
    {
      Abandon(t);
    }

    method Abandon(t: Token)
      requires MailGood() && stage == Done
      modifies `mail, `returned, `orphans
      ensures MailGood() && returned == old(returned) + {t} && mail == old(mail) - {t}
      ensures orphans == old(orphans) + if t in old(mail) then {old(mail)[t]} else {}
    {
      MailLeave(answers, mail, returned, orphans, lent, t);
      orphans := orphans + if t in mail then {mail[t]} else {};
      returned, mail := returned + {t}, mail - {t};
    }

    /** A connection comes back from its holder. Before closing it enters the gate; afterwards it is closed. */
    method Put(c: Conn, broken: bool)
      requires Valid() && Holds(c)
      modifies `lent, `given, `gate, `closing, `late
      ensures Valid() && lent == old(lent) - {c} && given == old(given) + {c}
      ensures late == if closed then old(late) + {c} else old(late)
      ensures closed ==> gate == old(gate) && closing == old(closing) + {c}
      ensures !closed ==> gate == old(gate) + [Cmd.Put(c, broken)] && closing == old(closing)
    {
      if closed {
        PutClosed(c);
      } else {
        PutOpen(c, broken);
      }
    }

    method PutOpen(c: Conn, broken: bool)
      requires Valid() && Holds(c) && !closed
      modifies `lent, `given, `gate
      ensures Valid() && lent == old(lent) - {c} && given == old(given) + {c}
      ensures gate == old(gate) + [Cmd.Put(c, broken)]
    {
      TakeFromHolder(c);
      Enter(Cmd.Put(c, broken), Hand(None, {c}, None));
    }

    method PutClosed(c: Conn)
      requires Valid() && Holds(c) && closed
      modifies `lent, `given, `closing, `late
      ensures Valid() && lent == old(lent) - {c} && given == old(given) + {c}
      ensures closing == old(closing) + {c} && late == old(late) + {c}
    {
      TakeFromHolder(c);
      CloseReturned(c);
    }

    method CloseReturned(c: Conn)
      requires Inv(Hand(None, {c}, None)) && closed
      modifies `closing, `late
      ensures Inv(EMPTY) && closing == old(closing) + {c} && late == old(late) + {c}
    {
      CloseLate(c, Hand(None, {c}, None));
      assert {c} - {c} == {};
    }

    method TakeFromHolder(c: Conn)
      requires MailGood() && Inv(EMPTY) && Holds(c)
      modifies `lent, `given
      ensures MailGood() && Inv(Hand(None, {c}, None)) && lent == old(lent) - {c} && given == old(given) + {c}
      ensures c in counted || c in reported
    {
      ExclusiveReturn(idle, cmds, gate, lent, {}, dialled, closing, reported, c);
      BooksReturn(idle, cmds, gate, lent, counted, reported, given, closing, c);
      MailReturn(answers, mail, returned, orphans, lent, stage, c);
      assert {} + {c} == {c};
      lent, given := lent - {c}, given + {c};
    }

    method Enter(m: Cmd, ghost h: Hand)
      requires GateGood() && Inv(h) && Gated(m) && Truthful(m) && h == HandOf(m) && !closed
      requires m.Put? ==> m.conn in counted || m.conn in reported
      modifies `gate
      ensures GateGood() && Inv(EMPTY) && gate == old(gate) + [m]
    {
      ExclusiveEnter(idle, cmds, gate, lent, dialled, closing, reported, m, h.conns);
      BooksEnter(idle, cmds, gate, lent, counted, reported, given, closing, m, h.conns);
      gate := gate + [m];
    }

    /** The event loop tells that a connection is closed; it may do so more than once. */
    method OnConnClosed(c: Conn, failed: bool)
      requires Valid()
      modifies `gate
      ensures Valid()
      ensures gate == if closed then old(gate) else old(gate) + [ConnClosed(c, Read(c), failed)]
    {
      if !closed {
        Enter(ConnClosed(c, Read(c), failed), EMPTY);
      }
    }

    /** An admitted operation puts its command into the queue. Once the pool goroutine has ended there is
        none left, so no command is dropped here. */
    method Admit(i: nat)
      requires Valid() && i < |gate|
      modifies `gate, `cmds
      ensures Valid() && stage != Done
      ensures cmds == old(cmds + [gate[i]]) && gate == old(gate[..i] + gate[i + 1..])
    {
      assert Gated(gate[i]);
      PassOn(i);
    }

    method PassOn(i: nat)
      requires GateGood() && DialsGood() && Inv(EMPTY) && i < |gate|
      modifies `gate, `cmds
      ensures GateGood() && DialsGood() && Inv(EMPTY)
      ensures cmds == old(cmds + [gate[i]]) && gate == old(gate[..i] + gate[i + 1..])
    {
      var m := gate[i];
      assert Gated(m);
      DialsPush(cmds, resolved, dialled, m);
      ExclusiveAdmit(idle, cmds, gate, lent, dialled, closing, reported, i);
      BooksAdmit(idle, cmds, gate, lent, counted, reported, given, closing, i);
      TokensPush(issued, cmds, dials, answers, m, None);
      PendingPush(pending, dials, cmds, lost, closed, m, None);
      GateAdmit(stage, closed, gate, cmds, i);
      cmds := cmds + [m];
      gate := gate[..i] + gate[i + 1..];
    }

    /** `Close` shuts the gate, and only once. */
    method BeginClose()
      requires Valid()
      modifies `stage, `closed
      ensures Valid() && closed && stage == if old(stage) == Open then Waiting else old(stage)
    {
      if stage == Open {
        Shut();
      }
    }

    method Shut()
      requires GateGood() && MailGood() && Inv(EMPTY) && stage == Open
      modifies `stage, `closed
      ensures GateGood() && MailGood() && Inv(EMPTY) && closed && stage == Waiting
    {
      MailStage(answers, mail, returned, orphans, lent, stage, Waiting);
      BooksClosed(pending, dials, cmds, lost, counted, resolved, reported, early, closing, blind, late);
      closed := true;
      stage := Waiting;
    }

    /** When everybody admitted before has finished, the close command is queued. */
    method SendClose()
      requires Valid() && stage == Waiting && gate == []
      modifies `stage, `cmds
      ensures Valid() && stage == Sent && cmds == old(cmds) + [Close]
    {
      QueueClose();
    }

    method QueueClose()
      requires GateGood() && DialsGood() && MailGood() && Inv(EMPTY) && stage == Waiting && gate == []
      modifies `stage, `cmds
      ensures GateGood() && DialsGood() && MailGood() && Inv(EMPTY) && stage == Sent && cmds == old(cmds) + [Close]
    {
      DialsPush(cmds, resolved, dialled, Close);
      ExclusivePush(idle, cmds, gate, lent, dialled, closing, reported, Close, {});
      TokensPush(issued, cmds, dials, answers, Close, None);
      PendingPush(pending, dials, cmds, lost, closed, Close, None);
      BooksPush(idle, cmds, gate, lent, counted, reported, given, closing, Close);
      GateSend(closed, gate, cmds);
      MailStage(answers, mail, returned, orphans, lent, stage, Sent);
      stage := Sent;
      cmds := cmds + [Close];
    }

    /** A dial goroutine has its result in the queue. */
    method DialDone(i: nat, result: Dialled)
      requires Valid() && i < |dials|
      requires result.Connected? ==> result.conn !in dialled && result.conn.endpoint == dials[i].addr
      modifies `dials, `cmds, `dialled
      ensures Valid() && dials == old(dials[..i] + dials[i + 1..]) && dialled == old(dialled) + ConnSet(result)
      ensures cmds == old(cmds) + [DialResult(old(dials[i]).addr, result, old(dials[i]).reply)]
    {
      QueueResult(i, result);
    }

    method QueueResult(i: nat, result: Dialled)
      requires GateGood() && DialsGood() && Inv(EMPTY) && i < |dials|
      requires result.Connected? ==> result.conn !in dialled && result.conn.endpoint == dials[i].addr
      modifies `dials, `cmds, `dialled
      ensures GateGood() && DialsGood() && Inv(EMPTY)
      ensures dials == old(dials[..i] + dials[i + 1..]) && dialled == old(dialled) + ConnSet(result)
      ensures cmds == old(cmds) + [DialResult(old(dials[i]).addr, result, old(dials[i]).reply)]
    {
      var m := DialResult(dials[i].addr, result, dials[i].reply);
      EndDial(i, result);
      Push(m, HandOf(m));
    }

    method EndDial(i: nat, result: Dialled)
      requires DialsGood() && Inv(EMPTY) && i < |dials| && (result.Connected? ==> result.conn !in dialled)
      modifies `dials, `dialled
      ensures DialsGood() && ConnSet(result) !! resolved && (result.Connected? ==> result.conn !in counted)
      ensures dials == old(dials[..i] + dials[i + 1..])
      ensures Inv(HandOf(DialResult(old(dials[i]).addr, result, old(dials[i]).reply)))
      ensures FateOk(given, closing, reported, idle, cmds, gate, lent, {}) && dialled == old(dialled) + ConnSet(result)
    {
      ghost var h := Hand(dials[i].reply, {}, Some(dials[i].addr));
      RemoveDial(i);
      Introduce(result, h);
    }

    method RemoveDial(i: nat)
      requires Inv(EMPTY) && i < |dials|
      modifies `dials
      ensures dials == old(dials[..i] + dials[i + 1..]) && Inv(Hand(old(dials[i]).reply, {}, Some(old(dials[i]).addr)))
    {
      TokensEnd(issued, cmds, dials, answers, i);
      PendingEnd(pending, dials, cmds, lost, closed, i);
      dials := dials[..i] + dials[i + 1..];
    }

    method Introduce(result: Dialled, ghost h: Hand)
      requires DialsGood() && Inv(h) && h.conns == {} && (result.Connected? ==> result.conn !in dialled)
      modifies `dialled
      ensures DialsGood() && Inv(h.(conns := ConnSet(result))) && dialled == old(dialled) + ConnSet(result)
      ensures ConnSet(result) !! resolved && (result.Connected? ==> result.conn !in counted)
    {
      if result.Connected? {
        ExclusiveDialled(idle, cmds, gate, lent, {}, dialled, closing, reported, result.conn);
        assert {} + {result.conn} == {result.conn};
        DialsAtOnce(cmds, resolved, dialled, result.conn);
        DeadResolve(counted, resolved, reported, early, closing, blind, late, closed, result.conn);
        dialled := dialled + {result.conn};
      }
    }

    /** A dial goroutine sees that the pool is closed, before or after dialling: it closes what it has and
        tells the waiting caller. */
    method DialAbandoned(i: nat, result: Dialled)
      requires Valid() && i < |dials| && closed && (result.Connected? ==> result.conn !in dialled)
      modifies `dials, `dialled, `answers, `closing, `lost
      ensures Valid() && dials == old(dials[..i] + dials[i + 1..])
      ensures dialled == old(dialled) + ConnSet(result) && closing == old(closing) + ConnSet(result)
      ensures answers == old(answers) + if old(dials[i]).reply.Some? then [Answer(old(dials[i]).reply.value, Failed, allowed)] else []
    {
      DropDial(i, result);
    }

    method DropDial(i: nat, result: Dialled)
      requires MailGood() && DialsGood() && Inv(EMPTY) && i < |dials| && closed
      requires result.Connected? ==> result.conn !in dialled
      modifies `dials, `dialled, `answers, `closing, `lost
      ensures MailGood() && DialsGood() && Inv(EMPTY) && dials == old(dials[..i] + dials[i + 1..])
      ensures dialled == old(dialled) + ConnSet(result) && closing == old(closing) + ConnSet(result)
      ensures answers == old(answers) + if old(dials[i]).reply.Some? then [Answer(old(dials[i]).reply.value, Failed, allowed)] else []
    {
      var d := dials[i];
      EndDial(i, result);
      DropResult(d.addr, result, d.reply);
    }

    /** The event loop releases a connection; its context is gone. */
    method Release(c: Conn)
      requires Valid()
      modifies `released
      ensures Valid() && released == old(released) + {c}
    {
      released := released + {c};
    }

    method Age(c: Conn)
      requires Valid()
      modifies `aged
      ensures Valid() && aged == old(aged) + {c}
    {
      aged := aged + {c};
    }

    // ----- the pool goroutine and whole runs

    /** The pool goroutine handles the next command. */
    method HandleNext()
      requires Valid() && stage != Done && cmds != []
      modifies this
      ensures Valid() && (stage == Done <==> old(cmds[0]) == Close)
    {
      if cmds[0] == Close {
        HandleClose();
      } else {
        HandleOther();
      }
    }

    method HandleOther()
      requires Valid() && stage != Done && cmds != [] && cmds[0] != Close
      modifies this
      ensures Valid() && stage == old(stage)
    {
      var m := Pop();
      Dispatch(m);
    }

    method Dispatch(m: Cmd)
      requires Ready(HandOf(m)) && Truthful(m) && m != Close && (m.Put? ==> m.conn in counted || m.conn in reported)
      requires m.DialResult? ==> Newly(m.dialled)
      modifies this
      ensures Valid() && stage == old(stage)
    {
      match m
      case Get(token) => OnGet(token);
      case Put(c, broken) => OnPut(c, broken);
      case Update(all, add, del) => OnUpdate(all, add, del);
      case ConnClosed(c, addr, failed) => OnClosed(c, addr, failed);
      case DialResult(addr, result, token) => HandleDialResult(addr, result, token);
    }

    method OnGet(token: Token)
      requires Ready(HandOf(Get(token)))
      modifies this
      ensures Valid() && stage == old(stage)
    {
      HandleGet(token);
    }

    method OnPut(c: Conn, broken: bool)
      requires Ready(HandOf(Cmd.Put(c, broken))) && (c in counted || c in reported)
      modifies this
      ensures Valid() && stage == old(stage)
    {
      PutBack(c, broken);
    }

    method PutBack(c: Conn, broken: bool)
      requires EndpointsGood() && Inv(Hand(None, {c}, None)) && (c in counted || c in reported)
      modifies `idle, `closing, `blind, `counted, `counts, `pending, `dials, `unavailable
      ensures EndpointsGood() && Inv(EMPTY) && (old(Restricted(idle, allowed)) ==> Restricted(idle, allowed))
      ensures c in released ==> counted == old(counted) && c in closing && c in blind
    {
      NotIdle(idle, cmds, gate, lent, {c}, dialled, closing, reported, c);
      PutConn(c, broken, false, Hand(None, {c}, None));
      assert {c} - {c} == {};
    }

    method OnUpdate(all: seq<Addr>, add: seq<Addr>, del: seq<Addr>)
      requires Ready(EMPTY)
      modifies this
      ensures Valid() && stage == old(stage)
    {
      HandleUpdate(all, add, del);
    }

    method OnClosed(c: Conn, addr: Option<Addr>, failed: bool)
      requires Ready(EMPTY) && (addr == None || addr == Some(c.endpoint))
      modifies this
      ensures Valid() && stage == old(stage)
    {
      HandleConnClosed(c, addr, failed);
    }

    /** The timers: recovering, balancing and renewing, none of which answers anybody. */
    method Tick(due: set<Addr>)
      requires Valid() && stage != Done
      modifies `idle, `closing, `counted, `counts, `pending, `dials
      ensures Valid()
    {
      var which: nat := *;
      if which == 0 {
        TickRecover(due);
      } else if which == 1 {
        TickRebalance();
      } else {
        TickClean();
      }
    }

    method TickRebalance()
      requires Valid() && stage != Done
      modifies `idle, `closing, `counted, `counts, `pending, `dials
      ensures Valid()
    {
      Rebalance();
    }

    method TickClean()
      requires Valid() && stage != Done
      modifies `idle, `closing, `counted, `counts, `pending, `dials
      ensures Valid()
    {
      CleanExpired();
    }

    method TickRecover(due: set<Addr>)
      requires Valid() && stage != Done
      modifies `idle, `closing, `counted, `counts, `pending, `dials
      ensures Valid()
    {
      RecoverAndBalance(due);
    }

    method RecoverAndBalance(due: set<Addr>)
      requires EndpointsGood() && Inv(EMPTY) && Restricted(idle, allowed)
      modifies `idle, `closing, `counted, `counts, `pending, `dials
      ensures Inv(EMPTY) && Restricted(idle, allowed)
      ensures (forall a :: a in unavailable && a in due ==> a in old(pending)) ==>
                unchanged(`idle, `closing, `counted, `counts, `pending, `dials)
    {
      var recovered := Recover(due);
      if recovered {
        Rebalance();
      }
    }

    /** Nothing that has been lost is found again. */
    twostate predicate LossesStay()
      reads this
    {
      reported == old(reported) && old(orphans) <= orphans && old(cmds) <= cmds
    }

    /** Something happens outside the pool goroutine: a caller, the event loop, a dial goroutine. */
    method CallerStep()
      requires Valid()
      modifies this
      ensures Valid() && (old(stage) == Done ==> stage == Done && LossesStay())
    {
      var which: nat, c: Conn, flag: bool, i: nat := *, *, *, *;
      if which == 0 {
        OnConnClosed(c, flag);
      } else if which == 1 && i < |gate| {
        Admit(i);
      } else if which == 2 {
        BeginClose();
      } else if which == 3 && stage == Waiting && gate == [] {
        SendClose();
      } else if which == 4 {
        HolderStep();
      } else {
        OutsideStep();
      }
    }

    method HolderStep()
      requires Valid()
      modifies this
      ensures Valid() && stage == old(stage) && LossesStay()
    {
      var which: nat, c: Conn, flag: bool, token: Token := *, *, *, *;
      if which == 0 && token !in issued {
        QueueGet(token);
      } else if which == 1 && Holds(c) {
        Put(c, flag);
      } else {
        ReplyStep();
      }
    }

    method ReplyStep()
      requires Valid()
      modifies `mail, `returned, `orphans
      ensures Valid() && LossesStay()
    {
      var token: Token, i: nat, leave: bool := *, *, *;
      if !leave && i < |answers| && answers[i].token !in returned {
        TakeReply(i);
      } else if leave && stage == Done && token in issued && token !in returned {
        Leave(token);
      }
    }

    method OutsideStep()
      requires Valid()
      modifies this
      ensures Valid() && stage == old(stage) && LossesStay()
    {
      var which: nat, c: Conn := *, *;
      var all: seq<Addr>, add: seq<Addr>, del: seq<Addr> := *, *, *;
      if which == 0 {
        QueueUpdate(all, add, del);
      } else if which == 1 {
        Release(c);
      } else if which == 2 {
        Age(c);
      } else {
        DialStep();
      }
    }

    method DialStep()
      requires Valid()
      modifies `dials, `dialled, `answers, `closing, `lost, `cmds
      ensures Valid() && LossesStay()
    {
      var i: nat, result: Dialled, abandon: bool := *, *, *;
      if i < |dials| && (result.Connected? ==> result.conn !in dialled && result.conn.endpoint == dials[i].addr) {
        if closed && abandon {
          DialAbandoned(i, result);
        } else {
          DialDone(i, result);
        }
      }
    }

    /** Any interleaving of callers, dial goroutines, timers and the pool goroutine. What has been leaked
        stays leaked. */
    method Run(steps: nat)
      requires Valid()
      modifies this
      ensures Valid() && (old(stage) == Done ==> stage == Done)
      ensures old(stage) == Done ==> forall c :: old(Leaked(c)) ==> Leaked(c)
    {
      for n := 0 to steps
        invariant Valid() && (old(stage) == Done ==> stage == Done && LossesStay())
      {
        var which: nat, due: set<Addr> := *, *;
        if which == 0 && stage != Done && cmds != [] {
          HandleNext();
        } else if which == 1 && stage != Done {
          Tick(due);
        } else {
          CallerStep();
        }
      }
    }

    // ----- what is leaked

    /** A command that the pool goroutine has yet to handle, or that is about to be queued, carries `c`. */
    predicate Carried(c: Conn)
      reads `cmds, `gate
    {
      (exists i :: 0 <= i < |cmds| && c in ConnsOf(cmds[i])) || (exists i :: 0 <= i < |gate| && c in ConnsOf(gate[i]))
    }

    /** Nobody will ever close `c`: its dial result was queued when nobody read the queue any more, or its
        caller left without its reply. */
    predicate Leaked(c: Conn)
      reads `cmds, `orphans, `reported, `stage
    {
      && c !in reported
      && (c in orphans || (stage == Done && exists i :: 0 <= i < |cmds| && c in ConnsOf(cmds[i])))
    }

    /** A connection that was ever dialled is accounted for, closed or about to be closed, reported closed,
        idle, held, in the mail, or carried by a command that will be handled, if and only if it is not
        leaked in one of the two ways. */
    lemma LeakedExactly(c: Conn)
      requires Valid() && c in dialled
      ensures Leaked(c) <==>
              !(c in closing || c in reported || c in idle || Holds(c) || c in mail.Values || (stage != Done && Carried(c)))
    {
      assert Spots(c, idle, cmds, gate, lent) == 0 ==> c in closing || c in reported;
      SumSource(cmds, ConnsOf, c);
      SumSource(gate, ConnsOf, c);
      assert c in multiset(idle) <==> c in idle;
      MailFacts(answers, mail, returned, orphans, lent, stage);
    }

    /** A pool with one endpoint, which a caller waits for. */
    static method Asked() returns (pool: ConnPool)
      ensures fresh(pool) && pool.Valid() && pool.stage == Open && pool.gate == [] && pool.cmds == [Get(0)]
      ensures pool.idle == [] && pool.dials == [] && pool.answers == [] && pool.issued == {0} && pool.returned == {}
      ensures pool.allowed == {0} && pool.unavailable == {} && pool.dialled == {} && pool.reported == {}
    {
      pool := new ConnPool([0], 1, 1);
      pool.QueueGet(0);
    }

    static method StartedDial() returns (pool: ConnPool)
      ensures fresh(pool) && pool.Valid() && pool.stage == Open && pool.gate == [] && pool.cmds == []
      ensures pool.dials == [Dial(0, Some(0))] && pool.answers == [] && pool.issued == {0} && pool.returned == {}
      ensures pool.allowed == {0} && pool.dialled == {} && pool.reported == {}
    {
      pool := Asked();
      pool.ServeOne(0);
    }

    /** The only command is a `Get`, and there is nothing to give: a dial is started. */
    method ServeOne(token: Token)
      requires Valid() && !closed && cmds == [Get(token)] && idle == [] && dials == [] && allowed == {0} && unavailable == {}
      modifies `cmds, `resolved, `idle, `closing, `counted, `counts, `answers, `lent, `mail, `index, `pending, `dials
      ensures Valid() && cmds == [] && dials == [Dial(0, Some(token))] && answers == old(answers)
    {
      var m := Pop();
      DialOne(token);
    }

    method DialOne(token: Token)
      requires Ready(Hand(Some(token), {}, None)) && !closed && idle == [] && dials == [] && allowed == {0} && unavailable == {}
      modifies `idle, `closing, `counted, `counts, `answers, `lent, `mail, `index, `pending, `dials
      ensures Ready(EMPTY) && dials == [Dial(0, Some(token))] && answers == old(answers)
    {
      HandleOpenGet(token);
      assert allowed - unavailable == {0};
    }

    /** The first way: a dial goroutine that has seen the pool open queues its result when the close command
        has been handled. */
    static method LateResultLeaks() returns (pool: ConnPool, c: Conn)
      ensures fresh(pool) && pool.Valid() && pool.stage == Done && c in pool.dialled && pool.Leaked(c)
    {
      pool := ClosedWhileDialling();
      c := Conn(0, 0);
      pool.DialDone(0, Connected(c));
      assert c in ConnsOf(pool.cmds[0]);
    }

    static method ClosedWhileDialling() returns (pool: ConnPool)
      ensures fresh(pool) && pool.Valid() && pool.stage == Done && pool.cmds == [] && pool.dials == [Dial(0, Some(0))]
      ensures pool.dialled == {} && pool.reported == {}
    {
      pool := StartedDial();
      pool.CloseNow();
    }

    static method ResultQueued() returns (pool: ConnPool, c: Conn)
      ensures fresh(pool) && pool.Valid() && pool.stage == Open && pool.gate == [] && pool.answers == []
      ensures pool.cmds == [DialResult(c.endpoint, Connected(c), Some(0))] && c.endpoint in pool.allowed
      ensures pool.issued == {0} && pool.returned == {} && c in pool.dialled && pool.reported == {}
    {
      pool := StartedDial();
      c := Conn(0, 0);
      pool.DialDone(0, Connected(c));
    }

    static method Answered() returns (pool: ConnPool, c: Conn)
      ensures fresh(pool) && pool.Valid() && pool.stage == Open && pool.gate == [] && pool.cmds == []
      ensures pool.issued == {0} && pool.returned == {} && c in pool.dialled && pool.reported == {}
      ensures 0 in pool.mail && pool.mail[0] == c && c in pool.counted
      ensures |pool.answers| == 1 && pool.answers[0].token == 0 && pool.answers[0].reply == Got(c)
    {
      pool, c := ResultQueued();
      pool.AnswerOne(c, 0);
    }

    /** The only command is the result of a dial, and it answers a caller. */
    method AnswerOne(c: Conn, token: Token)
      requires Valid() && !closed && cmds == [DialResult(c.endpoint, Connected(c), Some(token))] && c.endpoint in allowed
      modifies `cmds, `resolved, `pending, `counted, `counts, `answers, `lent, `mail
      ensures Valid() && cmds == [] && token in mail && mail[token] == c && c in counted
      ensures answers == old(answers) + [Answer(token, Got(c), allowed)]
    {
      PopResult(c, token);
      AcceptOne(c, token);
    }

    method PopResult(c: Conn, token: Token)
      requires Valid() && !closed && cmds == [DialResult(c.endpoint, Connected(c), Some(token))]
      modifies `cmds, `resolved, `pending
      ensures Ready(Hand(Some(token), {c}, None)) && cmds == [] && Arrived(c)
    {
      PopAndSettle(c, token);
    }

    method PopAndSettle(c: Conn, token: Token)
      requires GateGood() && DialsGood() && Inv(EMPTY) && cmds == [DialResult(c.endpoint, Connected(c), Some(token))]
      modifies `cmds, `resolved, `pending
      ensures GateGood() && DialsGood() && Inv(Hand(Some(token), {c}, None)) && cmds == [] && Arrived(c)
    {
      var m := Pop();
      SettleDial(c.endpoint, Hand(Some(token), {c}, None));
    }

    method AcceptOne(c: Conn, token: Token)
      requires Ready(Hand(Some(token), {c}, None)) && c.endpoint in allowed && Arrived(c)
      modifies `counted, `counts, `answers, `lent, `mail
      ensures Valid() && token in mail && mail[token] == c && c in counted
      ensures answers == old(answers) + [Answer(token, Got(c), allowed)]
    {
      AcceptFor(c, token);
    }

    /** The second way: a caller whose reply holds a connection sees first that the pool is closed. */
    static method LostReplyLeaks() returns (pool: ConnPool, c: Conn)
      ensures fresh(pool) && pool.Valid() && pool.stage == Done && c in pool.dialled && pool.Leaked(c)
    {
      pool, c := Answered();
      pool.CloseNow();
      pool.Leave(0);
    }

    /** Nobody is at the gate: the pool is closed without delay. */
    method CloseNow()
      requires Valid() && stage == Open && gate == [] && cmds == []
      modifies `closed, `cmds, `resolved, `stage, `idle, `closing, `counted, `counts, `answers, `lost
      ensures Valid() && stage == Done && cmds == []
    {
      BeginClose();
      SendClose();
      HandleClose();
    }

    // ----- dead connections in the books

    /** A caller holds the only connection. */
    static method HeldByCaller() returns (pool: ConnPool, c: Conn)
      ensures fresh(pool) && pool.Valid() && pool.stage == Open && pool.gate == [] && pool.cmds == []
      ensures pool.Holds(c) && c in pool.counted
    {
      pool, c := Answered();
      pool.TakeReply(0);
    }

    /** The first way: the connection is released while it is held, and cannot be read when it comes back. */
    static method UnreadableStaysCounted() returns (pool: ConnPool, c: Conn)
      ensures fresh(pool) && pool.Valid() && !pool.closed && c in pool.counted && c in pool.closing && c in pool.blind
    {
      pool, c := HeldByCaller();
      pool.GiveBack(c);
      pool.TakeBack(c);
    }

    method GiveBack(c: Conn)
      requires Valid() && stage == Open && gate == [] && cmds == [] && Holds(c)
      modifies `released, `lent, `given, `gate, `closing, `late, `cmds
      ensures Valid() && cmds == [Cmd.Put(c, false)] && c in released
    {
      Release(c);
      PutThrough(c);
    }

    method PutThrough(c: Conn)
      requires Valid() && stage == Open && gate == [] && cmds == [] && Holds(c)
      modifies `lent, `given, `gate, `closing, `late, `cmds
      ensures Valid() && cmds == [Cmd.Put(c, false)]
    {
      Put(c, false);
      Admit(0);
    }

    /** The only command brings back a connection that cannot be read. */
    method TakeBack(c: Conn)
      requires Valid() && stage == Open && cmds == [Cmd.Put(c, false)] && c in released && c in counted
      modifies `cmds, `resolved, `idle, `closing, `blind, `counted, `counts, `pending, `dials, `unavailable
      ensures Valid() && c in counted && c in closing && c in blind
    {
      PopPut(c);
      PutBackOne(c);
    }

    method PopPut(c: Conn)
      requires Valid() && stage == Open && cmds == [Cmd.Put(c, false)]
      modifies `cmds, `resolved
      ensures Ready(Hand(None, {c}, None)) && cmds == [] && (c in counted || c in reported)
    {
      var m := Pop();
    }

    method PutBackOne(c: Conn)
      requires Ready(Hand(None, {c}, None)) && c in released && c in counted
      modifies `idle, `closing, `blind, `counted, `counts, `pending, `dials, `unavailable
      ensures Valid() && c in counted && c in closing && c in blind
    {
      PutBack(c, false);
    }

    /** The second way: the other side closes the connection at once, and the report overtakes the dial result. */
    static method ReportedEarlyIsCounted() returns (pool: ConnPool, c: Conn)
      ensures fresh(pool) && pool.Valid() && !pool.closed && c in pool.counted && c in pool.reported && c in pool.early
    {
      pool := StartedDial();
      c := Conn(0, 0);
      pool.CloseThenConnect(c, 0);
    }

    method CloseThenConnect(c: Conn, token: Token)
      requires Valid() && stage == Open && gate == [] && cmds == [] && dials == [Dial(c.endpoint, Some(token))]
      requires c !in dialled && c.endpoint in allowed
      modifies `gate, `cmds, `resolved, `idle, `counted, `counts, `unavailable, `reported, `early, `dials, `dialled, `pending,
               `answers, `lent, `mail
      ensures Valid() && c in counted && c in reported && c in early
    {
      CloseAndHear(c);
      Connect(c, token);
    }

    method CloseAndHear(c: Conn)
      requires Valid() && stage == Open && gate == [] && cmds == [] && c !in dialled
      modifies `gate, `cmds, `resolved, `idle, `counted, `counts, `unavailable, `reported, `early
      ensures Valid() && cmds == [] && c in reported && c in early
    {
      CloseFromOutside(c);
      HearOf(c);
    }

    method CloseFromOutside(c: Conn)
      requires Valid() && stage == Open && gate == [] && cmds == []
      modifies `gate, `cmds
      ensures Valid() && gate == [] && |cmds| == 1 && cmds[0].ConnClosed? && cmds[0].closedConn == c && !cmds[0].failed
    {
      OnConnClosed(c, false);
      Admit(0);
    }

    method Connect(c: Conn, token: Token)
      requires Valid() && stage == Open && cmds == [] && dials == [Dial(c.endpoint, Some(token))]
      requires c !in dialled && c.endpoint in allowed
      modifies `dials, `dialled, `cmds, `resolved, `pending, `counted, `counts, `answers, `lent, `mail
      ensures Valid() && c in counted
    {
      DialDone(0, Connected(c));
      AnswerOne(c, token);
    }

    /** The only command reports the closing of a connection whose dial result has not been seen. */
    method HearOf(c: Conn)
      requires Valid() && stage == Open && |cmds| == 1 && cmds[0].ConnClosed? && cmds[0].closedConn == c
      requires !cmds[0].failed && c !in dialled
      modifies `cmds, `resolved, `idle, `counted, `counts, `unavailable, `reported, `early
      ensures Valid() && cmds == [] && c in reported && c in early
    {
      assert In(c, resolved) <==> c in resolved;
      var addr := PopReport();
      Hear(c, addr);
    }

    method PopReport() returns (addr: Option<Addr>)
      requires Valid() && stage == Open && |cmds| == 1 && cmds[0].ConnClosed?
      modifies `cmds, `resolved
      ensures Ready(EMPTY) && cmds == [] && resolved == old(resolved) && addr == old(cmds[0]).addr
      ensures addr == None || addr == Some(old(cmds[0]).closedConn.endpoint)
    {
      var m := Pop();
      addr := m.addr;
    }

    method Hear(c: Conn, addr: Option<Addr>)
      requires Ready(EMPTY) && c !in resolved && (addr == None || addr == Some(c.endpoint))
      modifies `idle, `counted, `counts, `unavailable, `reported, `early
      ensures Valid() && c in reported && c in early
    {
      HandleConnClosed(c, addr, false);
    }

    /** The third way: the connection comes back after closing has begun. */
    static method ReturnedLateStaysCounted() returns (pool: ConnPool, c: Conn)
      ensures fresh(pool) && pool.Valid() && pool.closed && c in pool.counted && c in pool.closing && c in pool.late
    {
      pool, c := HeldByCaller();
      pool.BeginClose();
      pool.Put(c, false);
    }

    // ----- what this means in every state of every run

    /** No `Get` is answered twice, and one that has been answered is nowhere else. */
    lemma AnsweredOnce(i: nat, j: nat)
      requires Valid() && i < j < |answers|
      ensures answers[i].token != answers[j].token
    {
      var t := answers[i].token;
      assert TokenSpots(t, cmds, dials, answers) == If(t in issued);
      if answers[j].token == t {
        SumTwice(answers, i, j, AnswerTokens, t);
      }
    }

    /** Until it is answered, a `Get` is in the queue or with a dial. */
    lemma NotLost(t: Token)
      requires Valid() && t in issued && forall i :: 0 <= i < |answers| ==> answers[i].token != t
      ensures (exists i :: 0 <= i < |cmds| && t in TokensOf(cmds[i])) || (exists i :: 0 <= i < |dials| && dials[i].reply == Some(t))
    {
      assert TokenSpots(t, cmds, dials, answers) == 1;
      SumSource(answers, AnswerTokens, t);
      SumSource(cmds, TokensOf, t);
      SumSource(dials, DialTokens, t);
    }

    /** Nobody holds an idle connection, and none is in the idle list twice. */
    lemma IdleApart()
      requires Valid()
      ensures Distinct(idle) && |idle| <= size && forall c :: c in idle ==> c !in lent && c !in closing
    {
      forall c | c in idle ensures c !in lent && c !in closing && multiset(idle)[c] == 1 {
        assert c in multiset(idle);
        assert Spots(c, idle, cmds, gate, lent) == 1;
      }
      OnceEach(idle);
    }

    /** While the pool is open, the books of pending dials are exact. */
    lemma PendingExact(a: Addr)
      requires Valid() && !closed
      ensures At(pending, a) == Sum(dials, DialAddrs)[a] + Sum(cmds, DialsOf)[a]
    {
      assert At(pending, a) == DialSpots(a, dials, cmds, lost);
    }

    /** After closing, nothing that was given back is left behind: it is closed or about to be, the
        event loop has reported it closed, or it has been handed out again. */
    lemma NothingLeftBehind(c: Conn)
      requires Valid() && stage == Done && c in given
      ensures c in closing || c in reported || c in lent
      ensures idle == [] && gate == [] && Quiet(cmds)
    {
      assert In(c, given);
    }

    /** A connection in the books has had its dial result handled. Its closing has been reported if and only if
        that was before its dial result was handled, and the pool has closed it if and only if it came back
        unreadable, or after closing had begun. Otherwise it is on its way, idle or handed out. */
    lemma CountedDead(c: Conn)
      requires Valid() && c in counted
      ensures forall i :: 0 <= i < |cmds| ==> c !in Result(cmds[i])
      ensures c in reported <==> c in early
      ensures c in closing <==> c in blind || c in late
      ensures !closed ==> (c in closing <==> c in blind)
      ensures c in early || c in blind || c in late || c in idle || c in lent || Carried(c)
    {
      assert InMap(c, counted);
      assert In(c, resolved);
      assert In(c, late) <==> c in late;
      assert !Announced(c, cmds);
      assert Spots(c, idle, cmds, gate, lent) == 0 ==> c in closing || c in reported;
      SumSource(cmds, ConnsOf, c);
      SumSource(gate, ConnsOf, c);
      assert c in multiset(idle) <==> c in idle;
    }
  }

  /** Going round once visits every position. */
  lemma Reached(start: nat, n: nat, j: nat) returns (k: nat)
    requires j < n
    ensures start <= k < start + n && k % n == j
  {
    var r := start % n;
    k := start - r + j;
    var q := start / n;
    assert start == q * n + r;
    if j < r {
      k := k + n;
      assert k == (q + 1) * n + j;
      ModUnique(k, n, q + 1, j);
    } else {
      assert k == q * n + j;
      ModUnique(k, n, q, j);
    }
  }

  lemma ModUnique(k: nat, n: nat, q: nat, j: nat)
    requires j < n && k == q * n + j
    ensures k % n == j
  {
    var p, r := k / n, k % n;
    assert k == p * n + r && 0 <= r < n;
    assert (p - q) * n == p * n - q * n;
    Grows(n, p - q);
  }

  lemma Grows(n: nat, d: int)
    ensures d >= 1 ==> d * n >= n
    ensures d <= -1 ==> d * n <= 0 - n
  {
    if d >= 1 {
      assert d * n == n + (d - 1) * n;
    } else if d <= -1 {
      assert d * n == (d + 1) * n - n;
    }
  }
}
