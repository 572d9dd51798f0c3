/** The text format of protocol V1: one log record per line, its name before the first bar. */
module Text {
  import opened Common
  import opened Framer

  const NEWLINE: byte := 10
  const BAR: byte := 124

  datatype Message = Message(name: Bytes, payload: Bytes)

  datatype ParseResult = Messages(ms: seq<Message>) | NoMessages

  /** Index of the first `b` in `s`, or -1. */
  function Index(s: Bytes, b: byte): (i: int)
    ensures i == -1 ==> b !in s
    ensures i != -1 ==> 0 <= i < |s| && s[i] == b && b !in s[..i]
  {
    if s == [] then -1
    else if s[0] == b then 0
    else
      var i := Index(s[1..], b);
      if i == -1 then -1
      else
        assert s[..i + 1] == [s[0]] + s[1..][..i];
        i + 1
  }

  /** `bytes.Split` at newlines. */
  function Split(raw: Bytes): (lines: seq<Bytes>)
    ensures |lines| >= 1
    decreases |raw|
  {
    var i := Index(raw, NEWLINE);
    if i == -1 then [raw] else [raw[..i]] + Split(raw[i + 1..])
  }

  /** The messages in some lines; a line without a name is skipped. */
  function FromLines(lines: seq<Bytes>): seq<Message> {
    if lines == [] then []
    else
      var i := Index(lines[0], BAR);
      (if i <= 0 then [] else [Message(lines[0][..i], lines[0] + [NEWLINE])]) + FromLines(lines[1..])
  }

  /** `ParseMessages`. */
  function Parse(raw: Bytes): ParseResult {
    var ms := FromLines(Split(raw));
    if ms == [] then NoMessages else Messages(ms)
  }

  predicate NonEmpty(ms: seq<Message>) {
    forall i :: 0 <= i < |ms| ==> ms[i].payload != []
  }

  /** A payload with its newline. */
  function Terminated(payload: Bytes): Bytes
    requires payload != []
  {
    if payload[|payload| - 1] == NEWLINE then payload else payload + [NEWLINE]
  }

  /** `EncodeV1`; an empty payload makes it panic. */
  function EncodeV1(ms: seq<Message>): Bytes
    requires NonEmpty(ms)
  {
    if ms == [] then [] else Terminated(ms[0].payload) + EncodeV1(ms[1..])
  }

  // ----- which messages come out

  /** The text before the first bar of the line is `name`, and there is some. */
  predicate Names(line: Bytes, name: Bytes) {
    name != [] && BAR !in name && name + [BAR] <= line
  }

  predicate HasName(line: Bytes) {
    exists n :: 0 <= n <= |line| && Names(line, line[..n])
  }

  /** `at` lists the lines with a name, in order, and no others. */
  ghost predicate ListsNamed(lines: seq<Bytes>, at: seq<nat>) {
    && (forall j, k :: 0 <= j < k < |at| ==> at[j] < at[k])
    && (forall k :: 0 <= k < |at| ==> at[k] < |lines|)
    && (forall n :: 0 <= n < |lines| ==> (HasName(lines[n]) <==> n in at))
  }

  /** The messages are those of the listed lines, one by one. */
  ghost predicate Gives(lines: seq<Bytes>, at: seq<nat>, ms: seq<Message>) {
    && |ms| == |at|
    && forall k :: 0 <= k < |at| ==>
         at[k] < |lines| && Names(lines[at[k]], ms[k].name) && ms[k].payload == lines[at[k]] + [NEWLINE]
  }

  lemma NameIsFirst(line: Bytes)
    ensures HasName(line) <==> Index(line, BAR) > 0
    ensures Index(line, BAR) > 0 ==> Names(line, line[..Index(line, BAR)])
  {
    var i := Index(line, BAR);
    if i > 0 {
      assert line[..i] + [BAR] == line[..i + 1];
    }
    forall n | 0 <= n <= |line| && Names(line, line[..n]) ensures i == n {
      assert line[n] == (line[..n] + [BAR])[n];
      FirstIndex(line, BAR, n);
    }
  }

  lemma {:induction false} FromLinesLists(lines: seq<Bytes>) returns (at: seq<nat>)
    ensures ListsNamed(lines, at) && Gives(lines, at, FromLines(lines))
  {
    if lines == [] {
      at := [];
    } else {
      var rest := FromLinesLists(lines[1..]);
      var next := seq(|rest|, k requires 0 <= k < |rest| => rest[k] + 1);
      NameIsFirst(lines[0]);
      at := if HasName(lines[0]) then [0] + next else next;
      OneMoreLine(lines, rest, next, at);
      OneMoreMessage(lines, rest, next, at);
    }
  }

  lemma OneMoreMessage(lines: seq<Bytes>, rest: seq<nat>, next: seq<nat>, at: seq<nat>)
    requires lines != [] && Gives(lines[1..], rest, FromLines(lines[1..])) && |next| == |rest|
    requires forall k :: 0 <= k < |rest| ==> next[k] == rest[k] + 1
    requires at == if HasName(lines[0]) then [0] + next else next
    ensures Gives(lines, at, FromLines(lines))
  {
    var i, tail := Index(lines[0], BAR), FromLines(lines[1..]);
    NameIsFirst(lines[0]);
    GivesLater(lines, rest, next, tail);
    if i > 0 {
      GivesFirst(lines, next, tail, Message(lines[0][..i], lines[0] + [NEWLINE]));
    } else {
      assert [] + tail == tail;
    }
  }

  lemma GivesLater(lines: seq<Bytes>, rest: seq<nat>, next: seq<nat>, ms: seq<Message>)
    requires lines != [] && Gives(lines[1..], rest, ms) && |next| == |rest|
    requires forall k :: 0 <= k < |rest| ==> next[k] == rest[k] + 1
    ensures Gives(lines, next, ms)
  {
    forall k | 0 <= k < |next|
      ensures next[k] < |lines| && Names(lines[next[k]], ms[k].name) && ms[k].payload == lines[next[k]] + [NEWLINE]
    {
      assert rest[k] < |lines[1..]| && lines[next[k]] == lines[1..][rest[k]];
    }
  }

  lemma GivesFirst(lines: seq<Bytes>, next: seq<nat>, ms: seq<Message>, m: Message)
    requires lines != [] && Gives(lines, next, ms) && Names(lines[0], m.name) && m.payload == lines[0] + [NEWLINE]
    ensures Gives(lines, [0] + next, [m] + ms)
  {
  }

  lemma OneMoreLine(lines: seq<Bytes>, rest: seq<nat>, next: seq<nat>, at: seq<nat>)
    requires lines != [] && ListsNamed(lines[1..], rest) && |next| == |rest|
    requires forall k :: 0 <= k < |rest| ==> next[k] == rest[k] + 1
    requires at == if HasName(lines[0]) then [0] + next else next
    ensures ListsNamed(lines, at)
  {
    forall n | 0 <= n < |lines| ensures HasName(lines[n]) <==> n in at {
      NextLine(rest, next, n);
      if n > 0 {
        assert lines[n] == lines[1..][n - 1];
      }
    }
  }

  lemma NextLine(rest: seq<nat>, next: seq<nat>, n: nat)
    requires |next| == |rest| && forall k :: 0 <= k < |rest| ==> next[k] == rest[k] + 1
    ensures n in next <==> n > 0 && n - 1 in rest
  {
    if n > 0 && n - 1 in rest {
      var k :| 0 <= k < |rest| && rest[k] == n - 1;
      assert next[k] == n;
    }
  }

  /** Parsing skips exactly the lines without a name, and takes the others in order. */
  lemma ParseLists(raw: Bytes) returns (at: seq<nat>)
    ensures ListsNamed(Split(raw), at) && Parsed(Split(raw), at, Parse(raw))
  {
    at := FromLinesLists(Split(raw));
  }

  ghost predicate Parsed(lines: seq<Bytes>, at: seq<nat>, r: ParseResult) {
    if at == [] then r == NoMessages else r.Messages? && Gives(lines, at, r.ms)
  }

  // ----- what the lines are

  function JoinLines(lines: seq<Bytes>): Bytes
    requires |lines| >= 1
  {
    if |lines| == 1 then lines[0] else lines[0] + [NEWLINE] + JoinLines(lines[1..])
  }

  predicate NoNewlines(lines: seq<Bytes>) {
    forall i :: 0 <= i < |lines| ==> NEWLINE !in lines[i]
  }

  lemma LineInFront(line: Bytes, lines: seq<Bytes>)
    requires |lines| >= 1
    ensures JoinLines([line] + lines) == line + [NEWLINE] + JoinLines(lines)
    ensures NEWLINE !in line && NoNewlines(lines) ==> NoNewlines([line] + lines)
  {
    assert ([line] + lines)[1..] == lines;
  }

  lemma CutAt(raw: Bytes, i: nat)
    requires i < |raw| && raw[i] == NEWLINE
    ensures raw == raw[..i] + [NEWLINE] + raw[i + 1..]
  {
  }

  /** Joined with newlines the lines are the text again, and none contains a newline. */
  lemma {:induction false} SplitInvertsJoin(raw: Bytes)
    ensures JoinLines(Split(raw)) == raw && NoNewlines(Split(raw))
    decreases |raw|
  {
    var i := Index(raw, NEWLINE);
    if i != -1 {
      SplitInvertsJoin(raw[i + 1..]);
      LineInFront(raw[..i], Split(raw[i + 1..]));
      CutAt(raw, i);
    }
  }

  /** No other lines do that. */
  lemma {:induction false} JoinInvertsSplit(lines: seq<Bytes>)
    requires |lines| >= 1 && NoNewlines(lines)
    ensures Split(JoinLines(lines)) == lines
  {
    if |lines| > 1 {
      JoinInvertsSplit(lines[1..]);
      SplitLine(lines[0], JoinLines(lines[1..]));
    }
  }

  // ----- the loops of the source

  method ParseMessages(raw: Bytes) returns (r: ParseResult)
    ensures r == Parse(raw)
    ensures exists at :: ListsNamed(Split(raw), at) && Parsed(Split(raw), at, r)
  {
    var output := CollectMessages(Split(raw));
    r := if |output| == 0 then NoMessages else Messages(output);
    ghost var at := ParseLists(raw);
  }

  lemma FromLinesStep(lines: seq<Bytes>, n: nat, output: seq<Message>)
    requires n < |lines|
    ensures var i := Index(lines[n], BAR);
            output + FromLines(lines[n..]) ==
            (if i > 0 then output + [Message(lines[n][..i], lines[n] + [NEWLINE])] else output) + FromLines(lines[n + 1..])
  {
    assert lines[n..][1..] == lines[n + 1..];
  }

  method CollectMessages(lines: seq<Bytes>) returns (output: seq<Message>)
    ensures output == FromLines(lines)
  {
    output := [];
    var n := 0;
    while n < |lines|
      invariant 0 <= n <= |lines|
      invariant output + FromLines(lines[n..]) == FromLines(lines)
    {
      var line := lines[n];
      var index := Index(line, BAR);
      FromLinesStep(lines, n, output);
      if index > 0 {
        output := output + [Message(line[..index], line + [NEWLINE])];
      }
      n := n + 1;
    }
  }

  lemma EncodeStep(ms: seq<Message>, i: nat)
    requires NonEmpty(ms) && i < |ms|
    ensures EncodeV1(ms[i..]) == Terminated(ms[i].payload) + EncodeV1(ms[i + 1..])
  {
    assert ms[i..][1..] == ms[i + 1..];
  }

  method EncodeMessage(buffer: Bytes, payload: Bytes) returns (bb: Bytes)
    requires payload != []
    ensures bb == buffer + Terminated(payload)
  {
    bb := buffer + payload;
    if payload[|payload| - 1] != NEWLINE {
      bb := bb + [NEWLINE];
    }
  }

  method EncodeMessages(ms: seq<Message>, buffer: Bytes) returns (bb: Bytes)
    requires NonEmpty(ms)
    ensures bb == buffer + EncodeV1(ms)
  {
    bb := buffer;
    var i := 0;
    while i < |ms|
      invariant 0 <= i <= |ms|
      invariant bb + EncodeV1(ms[i..]) == buffer + EncodeV1(ms)
    {
      ghost var before := bb;
      EncodeStep(ms, i);
      bb := EncodeMessage(bb, ms[i].payload);
      WrittenSoFar(before, ms[i].payload, EncodeV1(ms[i + 1..]));
      i := i + 1;
    }
    assert ms[i..] == [];
  }

  lemma WrittenSoFar(before: Bytes, payload: Bytes, rest: Bytes)
    requires payload != []
    ensures before + (Terminated(payload) + rest) == before + Terminated(payload) + rest
  {
  }

  // ----- round trips

  /** A message whose name is the text before its first bar and whose payload is one line. */
  predicate OneRecord(m: Message) {
    && m.name != [] && m.payload != []
    && Index(m.payload, BAR) == |m.name| && m.payload[..|m.name|] == m.name
    && NEWLINE !in m.payload[..|m.payload| - 1]
  }

  predicate AllRecords(ms: seq<Message>)
    ensures AllRecords(ms) ==> NonEmpty(ms)
  {
    forall i :: 0 <= i < |ms| ==> OneRecord(ms[i])
  }

  function Normal(m: Message): Message
    requires m.payload != []
  {
    Message(m.name, Terminated(m.payload))
  }

  function NormalAll(ms: seq<Message>): seq<Message>
    requires AllRecords(ms)
  {
    seq(|ms|, i requires 0 <= i < |ms| => Normal(ms[i]))
  }

  lemma {:induction false} IndexOfConcat(a: Bytes, rest: Bytes, b: byte)
    requires b !in a
    ensures Index(a + [b] + rest, b) == |a|
  {
    if a != [] {
      assert (a + [b] + rest)[1..] == a[1..] + [b] + rest;
      IndexOfConcat(a[1..], rest, b);
    }
  }

  lemma SplitLine(line: Bytes, rest: Bytes)
    requires NEWLINE !in line
    ensures Split(line + [NEWLINE] + rest) == [line] + Split(rest)
  {
    var raw := line + [NEWLINE] + rest;
    IndexOfConcat(line, rest, NEWLINE);
    assert raw[..|line|] == line && raw[|line| + 1..] == rest;
  }

  /** The line of a record, without its newline. */
  function Line(m: Message): Bytes
    requires m.payload != []
  {
    Terminated(m.payload)[..|Terminated(m.payload)| - 1]
  }

  lemma RecordLine(m: Message)
    requires OneRecord(m)
    ensures NEWLINE !in Line(m) && Terminated(m.payload) == Line(m) + [NEWLINE]
    ensures Index(Line(m), BAR) == |m.name| && Line(m)[..|m.name|] == m.name
  {
    var t := Terminated(m.payload);
    assert t[|t| - 1] == NEWLINE;
    var k := |m.name|;
    assert m.payload[k] == BAR;
    if m.payload[|m.payload| - 1] == NEWLINE {
      assert Line(m) == m.payload[..|m.payload| - 1];
    } else {
      assert Line(m) == m.payload;
      assert m.payload == m.payload[..|m.payload| - 1] + [m.payload[|m.payload| - 1]];
    }
    assert Line(m)[k] == BAR && BAR !in Line(m)[..k] by {
      assert Line(m)[..k] == m.payload[..k];
    }
    FirstIndex(Line(m), BAR, k);
  }

  lemma FirstIndex(s: Bytes, b: byte, k: nat)
    requires k < |s| && s[k] == b && b !in s[..k]
    ensures Index(s, b) == k
  {
    assert s == s[..k] + [b] + s[k + 1..];
    IndexOfConcat(s[..k], s[k + 1..], b);
  }

  lemma LineOfRecord(m: Message, rest: Bytes)
    requires OneRecord(m)
    ensures FromLines(Split(Terminated(m.payload) + rest)) == [Normal(m)] + FromLines(Split(rest))
  {
    RecordLine(m);
    SplitLine(Line(m), rest);
    assert ([Line(m)] + Split(rest))[1..] == Split(rest);
  }

  lemma NormalHead(ms: seq<Message>)
    requires AllRecords(ms) && ms != []
    ensures NormalAll(ms) == [Normal(ms[0])] + NormalAll(ms[1..])
  {
  }

  /** Encoding records and parsing the text gives the records back, each with its newline. */
  lemma {:induction false} LinesOfRecords(ms: seq<Message>)
    requires AllRecords(ms)
    ensures FromLines(Split(EncodeV1(ms))) == NormalAll(ms)
  {
    if ms != [] {
      var rest := EncodeV1(ms[1..]);
      LinesOfRecords(ms[1..]);
      LineOfRecord(ms[0], rest);
      assert EncodeV1(ms) == Terminated(ms[0].payload) + rest;
      NormalHead(ms);
    }
  }

  lemma ParseInvertsEncode(ms: seq<Message>)
    requires ms != [] && AllRecords(ms)
    ensures Parse(EncodeV1(ms)) == Messages(NormalAll(ms))
  {
    LinesOfRecords(ms);
  }

  lemma {:induction false} FromLinesAreRecords(lines: seq<Bytes>)
    requires NoNewlines(lines)
    ensures var ms := FromLines(lines); AllRecords(ms) && NormalAll(ms) == ms
  {
    if lines != [] {
      var i, rest := Index(lines[0], BAR), FromLines(lines[1..]);
      FromLinesAreRecords(lines[1..]);
      if i > 0 {
        LineIsRecord(lines[0]);
        OneMoreRecord(Message(lines[0][..i], lines[0] + [NEWLINE]), rest);
      } else {
        assert [] + rest == rest;
      }
    }
  }

  lemma OneMoreRecord(m: Message, ms: seq<Message>)
    requires OneRecord(m) && Normal(m) == m && AllRecords(ms) && NormalAll(ms) == ms
    ensures AllRecords([m] + ms) && NormalAll([m] + ms) == [m] + ms
  {
    forall i | 0 <= i < |[m] + ms| ensures OneRecord(([m] + ms)[i]) && Normal(([m] + ms)[i]) == ([m] + ms)[i] {
      if i > 0 {
        assert ([m] + ms)[i] == ms[i - 1] && Normal(ms[i - 1]) == NormalAll(ms)[i - 1];
      }
    }
  }

  lemma LineIsRecord(line: Bytes)
    requires NEWLINE !in line && Index(line, BAR) > 0
    ensures var m := Message(line[..Index(line, BAR)], line + [NEWLINE]); OneRecord(m) && Normal(m) == m
  {
    var i := Index(line, BAR);
    var m := Message(line[..i], line + [NEWLINE]);
    assert m.payload[..i] == line[..i];
    FirstIndex(m.payload, BAR, i);
    assert m.payload[..|m.payload| - 1] == line;
  }

  /** What has been parsed survives being encoded and parsed again, for every input. */
  lemma ReparseIsIdentity(raw: Bytes)
    requires Parse(raw).Messages?
    ensures NonEmpty(Parse(raw).ms)
    ensures Parse(EncodeV1(Parse(raw).ms)) == Parse(raw)
  {
    var ms := Parse(raw).ms;
    SplitInvertsJoin(raw);
    FromLinesAreRecords(Split(raw));
    ParseInvertsEncode(ms);
    assert NormalAll(ms) == ms;
  }

  // ----- how long a datagram becomes

  function PayloadSize(ms: seq<Message>): nat {
    if ms == [] then 0 else |ms[0].payload| + PayloadSize(ms[1..])
  }

  /** Messages that lack their newline. */
  function Unterminated(ms: seq<Message>): nat
    requires NonEmpty(ms)
  {
    if ms == [] then 0
    else (if ms[0].payload[|ms[0].payload| - 1] == NEWLINE then 0 else 1) + Unterminated(ms[1..])
  }

  lemma {:induction false} EncodedLength(ms: seq<Message>)
    requires NonEmpty(ms)
    ensures |EncodeV1(ms)| == PayloadSize(ms) + Unterminated(ms)
  {
    if ms != [] {
      EncodedLength(ms[1..]);
    }
  }

  predicate AllTerminated(ms: seq<Message>)
    requires NonEmpty(ms)
  {
    forall i :: 0 <= i < |ms| ==> ms[i].payload[|ms[i].payload| - 1] == NEWLINE
  }

  lemma {:induction false} UnterminatedBound(ms: seq<Message>)
    requires NonEmpty(ms)
    ensures Unterminated(ms) <= |ms|
    ensures Unterminated(ms) == 0 <==> AllTerminated(ms)
  {
    if ms != [] {
      UnterminatedBound(ms[1..]);
      assert forall i :: 1 <= i < |ms| ==> ms[i] == ms[1..][i - 1];
    }
  }

  lemma {:induction false} PayloadSizeAppend(ms: seq<Message>, m: Message)
    ensures PayloadSize(ms + [m]) == PayloadSize(ms) + |m.payload|
  {
    if ms == [] {
      assert [] + [m] == [m];
    } else {
      PayloadSizeAppend(ms[1..], m);
      assert (ms + [m])[1..] == ms[1..] + [m];
    }
  }

  /** One record of the largest admitted size, without a newline, already exceeds the limit. */
  lemma DatagramTooLong() returns (ms: seq<Message>)
    ensures |ms| == 1 && OneRecord(ms[0]) && PayloadSize(ms) == MAX_UDP_REQ_SIZE_V1
    ensures |EncodeV1(ms)| == MAX_UDP_REQ_SIZE_V1 + 1
  {
    var payload: Bytes := [65, BAR] + seq(MAX_UDP_REQ_SIZE_V1 - 2, _ => 66);
    var m := Message([65], payload);
    assert payload[1] == BAR && payload[..1] == [65];
    FirstIndex(payload, BAR, 1);
    ms := [m];
    assert payload[|payload| - 1] == 66;
    EncodedLength(ms);
    assert ms[1..] == [];
  }
}
