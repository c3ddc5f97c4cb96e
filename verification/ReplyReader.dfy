/** Reading replies of an FTP server, of one line or of many (section 4.2 of RFC 959), with a
    cache of one reply. */
module ReplyReader {
  import opened Operations

  const MAX_FTP_MULTILINE_RESPONSE_LINES: nat := 10000

  /** What the connection delivers: a line without its end, or no line. */
  datatype Received = Line(text: string) | Nothing

  // ---------- codes ----------

  predicate IsDigit(c: char) {
    '0' <= c <= '9'
  }

  function Digits(s: string, value: nat): nat {
    if s == "" || !IsDigit(s[0]) then value else Digits(s[1..], 10 * value + (s[0] - '0') as nat)
  }

  /** The library conversion: blanks, a sign, digits. */
  function Atoi(s: string): int {
    if s == "" then 0
    else if s[0] == ' ' || '\t' <= s[0] <= '\r' then Atoi(s[1..])
    else if s[0] == '-' then -(Digits(s[1..], 0) as int)
    else if s[0] == '+' then Digits(s[1..], 0)
    else Digits(s, 0)
  }

  function Code(line: string): int {
    Atoi(if |line| > 3 then line[..3] else line)
  }

  predicate OpensMultiLine(line: string) {
    |line| > 3 && line[3] == '-'
  }

  /** The code of the opening line followed by a blank. */
  predicate Ends(opening: string, line: string)
    requires |opening| > 3
  {
    opening[..3] + " " <= line
  }

  // ---------- one reply ----------

  datatype Outcome = Complete | NoReply | Broken | TooLong

  datatype Reading = Reading(outcome: Outcome, code: int, lines: seq<string>, rest: seq<Received>)

  /** The rest of a reply of many lines; `lines` are those received so far. */
  function Gathered(lines: seq<string>, rest: seq<Received>): (r: Reading)
    requires lines != [] && OpensMultiLine(lines[0])
    ensures r.outcome != NoReply && r.code == if r.outcome == TooLong then 0 else Code(lines[0])
    decreases |rest|
  {
    var last := lines[|lines| - 1];
    if Ends(lines[0], last) then Reading(Complete, Code(lines[0]), lines, rest)
    else if |lines| >= MAX_FTP_MULTILINE_RESPONSE_LINES then Reading(TooLong, 0, lines, rest)
    else if rest == [] || rest[0].Nothing? then
      Reading(Broken, Code(lines[0]), lines + [last], if rest == [] then [] else rest[1..])
    else Gathered(lines + [rest[0].text], rest[1..])
  }

  function Read(incoming: seq<Received>): Reading {
    if incoming == [] then Reading(NoReply, 0, [], [])
    else if incoming[0].Nothing? then Reading(NoReply, 0, [], incoming[1..])
    else
      var line := incoming[0].text;
      if OpensMultiLine(line) then Gathered([line], incoming[1..])
      else Reading(Complete, Code(line), [line], incoming[1..])
  }

  // ---------- well-formed replies ----------

  /** One line, or an opening line, lines that do not end the reply, and one that does; no
      more than the client is willing to read. */
  ghost predicate IsReply(lines: seq<string>) {
    && lines != []
    && if !OpensMultiLine(lines[0]) then |lines| == 1
       else
         && 1 < |lines| <= MAX_FTP_MULTILINE_RESPONSE_LINES && Ends(lines[0], lines[|lines| - 1])
         && forall i :: 0 <= i < |lines| - 1 ==> !Ends(lines[0], lines[i])
  }

  function Sent(lines: seq<string>): seq<Received> {
    seq(|lines|, i requires 0 <= i < |lines| => Line(lines[i]))
  }

  lemma {:induction false} GatherReply(lines: seq<string>, n: nat, rest: seq<Received>)
    requires IsReply(lines) && OpensMultiLine(lines[0]) && 0 < n <= |lines|
    ensures Gathered(lines[..n], Sent(lines[n..]) + rest) == Reading(Complete, Code(lines[0]), lines, rest)
    decreases |lines| - n
  {
    var front, incoming := lines[..n], Sent(lines[n..]) + rest;
    assert front[n - 1] == lines[n - 1];
    if n < |lines| {
      assert incoming[0] == Line(lines[n]);
      assert incoming[1..] == Sent(lines[n + 1..]) + rest;
      assert front + [lines[n]] == lines[..n + 1];
      GatherReply(lines, n + 1, rest);
    } else {
      assert front == lines && incoming == rest;
    }
  }

  /** A reply at the start of the stream is read to its end and no further. */
  lemma ReadsReply(lines: seq<string>, rest: seq<Received>)
    requires IsReply(lines)
    ensures Read(Sent(lines) + rest) == Reading(Complete, Code(lines[0]), lines, rest)
  {
    var incoming := Sent(lines) + rest;
    assert incoming[0] == Line(lines[0]);
    if OpensMultiLine(lines[0]) {
      assert incoming[1..] == Sent(lines[1..]) + rest;
      assert lines[..1] == [lines[0]];
      GatherReply(lines, 1, rest);
    } else {
      assert incoming[1..] == rest;
    }
  }

  // ---------- the replies of the standard ----------

  /** The number that three digits write. */
  function Number(code: string): nat
    requires |code| == 3 && IsDigit(code[0]) && IsDigit(code[1]) && IsDigit(code[2])
  {
    100 * (code[0] - '0') as nat + 10 * (code[1] - '0') as nat + (code[2] - '0') as nat
  }

  predicate IsCode(code: string) {
    |code| == 3 && IsDigit(code[0]) && IsDigit(code[1]) && IsDigit(code[2])
  }

  lemma CodeIsNumber(code: string, tail: string)
    requires IsCode(code)
    ensures Code(code + tail) == Number(code)
  {
    assert tail == "" ==> code + tail == code;
    assert tail != "" ==> (code + tail)[..3] == code;
    DigitsOfCode(code);
  }

  lemma OneDigit(c: char, rest: string, value: nat)
    requires IsDigit(c)
    ensures Digits([c] + rest, value) == Digits(rest, 10 * value + (c - '0') as nat)
  {
    assert ([c] + rest)[1..] == rest;
  }

  lemma DigitsOfCode(code: string)
    requires IsCode(code)
    ensures Digits(code, 0) == Number(code)
  {
    var one, two := code[1..], code[2..];
    assert code == [code[0]] + one && one == [code[1]] + two && two == [code[2]] + "";
    OneDigit(code[0], one, 0);
    OneDigit(code[1], two, (code[0] - '0') as nat);
    OneDigit(code[2], "", 10 * (code[0] - '0') as nat + (code[1] - '0') as nat);
    assert Digits("", Number(code)) == Number(code);
  }

  /** A reply as the standard writes it: one line that starts with the code and a blank, or a
      first line that starts with the code and a hyphen, and a last line, the only one, that
      starts with the code and a blank. */
  ghost predicate IsStandardReply(lines: seq<string>, code: string) {
    && IsCode(code) && 0 < |lines| <= MAX_FTP_MULTILINE_RESPONSE_LINES
    && code + " " <= lines[|lines| - 1]
    && (|lines| > 1 ==> code + "-" <= lines[0])
    && forall i :: 0 <= i < |lines| - 1 ==> !(code + " " <= lines[i])
  }

  lemma StartOfLine(line: string, code: string, mark: char)
    requires |code| == 3 && code + [mark] <= line
    ensures |line| > 3 && line[..3] == code && line[3] == mark && line == code + line[3..]
  {
    assert (code + [mark])[3] == mark;
    assert line[..3] == (code + [mark])[..3] == code;
  }

  /** Whatever follows it, a reply of the standard is read completely, with its code. */
  lemma ReadsStandardReply(lines: seq<string>, code: string, rest: seq<Received>)
    requires IsStandardReply(lines, code)
    ensures Read(Sent(lines) + rest) == Reading(Complete, Number(code), lines, rest)
  {
    var mark := if |lines| > 1 then '-' else ' ';
    StartOfLine(lines[0], code, mark);
    CodeIsNumber(code, lines[0][3..]);
    assert code + " " == lines[0][..3] + " ";
    ReadsReply(lines, rest);
  }

  lemma OpeningDoesNotEnd(opening: string)
    requires OpensMultiLine(opening)
    ensures !Ends(opening, opening)
  {
    assert (opening[..3] + " ")[3] == ' ';
  }

  /** The lines of a reply of many lines of which none is the last one. */
  ghost predicate IsUnended(lines: seq<string>) {
    && lines != [] && OpensMultiLine(lines[0])
    && forall i :: 0 <= i < |lines| ==> !Ends(lines[0], lines[i])
  }

  /** Nothing more is received: a receive fails or the stream has ended. */
  predicate Stops(rest: seq<Received>) {
    rest == [] || rest[0].Nothing?
  }

  /** What an outcome says of the lines received and of what follows them. */
  ghost predicate Explains(r: Reading, received: seq<string>, rest: seq<Received>) {
    match r.outcome
    case NoReply => received == [] && r.lines == [] && Stops(rest)
    case Complete => IsReply(received) && r.lines == received && r.rest == rest
    case TooLong => IsUnended(received) && |received| == MAX_FTP_MULTILINE_RESPONSE_LINES && r.lines == received && r.rest == rest
    case Broken =>
      && IsUnended(received) && |received| < MAX_FTP_MULTILINE_RESPONSE_LINES && Stops(rest)
      && r.lines == received + [received[|received| - 1]] && r.rest == if rest == [] then [] else rest[1..]
  }

  /** The lines that a gathering received, and what it left or failed at. */
  lemma {:induction false} GatheredWasSent(lines: seq<string>, incoming: seq<Received>)
    returns (received: seq<string>, rest: seq<Received>)
    requires lines != [] && OpensMultiLine(lines[0]) && |lines| <= MAX_FTP_MULTILINE_RESPONSE_LINES
    requires forall i :: 0 <= i < |lines| - 1 ==> !Ends(lines[0], lines[i])
    ensures Sent(lines) + incoming == Sent(received) + rest
    ensures Explains(Gathered(lines, incoming), received, rest)
    decreases |incoming|
  {
    received, rest := lines, incoming;
    var last := lines[|lines| - 1];
    if Ends(lines[0], last) {
      OpeningDoesNotEnd(lines[0]);
    } else if |lines| < MAX_FTP_MULTILINE_RESPONSE_LINES && !Stops(incoming) {
      received, rest := GatheredWasSent(lines + [incoming[0].text], incoming[1..]);
      assert Sent(lines + [incoming[0].text]) + incoming[1..] == Sent(lines) + incoming;
    }
  }

  lemma ReadWasSent(incoming: seq<Received>) returns (received: seq<string>, rest: seq<Received>)
    ensures incoming == Sent(received) + rest
    ensures Explains(Read(incoming), received, rest)
    ensures Read(incoming).outcome.NoReply? ==> Read(incoming).rest == if rest == [] then [] else rest[1..]
  {
    if Stops(incoming) {
      received, rest := [], incoming;
    } else {
      var line := incoming[0].text;
      assert incoming == Sent([line]) + incoming[1..];
      if OpensMultiLine(line) {
        received, rest := GatheredWasSent([line], incoming[1..]);
      } else {
        received, rest := [line], incoming[1..];
      }
    }
  }

  // ---------- which streams end how ----------

  ghost predicate StartsWithReply(incoming: seq<Received>) {
    exists lines, rest :: IsReply(lines) && incoming == Sent(lines) + rest
  }

  /** An opening line and perhaps more, none of them the last, and then nothing. */
  ghost predicate BreaksOff(incoming: seq<Received>) {
    exists lines, rest ::
      IsUnended(lines) && |lines| < MAX_FTP_MULTILINE_RESPONSE_LINES && Stops(rest) && incoming == Sent(lines) + rest
  }

  ghost predicate RunsOn(incoming: seq<Received>) {
    exists lines, rest ::
      IsUnended(lines) && |lines| == MAX_FTP_MULTILINE_RESPONSE_LINES && incoming == Sent(lines) + rest
  }

  /** Gathering lines none of which ends the reply, up to line `n`. */
  lemma {:induction false} GatherUnended(lines: seq<string>, n: nat, rest: seq<Received>)
    requires IsUnended(lines) && 0 < n <= |lines| <= MAX_FTP_MULTILINE_RESPONSE_LINES
    ensures Gathered(lines[..n], Sent(lines[n..]) + rest) == Gathered(lines, rest)
    decreases |lines| - n
  {
    var front, incoming := lines[..n], Sent(lines[n..]) + rest;
    assert front[n - 1] == lines[n - 1];
    if n < |lines| {
      assert incoming[0] == Line(lines[n]);
      assert incoming[1..] == Sent(lines[n + 1..]) + rest;
      assert front + [lines[n]] == lines[..n + 1];
      GatherUnended(lines, n + 1, rest);
    } else {
      assert front == lines && incoming == rest;
    }
  }

  lemma ReadsUnended(lines: seq<string>, rest: seq<Received>)
    requires IsUnended(lines) && |lines| <= MAX_FTP_MULTILINE_RESPONSE_LINES
    ensures Read(Sent(lines) + rest) == Gathered(lines, rest)
  {
    var incoming := Sent(lines) + rest;
    assert incoming[0] == Line(lines[0]);
    assert incoming[1..] == Sent(lines[1..]) + rest;
    assert lines[..1] == [lines[0]];
    GatherUnended(lines, 1, rest);
  }

  /** How a reading ends is decided by the stream, whatever it holds. */
  lemma OutcomeOfStream(incoming: seq<Received>)
    ensures Read(incoming).outcome == Complete <==> StartsWithReply(incoming)
    ensures Read(incoming).outcome == NoReply <==> Stops(incoming)
    ensures Read(incoming).outcome == Broken <==> BreaksOff(incoming)
    ensures Read(incoming).outcome == TooLong <==> RunsOn(incoming)
  {
    var received, rest := ReadWasSent(incoming);
    if lines, tail :| IsReply(lines) && incoming == Sent(lines) + tail {
      ReadsReply(lines, tail);
    }
    if lines, tail :|
      IsUnended(lines) && |lines| < MAX_FTP_MULTILINE_RESPONSE_LINES && Stops(tail) && incoming == Sent(lines) + tail
    {
      ReadsUnended(lines, tail);
    }
    if lines, tail :|
      IsUnended(lines) && |lines| == MAX_FTP_MULTILINE_RESPONSE_LINES && incoming == Sent(lines) + tail
    {
      ReadsUnended(lines, tail);
    }
  }

  // ---------- what is stored ----------

  function Texts(s: seq<Received>): seq<string> {
    if s == [] then []
    else (if s[0].Line? then [s[0].text] else []) + Texts(s[1..])
  }

  /** The lines taken from the stream. */
  function Consumed(incoming: seq<Received>, rest: seq<Received>): seq<string>
    requires |rest| <= |incoming|
  {
    Texts(incoming[..|incoming| - |rest|])
  }

  lemma {:induction false} TextsOfSent(lines: seq<string>, more: seq<Received>)
    ensures Texts(Sent(lines) + more) == lines + Texts(more)
  {
    if lines == [] {
      assert Sent(lines) + more == more;
    } else {
      assert (Sent(lines) + more)[1..] == Sent(lines[1..]) + more;
      TextsOfSent(lines[1..], more);
      assert lines == [lines[0]] + lines[1..];
    }
  }

  lemma ConsumedAre(received: seq<string>, more: seq<Received>, rest: seq<Received>)
    requires Texts(more) == []
    ensures Consumed(Sent(received) + (more + rest), rest) == received
  {
    var incoming := Sent(received) + (more + rest);
    assert incoming[..|incoming| - |rest|] == Sent(received) + more;
    TextsOfSent(received, more);
  }

  /** The lines taken from the stream, by outcome. */
  lemma ConsumedExplained(r: Reading, received: seq<string>, rest: seq<Received>)
    requires Explains(r, received, rest) && (r.outcome.NoReply? ==> r.rest == if rest == [] then [] else rest[1..])
    ensures |r.rest| <= |Sent(received) + rest| && Consumed(Sent(received) + rest, r.rest) == received
  {
    var failed := (r.outcome == Broken || r.outcome == NoReply) && rest != [];
    var more := if failed then [Nothing] else [];
    assert rest == more + r.rest;
    assert Texts(more) == [] by {
      assert failed ==> more[1..] == [];
    }
    ConsumedAre(received, more, r.rest);
  }

  /** The lines that are stored are the lines that were received, exactly when the stream does
      not break off within a reply; then the last line is stored twice. A missing and an
      overlong reply are stored as received. */
  lemma StoredLinesAreReceived(incoming: seq<Received>)
    ensures var r := Read(incoming);
      && |r.rest| <= |incoming|
      && (r.lines == Consumed(incoming, r.rest) <==> !BreaksOff(incoming))
      && (BreaksOff(incoming) ==> |r.lines| > 1 && r.lines == Consumed(incoming, r.rest) + [r.lines[|r.lines| - 2]])
  {
    var r := Read(incoming);
    var received, rest := ReadWasSent(incoming);
    BrokenExactly(incoming);
    ConsumedExplained(r, received, rest);
  }

  lemma BrokenExactly(incoming: seq<Received>)
    ensures Read(incoming).outcome == Broken <==> BreaksOff(incoming)
  {
    OutcomeOfStream(incoming);
  }

  // ---------- the client ----------

  /** The stream, the lines and the code of the last reply, and whether it is to be given
      again. */
  datatype Client = Client(incoming: seq<Received>, lines: seq<string>, code: int, cached: bool)

  function Peeked(c: Client): Client {
    var r := Read(c.incoming);
    Client(r.rest, r.lines, r.code, r.outcome != TooLong)
  }

  function Got(c: Client): Client {
    (if c.cached then c else Peeked(c)).(cached := false)
  }

  function AllSent(replies: seq<seq<string>>): seq<Received> {
    if replies == [] then [] else Sent(replies[0]) + AllSent(replies[1..])
  }

  ghost predicate AreReplies(replies: seq<seq<string>>) {
    forall i :: 0 <= i < |replies| ==> IsReply(replies[i])
  }

  /** Peeking reads one reply; getting it afterwards reads nothing and gives the same. */
  lemma GetAfterPeek(c: Client, lines: seq<string>, rest: seq<Received>)
    requires IsReply(lines) && c.incoming == Sent(lines) + rest
    ensures Peeked(c) == Client(rest, lines, Code(lines[0]), true)
    ensures Got(Peeked(c)) == Client(rest, lines, Code(lines[0]), false)
    ensures !c.cached ==> Got(c) == Got(Peeked(c))
  {
    ReadsReply(lines, rest);
  }

  // ---------- gets and peeks in any order ----------

  datatype Call = Get | Peek

  /** What a get gives: a code and the stored lines. */
  datatype Gotten = Gotten(code: int, lines: seq<string>)

  function Sends(reply: seq<string>): Gotten {
    Gotten(if reply == [] then 0 else Code(reply[0]), reply)
  }

  /** What the gets among the calls give. */
  function Gets(c: Client, calls: seq<Call>): seq<Gotten>
    decreases |calls|
  {
    if calls == [] then []
    else
      match calls[0]
      case Peek => Gets(Peeked(c), calls[1..])
      case Get => [Gotten(Got(c).code, Got(c).lines)] + Gets(Got(c), calls[1..])
  }

  /** Which replies the gets give, when `next` is the first one not read and `cached` tells
      that the one before it is to be given again. */
  function Given(calls: seq<Call>, next: nat, cached: bool): seq<int>
    decreases |calls|
  {
    if calls == [] then []
    else
      match calls[0]
      case Peek => Given(calls[1..], next + 1, true)
      case Get => [Due(next, cached)] + Given(calls[1..], Due(next, cached) + 1, false)
  }

  function Due(next: nat, cached: bool): (i: nat) {
    if cached && next > 0 then next - 1 else next
  }

  /** The client has read the first `next` replies. */
  ghost predicate IsAt(c: Client, replies: seq<seq<string>>, next: nat, rest: seq<Received>) {
    && next <= |replies| && c.incoming == AllSent(replies[next..]) + rest
    && (c.cached ==> next > 0 && Gotten(c.code, c.lines) == Sends(replies[next - 1]))
  }

  lemma NextReply(c: Client, replies: seq<seq<string>>, next: nat, rest: seq<Received>)
    requires AreReplies(replies) && IsAt(c, replies, next, rest) && next < |replies|
    ensures IsAt(Peeked(c), replies, next + 1, rest) && Peeked(c).cached
    ensures Gotten(Peeked(c).code, Peeked(c).lines) == Sends(replies[next])
  {
    assert replies[next..][0] == replies[next] && replies[next..][1..] == replies[next + 1..];
    var others := AllSent(replies[next + 1..]) + rest;
    assert c.incoming == Sent(replies[next]) + others;
    ReadsReply(replies[next], others);
  }

  ghost predicate GiveThe(gets: seq<Gotten>, replies: seq<seq<string>>, given: seq<int>) {
    && |gets| == |given|
    && forall i :: 0 <= i < |given| ==> 0 <= given[i] < |replies| && gets[i] == Sends(replies[given[i]])
  }

  lemma FirstGives(replies: seq<seq<string>>, first: int, gets: seq<Gotten>, given: seq<int>)
    requires 0 <= first < |replies| && GiveThe(gets, replies, given)
    ensures GiveThe([Sends(replies[first])] + gets, replies, [first] + given)
  {
  }

  /** After a get the client has read everything up to the reply it gave. */
  lemma GetGives(c: Client, replies: seq<seq<string>>, next: nat, rest: seq<Received>)
    requires AreReplies(replies) && IsAt(c, replies, next, rest) && next < |replies|
    ensures var due := Due(next, c.cached);
      due < |replies| && IsAt(Got(c), replies, due + 1, rest) && !Got(c).cached
      && Gotten(Got(c).code, Got(c).lines) == Sends(replies[due])
  {
    if !c.cached {
      NextReply(c, replies, next, rest);
    }
  }

  lemma {:induction false} GetsAreGiven(c: Client, replies: seq<seq<string>>, next: nat, rest: seq<Received>, calls: seq<Call>)
    requires AreReplies(replies) && IsAt(c, replies, next, rest) && next + |calls| <= |replies|
    ensures GiveThe(Gets(c, calls), replies, Given(calls, next, c.cached))
    decreases |calls|
  {
    if calls != [] {
      var due := Due(next, c.cached);
      if calls[0].Peek? {
        NextReply(c, replies, next, rest);
        GetsAreGiven(Peeked(c), replies, next + 1, rest, calls[1..]);
      } else {
        GetGives(c, replies, next, rest);
        GetsAreGiven(Got(c), replies, due + 1, rest, calls[1..]);
        FirstGives(replies, due, Gets(Got(c), calls[1..]), Given(calls[1..], due + 1, false));
      }
    }
  }

  ghost predicate InOrder(given: seq<int>, from: int) {
    forall i :: 0 <= i < |given| ==> given[i] == from + i
  }

  /** Two peeks in a row and a get at some time after them. */
  ghost predicate TwoPeeksThenGet(calls: seq<Call>) {
    exists i: nat, k: nat :: Skips(calls, i, k)
  }

  predicate Skips(calls: seq<Call>, i: nat, k: nat) {
    i + 1 < k < |calls| && calls[i] == Peek && calls[i + 1] == Peek && calls[k] == Get
  }

  function PeekedBefore(cached: bool): seq<Call> {
    if cached then [Peek] else []
  }

  lemma {:induction false} GivenIsLate(calls: seq<Call>, next: nat, cached: bool)
    ensures forall i :: 0 <= i < |Given(calls, next, cached)| ==> Given(calls, next, cached)[i] >= Due(next, cached)
    ensures Given(calls, next, cached) == [] <==> Get !in calls
    ensures |Given(calls, next, cached)| <= |calls|
    decreases |calls|
  {
    if calls != [] {
      assert calls == [calls[0]] + calls[1..];
      if calls[0].Peek? {
        GivenIsLate(calls[1..], next + 1, true);
      } else {
        GivenIsLate(calls[1..], Due(next, cached) + 1, false);
      }
    }
  }

  lemma SkipsLater(front: seq<Call>, calls: seq<Call>, i: nat, k: nat)
    ensures Skips(front + calls, |front| + i, |front| + k) <==> Skips(calls, i, k)
  {
    var all := front + calls;
    assert forall j :: 0 <= j < |calls| ==> all[|front| + j] == calls[j];
  }

  /** A get closes the peeks before it, when there is at most one. */
  lemma GetEndsPeeks(front: seq<Call>, calls: seq<Call>)
    requires front == [Get] || front == [Peek, Get]
    ensures TwoPeeksThenGet(front + calls) <==> TwoPeeksThenGet(calls)
  {
    var n := |front|;
    if i: nat, k: nat :| Skips(calls, i, k) {
      SkipsLater(front, calls, i, k);
    }
    if i: nat, k: nat :| Skips(front + calls, i, k) {
      assert i >= n;
      SkipsLater(front, calls, i - n, k - n);
    }
  }

  lemma TwoPeeksWait(calls: seq<Call>)
    ensures TwoPeeksThenGet([Peek, Peek] + calls) <==> Get in calls
  {
    var all := [Peek, Peek] + calls;
    if Get in calls {
      var k :| 0 <= k < |calls| && calls[k] == Get;
      assert Skips(all, 0, 2 + k);
    }
    if i: nat, k: nat :| Skips(all, i, k) {
      assert all[k] == calls[k - 2];
    }
  }

  lemma {:induction false} OrderOfGiven(calls: seq<Call>, next: nat, cached: bool)
    requires cached ==> next > 0
    ensures InOrder(Given(calls, next, cached), Due(next, cached)) <==> !TwoPeeksThenGet(PeekedBefore(cached) + calls)
    decreases |calls|
  {
    if calls == [] {
      NoCallsNoSkip(cached);
    } else {
      var rest := calls[1..];
      if calls[0].Get? {
        OrderOfGiven(rest, Due(next, cached) + 1, false);
        OrderAfterGet(calls, next, cached);
        SkipsAfterGet(calls, cached);
      } else if !cached {
        OrderOfGiven(rest, next + 1, true);
        assert PeekedBefore(false) + calls == PeekedBefore(true) + rest;
      } else {
        OrderAfterTwoPeeks(calls, next);
      }
    }
  }

  lemma NoCallsNoSkip(cached: bool)
    ensures !TwoPeeksThenGet(PeekedBefore(cached) + [])
  {
  }

  lemma GivenByGet(calls: seq<Call>, next: nat, cached: bool)
    requires calls != [] && calls[0] == Get
    ensures var due := Due(next, cached);
      Given(calls, next, cached) == [due] + Given(calls[1..], due + 1, false)
  {
  }

  lemma FrontAndGet(calls: seq<Call>, cached: bool)
    requires calls != [] && calls[0] == Get
    ensures PeekedBefore(cached) + calls == (if cached then [Peek, Get] else [Get]) + calls[1..]
  {
  }

  lemma OrderAfterGet(calls: seq<Call>, next: nat, cached: bool)
    requires calls != [] && calls[0] == Get
    ensures var due := Due(next, cached);
      InOrder(Given(calls, next, cached), due) <==> InOrder(Given(calls[1..], due + 1, false), due + 1)
  {
    GivenByGet(calls, next, cached);
    FirstInOrder(Due(next, cached), Given(calls[1..], Due(next, cached) + 1, false));
  }

  lemma SkipsAfterGet(calls: seq<Call>, cached: bool)
    requires calls != [] && calls[0] == Get
    ensures TwoPeeksThenGet(PeekedBefore(cached) + calls) <==> TwoPeeksThenGet(PeekedBefore(false) + calls[1..])
  {
    FrontAndGet(calls, cached);
    GetEndsPeeks(if cached then [Peek, Get] else [Get], calls[1..]);
    assert PeekedBefore(false) + calls[1..] == calls[1..];
  }

  lemma OrderAfterTwoPeeks(calls: seq<Call>, next: nat)
    requires calls != [] && calls[0] == Peek && next > 0
    ensures InOrder(Given(calls, next, true), Due(next, true)) <==> !TwoPeeksThenGet(PeekedBefore(true) + calls)
  {
    var rest := calls[1..];
    assert PeekedBefore(true) + calls == [Peek, Peek] + rest;
    TwoPeeksWait(rest);
    GivenIsLate(rest, next + 1, true);
    var given := Given(rest, next + 1, true);
    assert given != [] ==> given[0] >= next;
  }

  lemma FirstInOrder(first: int, others: seq<int>)
    ensures InOrder([first] + others, first) <==> InOrder(others, first + 1)
  {
    var all := [first] + others;
    assert forall i :: 0 <= i < |others| ==> others[i] == all[i + 1];
  }

  /** The gets give the replies in the order in which they were sent. */
  ghost predicate InStep(calls: seq<Call>, c: Client, replies: seq<seq<string>>) {
    && |Gets(c, calls)| <= |replies|
    && forall i :: 0 <= i < |Gets(c, calls)| ==> Gets(c, calls)[i] == Sends(replies[i])
  }

  /** A client with nothing to give again and enough replies to come. */
  ghost predicate IsStream(c: Client, replies: seq<seq<string>>, calls: seq<Call>) {
    !c.cached && AreReplies(replies) && |calls| <= |replies| && exists rest :: c.incoming == AllSent(replies) + rest
  }

  /** The calls that keep in step on every stream are exactly those without two peeks in a row
      before a get. */
  lemma InStepWithoutDoublePeeks(calls: seq<Call>)
    ensures (forall c, replies :: IsStream(c, replies, calls) ==> InStep(calls, c, replies))
       <==> !TwoPeeksThenGet(calls)
  {
    OrderOfGiven(calls, 0, false);
    assert PeekedBefore(false) + calls == calls;
    forall c, replies | IsStream(c, replies, calls) && !TwoPeeksThenGet(calls) ensures InStep(calls, c, replies) {
      OrderedGets(calls, c, replies);
    }
    if TwoPeeksThenGet(calls) {
      var c, replies := OutOfStep(calls);
    }
  }

  lemma OrderedGets(calls: seq<Call>, c: Client, replies: seq<seq<string>>)
    requires IsStream(c, replies, calls) && InOrder(Given(calls, 0, false), 0)
    ensures InStep(calls, c, replies)
  {
    var rest :| c.incoming == AllSent(replies) + rest;
    assert replies[0..] == replies;
    GetsAreGiven(c, replies, 0, rest, calls);
    GivenIsLate(calls, 0, false);
    var given, gets := Given(calls, 0, false), Gets(c, calls);
    assert forall i :: 0 <= i < |gets| ==> gets[i] == Sends(replies[given[i]]);
  }

  /** Replies that all differ, one line each. */
  function Numbered(n: nat): seq<seq<string>> {
    seq(n, i requires 0 <= i < n => [seq(i, _ => 'x')])
  }

  lemma NumberedDiffer(n: nat, i: nat, j: nat)
    requires i < n && j < n && i != j
    ensures Sends(Numbered(n)[i]) != Sends(Numbered(n)[j])
  {
    assert |Numbered(n)[i][0]| == i && |Numbered(n)[j][0]| == j;
  }

  lemma InStepAt(calls: seq<Call>, c: Client, replies: seq<seq<string>>, i: nat)
    requires i < |Gets(c, calls)| <= |replies|
    ensures InStep(calls, c, replies) ==> Gets(c, calls)[i] == Sends(replies[i])
  {
  }

  lemma OutOfStep(calls: seq<Call>) returns (c: Client, replies: seq<seq<string>>)
    requires !InOrder(Given(calls, 0, false), 0)
    ensures IsStream(c, replies, calls) && !InStep(calls, c, replies)
  {
    replies := Numbered(|calls|);
    c := Client(AllSent(replies), [], 0, false);
    assert c.incoming == AllSent(replies) + [];
    assert replies[0..] == replies;
    GetsAreGiven(c, replies, 0, [], calls);
    GivenIsLate(calls, 0, false);
    var given := Given(calls, 0, false);
    var i :| 0 <= i < |given| && given[i] != 0 + i;
    NumberedDiffer(|calls|, given[i], i);
    InStepAt(calls, c, replies, i);
  }

  class CUT_FTPClient {
    var incoming: seq<Received>
    var buf: string
    var listResponse: seq<string>
    var lastResponseCode: int
    var cachedResponse: bool

    constructor (incoming: seq<Received>)
      ensures View() == Client(incoming, [], 0, false)
    {
      this.incoming, buf, listResponse, lastResponseCode, cachedResponse := incoming, "", [], 0, false;
    }

    function View(): Client
      reads this
    {
      Client(incoming, listResponse, lastResponseCode, cachedResponse)
    }

    /** A failed receive leaves the buffer as it is. */
    method ReceiveLine() returns (ok: bool)
      modifies this`incoming, this`buf
      ensures ok == (old(incoming) != [] && old(incoming)[0].Line?)
      ensures incoming == if old(incoming) == [] then [] else old(incoming)[1..]
      ensures buf == if ok then old(incoming)[0].text else old(buf)
    {
      if incoming == [] {
        return false;
      }
      ok := incoming[0].Line?;
      if ok {
        buf := incoming[0].text;
      }
      incoming := incoming[1..];
    }

    method GetResponseCode() returns (code: int)
      modifies this
      ensures View() == Got(old(View())) && code == lastResponseCode
    {
      if cachedResponse {
        cachedResponse := false;
        return lastResponseCode;
      }
      code := PeekResponseCode();
      cachedResponse := false;
    }

    method PeekResponseCode() returns (code: int)
      modifies this
      ensures View() == Peeked(old(View())) && code == lastResponseCode
    {
      cachedResponse := true;
      listResponse := [];
      var received := ReceiveLine();
      if !received {
        lastResponseCode := 0;
        return 0;
      }
      code := Code(buf);
      if OpensMultiLine(buf) {
        var complete := ReadMoreLines();
        if !complete {
          lastResponseCode := 0;
          cachedResponse := false;
          return 0;
        }
      }
      listResponse := listResponse + [buf];
      lastResponseCode := code;
    }

    /** The lines up to the last one, which stays in the buffer. */
    method ReadMoreLines() returns (complete: bool)
      requires OpensMultiLine(buf) && listResponse == []
      modifies this`incoming, this`buf, this`listResponse
      ensures var r := Gathered([old(buf)], old(incoming));
        && complete == (r.outcome != TooLong) && incoming == r.rest
        && (if complete then listResponse + [buf] else listResponse) == r.lines
    {
      var opening := buf;
      var responseLines := 1;
      assert listResponse + [buf] == [opening];
      while !Ends(opening, buf)
        invariant responseLines == |listResponse| + 1 && (listResponse + [buf])[0] == opening
        invariant Gathered([opening], old(incoming)) == Gathered(listResponse + [buf], incoming)
        decreases |incoming|
      {
        listResponse := listResponse + [buf];
        if responseLines >= MAX_FTP_MULTILINE_RESPONSE_LINES {
          return false;
        }
        var received := ReceiveLine();
        if !received {
          break;
        }
        responseLines := responseLines + 1;
      }
      complete := true;
    }
  }
}
