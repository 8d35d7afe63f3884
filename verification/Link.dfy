/** One plugin connection over time: bytes come in and are answered, events are sent, and
    the operating system takes from the write buffer what it will (SocketInfo in
    src/plugincomm.h and PluginComm::poll in src/plugincomm.cpp). */
module Link {
  import opened Common
  import opened Framing

  // The fields of a JSON object, each with the text of its value.
  type Fields = map<string, string>

  // What handle did with a request: it filled in the response, or it threw part way.
  datatype Reply = Returned(output: Fields) | Threw(partial: Fields, message: string)

  // The parts of the bot the connection relies on.  handle also sees which connection it is
  // and how many requests that has made before, so it may answer the same request differently
  // each time.
  datatype Bot = Bot(
    handle: (nat, nat, string) -> Reply,
    dump: Fields -> string,
    quote: string -> string,
    event: (string, seq<string>) -> string)

  // Every response and every event is a JSON object (section 4 of RFC 8259).
  ghost predicate SendsObjects(bot: Bot) {
    && (forall f :: bot.dump(f) != "" && bot.dump(f)[0] == '{')
    && (forall e, p :: bot.event(e, p) != "" && bot.event(e, p)[0] == '{')
  }

  // The text answered to the k-th request of a connection, whether handle returned or threw.
  function Response(bot: Bot, connection: nat, k: nat, request: string): string {
    match bot.handle(connection, k, request)
    case Returned(output) => bot.dump(output)
    case Threw(partial, message) =>
      bot.dump(partial["success" := "false"]["error" := bot.quote(message)])
  }

  // The answers to a list of requests, the first of which is the k-th of the connection.
  function Responses(bot: Bot, connection: nat, k: nat, requests: seq<string>): (r: seq<string>)
    ensures |r| == |requests|
  {
    seq(|requests|, i requires 0 <= i < |requests| => Response(bot, connection, k + i, requests[i]))
  }

  // What a plugin is told of a request: all that handle filled in, or after an exception what
  // it had filled in by then, marked as failed with the exception's text.
  ghost predicate Reports(bot: Bot, reply: Reply, text: string) {
    match reply
    case Returned(output) => text == bot.dump(output)
    case Threw(partial, message) => exists fields :: text == bot.dump(fields) && Failed(bot, partial, message, fields)
  }

  predicate Failed(bot: Bot, partial: Fields, message: string, fields: Fields) {
    && fields.Keys == partial.Keys + {"success", "error"}
    && fields["success"] == "false" && fields["error"] == bot.quote(message)
    && forall name | name in partial && name != "success" && name != "error" :: fields[name] == partial[name]
  }

  lemma ResponseReports(bot: Bot, connection: nat, k: nat, request: string)
    ensures Reports(bot, bot.handle(connection, k, request), Response(bot, connection, k, request))
  {
    match bot.handle(connection, k, request) {
      case Returned(output) =>
      case Threw(partial, message) =>
        assert Failed(bot, partial, message, partial["success" := "false"]["error" := bot.quote(message)]);
    }
  }

  // Messages that report, one each and in order, on some requests of a connection, the first
  // of which is its k-th.
  ghost predicate ReportsAll(bot: Bot, connection: nat, k: nat, requests: seq<string>, texts: seq<string>) {
    && |texts| == |requests|
    && forall i | 0 <= i < |requests| :: Reports(bot, bot.handle(connection, k + i, requests[i]), texts[i])
  }

  lemma ResponsesReport(bot: Bot, connection: nat, k: nat, requests: seq<string>)
    ensures ReportsAll(bot, connection, k, requests, Responses(bot, connection, k, requests))
  {
    forall i | 0 <= i < |requests|
      ensures Reports(bot, bot.handle(connection, k + i, requests[i]), Responses(bot, connection, k, requests)[i])
    {
      ResponseReports(bot, connection, k + i, requests[i]);
    }
  }

  datatype Message = Answer(text: string) | Event(text: string)

  function Texts(log: seq<Message>): seq<string> {
    seq(|log|, i requires 0 <= i < |log| => log[i].text)
  }

  function Answers(log: seq<Message>): seq<string> {
    if log == [] then []
    else
      var n := |log| - 1;
      Answers(log[..n]) + if log[n].Answer? then [log[n].text] else []
  }

  function Events(log: seq<Message>): seq<string> {
    if log == [] then []
    else
      var n := |log| - 1;
      Events(log[..n]) + if log[n].Event? then [log[n].text] else []
  }

  // The state of a connection, with its history: the requests answered, the bytes received,
  // the messages put in the write buffer and the bytes the operating system has taken.
  datatype State = State(
    connection: nat,
    decoder: Decoder,
    writebuffer: string,
    answered: nat,
    received: string,
    log: seq<Message>,
    sent: string)

  function Opened(connection: nat): State {
    State(connection, START, "", 0, "", [], "")
  }

  datatype Step = Arrive(bytes: string) | Dispatch(event: string, params: seq<string>) | Accept(count: nat)

  function AsAnswers(texts: seq<string>): seq<Message> {
    seq(|texts|, i requires 0 <= i < |texts| => Answer(texts[i]))
  }

  predicate Possible(s: State, step: Step) {
    s.decoder.Decoder? && (step.Accept? ==> step.count <= |s.writebuffer|)
  }

  function Put(s: State, messages: seq<Message>): State {
    s.(writebuffer := s.writebuffer + Frames(Texts(messages)), log := s.log + messages)
  }

  // Every decoded request is answered.
  function Answered(bot: Bot, s: State, r: Decoded): State {
    Put(s, AsAnswers(Responses(bot, s.connection, s.answered, r.packets)))
    .(decoder := r.end, answered := s.answered + |r.packets|)
  }

  function Next(bot: Bot, s: State, step: Step): State
    requires Possible(s, step)
  {
    match step
    case Arrive(bytes) => Answered(bot, s, Feed(s.decoder, bytes)).(received := s.received + bytes)
    case Dispatch(event, params) => Put(s, [Event(bot.event(event, params))])
    case Accept(n) => s.(sent := s.sent + s.writebuffer[..n], writebuffer := s.writebuffer[n..])
  }

  predicate Feasible(bot: Bot, s: State, steps: seq<Step>)
    decreases |steps|
  {
    steps == [] || (Possible(s, steps[0]) && Feasible(bot, Next(bot, s, steps[0]), steps[1..]))
  }

  function Run(bot: Bot, s: State, steps: seq<Step>): State
    requires Feasible(bot, s, steps)
    decreases |steps|
  {
    if steps == [] then s else Run(bot, Next(bot, s, steps[0]), steps[1..])
  }

  // What ties the state to its history.
  ghost predicate Inv(bot: Bot, s: State) {
    && s.sent + s.writebuffer == Frames(Texts(s.log))
    && s.decoder == Feed(START, s.received).end
    && s.answered == |Feed(START, s.received).packets|
    && Answers(s.log) == Responses(bot, s.connection, 0, Feed(START, s.received).packets)
  }

  lemma {:induction false} AnswersConcat(a: seq<Message>, b: seq<Message>)
    ensures Answers(a + b) == Answers(a) + Answers(b)
    ensures Events(a + b) == Events(a) + Events(b)
  {
    if b == [] {
      assert a + b == a;
    } else {
      var n := |b| - 1;
      AnswersConcat(a, b[..n]);
      assert (a + b)[..|a + b| - 1] == a + b[..n];
    }
  }

  lemma {:induction false} AnswersOfAnswers(texts: seq<string>)
    ensures Answers(AsAnswers(texts)) == texts && Events(AsAnswers(texts)) == []
  {
    if texts != [] {
      var n := |texts| - 1;
      AnswersOfAnswers(texts[..n]);
      assert AsAnswers(texts)[..n] == AsAnswers(texts[..n]);
      assert texts == texts[..n] + [texts[n]];
    }
  }

  lemma PutTwice(s: State, a: seq<Message>, b: seq<Message>)
    ensures Put(Put(s, a), b) == Put(s, a + b)
  {
    assert Texts(a + b) == Texts(a) + Texts(b);
    FramesConcat(Texts(a), Texts(b));
    assert s.writebuffer + Frames(Texts(a)) + Frames(Texts(b)) == s.writebuffer + (Frames(Texts(a)) + Frames(Texts(b)));
    assert s.log + a + b == s.log + (a + b);
  }

  lemma FirstAnswer(bot: Bot, connection: nat, k: nat, packet: string, packets: seq<string>)
    ensures AsAnswers(Responses(bot, connection, k, [packet] + packets))
         == [Answer(Response(bot, connection, k, packet))] + AsAnswers(Responses(bot, connection, k + 1, packets))
  {
  }

  // Answering the first packet, then the rest.
  lemma AnswerOne(bot: Bot, s: State, packet: string, rest: Decoded)
    ensures
      var answer := Answer(Response(bot, s.connection, s.answered, packet));
      Answered(bot, s, Decoded([packet] + rest.packets, rest.end))
      == Answered(bot, Put(s, [answer]).(answered := s.answered + 1), rest)
  {
    var c, k := s.connection, s.answered;
    var first, others := [Answer(Response(bot, c, k, packet))], AsAnswers(Responses(bot, c, k + 1, rest.packets));
    FirstAnswer(bot, c, k, packet, rest.packets);
    PutTwice(s, first, others);
    PutKeepsCount(Put(s, first), others, k + 1);
    assert |[packet] + rest.packets| == 1 + |rest.packets|;
  }

  lemma PutKeepsCount(s: State, messages: seq<Message>, k: nat)
    ensures Put(s.(answered := k), messages) == Put(s, messages).(answered := k)
  {
  }

  // Answering adds one report for each request, and nothing else.
  ghost predicate Reported(bot: Bot, s: State, requests: seq<string>, log: seq<Message>) {
    && s.log <= log && ReportsAll(bot, s.connection, s.answered, requests, Texts(log[|s.log|..]))
    && forall m | m in log[|s.log|..] :: m.Answer?
  }

  lemma AnsweredReports(bot: Bot, s: State, r: Decoded)
    ensures Reported(bot, s, r.packets, Answered(bot, s, r).log)
  {
    var texts := Responses(bot, s.connection, s.answered, r.packets);
    ResponsesReport(bot, s.connection, s.answered, r.packets);
    assert (s.log + AsAnswers(texts))[|s.log|..] == AsAnswers(texts);
    assert Texts(AsAnswers(texts)) == texts;
  }

  lemma RoundReports(bot: Bot, s: State, bytes: string, count: nat, t: State)
    requires IsRound(bot, s, bytes, count, t) && bytes != ""
    ensures Reported(bot, s, Feed(s.decoder, bytes).packets, t.log)
  {
    AnsweredReports(bot, s, Feed(s.decoder, bytes));
  }

  lemma ArriveIsAnswered(bot: Bot, s: State, bytes: string)
    requires Possible(s, Arrive(bytes))
    ensures
      var d := s.decoder.(buffer := s.decoder.buffer + bytes);
      Next(bot, s, Arrive(bytes)) == Answered(bot, s.(decoder := d, received := s.received + bytes), Decode(d))
  {
  }

  lemma AcceptNone(bot: Bot, s: State)
    requires Possible(s, Accept(0))
    ensures Next(bot, s, Accept(0)) == s
  {
    assert s.sent + "" == s.sent;
  }

  lemma AnswerNone(bot: Bot, s: State, end: Decoder)
    ensures Answered(bot, s, Decoded([], end)) == s.(decoder := end)
  {
    assert s.log + [] == s.log;
    assert s.writebuffer + "" == s.writebuffer;
    assert Texts([]) == [];
  }

  lemma PutKeepsStream(s: State, messages: seq<Message>)
    requires s.sent + s.writebuffer == Frames(Texts(s.log))
    ensures Put(s, messages).sent + Put(s, messages).writebuffer == Frames(Texts(Put(s, messages).log))
  {
    var a, b := Texts(s.log), Texts(messages);
    FramesConcat(a, b);
    assert Texts(s.log + messages) == a + b;
    assert s.sent + (s.writebuffer + Frames(b)) == s.sent + s.writebuffer + Frames(b);
  }

  lemma ResponsesConcat(bot: Bot, connection: nat, a: seq<string>, b: seq<string>)
    ensures Responses(bot, connection, 0, a + b)
         == Responses(bot, connection, 0, a) + Responses(bot, connection, |a|, b)
  {
  }

  lemma ArriveKeepsInv(bot: Bot, s: State, bytes: string)
    requires Inv(bot, s) && Possible(s, Arrive(bytes))
    ensures Inv(bot, Next(bot, s, Arrive(bytes)))
  {
    var r := Feed(s.decoder, bytes);
    var answers := Responses(bot, s.connection, s.answered, r.packets);
    PutKeepsStream(s, AsAnswers(answers));
    FeedResumes(START, s.received, bytes);
    AnswersConcat(s.log, AsAnswers(answers));
    AnswersOfAnswers(answers);
    ResponsesConcat(bot, s.connection, Feed(START, s.received).packets, r.packets);
  }

  lemma DispatchKeepsInv(bot: Bot, s: State, event: string, params: seq<string>)
    requires Inv(bot, s) && Possible(s, Dispatch(event, params))
    ensures Inv(bot, Next(bot, s, Dispatch(event, params)))
  {
    var text := bot.event(event, params);
    PutKeepsStream(s, [Event(text)]);
    EventIsNoAnswer(s.log, text);
    InvAfterDispatch(bot, s, text);
  }

  lemma EventIsNoAnswer(log: seq<Message>, text: string)
    ensures Answers(log + [Event(text)]) == Answers(log)
  {
    assert (log + [Event(text)])[..|log|] == log;
    assert Answers(log) + [] == Answers(log);
  }

  lemma InvAfterDispatch(bot: Bot, s: State, text: string)
    requires Inv(bot, s) && Answers(s.log + [Event(text)]) == Answers(s.log)
    requires
      var t := Put(s, [Event(text)]);
      t.sent + t.writebuffer == Frames(Texts(t.log))
    ensures Inv(bot, Put(s, [Event(text)]))
  {
  }

  lemma StepKeepsInv(bot: Bot, s: State, step: Step)
    requires Inv(bot, s) && Possible(s, step)
    ensures Inv(bot, Next(bot, s, step))
  {
    match step {
      case Arrive(bytes) => ArriveKeepsInv(bot, s, bytes);
      case Dispatch(event, params) => DispatchKeepsInv(bot, s, event, params);
      case Accept(n) => assert s.sent + s.writebuffer == s.sent + s.writebuffer[..n] + s.writebuffer[n..];
    }
  }

  function Arrived(steps: seq<Step>): string {
    if steps == [] then ""
    else (if steps[0].Arrive? then steps[0].bytes else "") + Arrived(steps[1..])
  }

  function Dispatched(bot: Bot, steps: seq<Step>): seq<string> {
    if steps == [] then []
    else (if steps[0].Dispatch? then [bot.event(steps[0].event, steps[0].params)] else []) + Dispatched(bot, steps[1..])
  }

  lemma {:induction false} RunKeepsInv(bot: Bot, s: State, steps: seq<Step>)
    requires Inv(bot, s) && Feasible(bot, s, steps)
    ensures Inv(bot, Run(bot, s, steps))
    decreases |steps|
  {
    if steps != [] {
      StepKeepsInv(bot, s, steps[0]);
      RunKeepsInv(bot, Next(bot, s, steps[0]), steps[1..]);
    }
  }

  lemma {:induction false} RunReceives(bot: Bot, s: State, steps: seq<Step>)
    requires Feasible(bot, s, steps)
    ensures Run(bot, s, steps).received == s.received + Arrived(steps)
    ensures Run(bot, s, steps).connection == s.connection
    decreases |steps|
  {
    if steps == [] {
      assert s.received + "" == s.received;
    } else {
      var t := Next(bot, s, steps[0]);
      RunReceives(bot, t, steps[1..]);
      var own := if steps[0].Arrive? then steps[0].bytes else "";
      assert t.received == s.received + own;
      assert s.received + own + Arrived(steps[1..]) == s.received + (own + Arrived(steps[1..]));
    }
  }

  lemma EventsOfStep(bot: Bot, s: State, step: Step)
    requires Possible(s, step)
    ensures Events(Next(bot, s, step).log) ==
      Events(s.log) + if step.Dispatch? then [bot.event(step.event, step.params)] else []
  {
    match step {
      case Arrive(bytes) =>
        var answers := Responses(bot, s.connection, s.answered, Feed(s.decoder, bytes).packets);
        AnswersConcat(s.log, AsAnswers(answers));
        AnswersOfAnswers(answers);
      case Dispatch(event, params) =>
        var log := s.log + [Event(bot.event(event, params))];
        assert log[..|s.log|] == s.log;
      case Accept(n) =>
    }
  }

  lemma {:induction false} RunDispatches(bot: Bot, s: State, steps: seq<Step>)
    requires Feasible(bot, s, steps)
    ensures Events(Run(bot, s, steps).log) == Events(s.log) + Dispatched(bot, steps)
    decreases |steps|
  {
    if steps == [] {
      assert Events(s.log) + [] == Events(s.log);
    } else {
      var t := Next(bot, s, steps[0]);
      EventsOfStep(bot, s, steps[0]);
      RunDispatches(bot, t, steps[1..]);
      var own := if steps[0].Dispatch? then [bot.event(steps[0].event, steps[0].params)] else [];
      Regroup(Events(s.log), own, Dispatched(bot, steps[1..]));
    }
  }

  // ----- What the plugin is told, from what happened alone -----

  // The answers that some more bytes make due: those to the requests in all the bytes so
  // far, less those to the requests that were complete before.
  function Due(bot: Bot, connection: nat, received: string, bytes: string): seq<string>
    requires |Feed(START, received).packets| <= |Feed(START, received + bytes).packets|
  {
    Responses(bot, connection, 0, Feed(START, received + bytes).packets)[|Feed(START, received).packets|..]
  }

  lemma RequestsOnlyGrow(received: string, bytes: string)
    ensures |Feed(START, received).packets| <= |Feed(START, received + bytes).packets|
  {
    FeedResumes(START, received, bytes);
  }

  // Every message of a run in order: answers as they fall due, events as they happen.
  function Said(bot: Bot, connection: nat, received: string, steps: seq<Step>): seq<string>
    decreases |steps|
  {
    if steps == [] then []
    else match steps[0]
      case Arrive(bytes) =>
        RequestsOnlyGrow(received, bytes);
        Due(bot, connection, received, bytes) + Said(bot, connection, received + bytes, steps[1..])
      case Dispatch(event, params) => [bot.event(event, params)] + Said(bot, connection, received, steps[1..])
      case Accept(_) => Said(bot, connection, received, steps[1..])
  }

  lemma TextsConcat(a: seq<Message>, b: seq<Message>)
    ensures Texts(a + b) == Texts(a) + Texts(b)
  {
  }

  lemma ArriveSaysDue(bot: Bot, s: State, bytes: string)
    requires Inv(bot, s) && Possible(s, Arrive(bytes))
    ensures |Feed(START, s.received).packets| <= |Feed(START, s.received + bytes).packets|
    ensures Texts(Next(bot, s, Arrive(bytes)).log) == Texts(s.log) + Due(bot, s.connection, s.received, bytes)
  {
    var before, now := Feed(START, s.received).packets, Feed(s.decoder, bytes).packets;
    FeedResumes(START, s.received, bytes);
    ResponsesConcat(bot, s.connection, before, now);
    var answers := Responses(bot, s.connection, s.answered, now);
    TextsConcat(s.log, AsAnswers(answers));
    assert Texts(AsAnswers(answers)) == answers;
    assert Responses(bot, s.connection, 0, before + now)[|before|..] == Responses(bot, s.connection, |before|, now);
  }

  lemma {:induction false} RunSays(bot: Bot, s: State, steps: seq<Step>)
    requires Inv(bot, s) && Feasible(bot, s, steps)
    ensures Texts(Run(bot, s, steps).log) == Texts(s.log) + Said(bot, s.connection, s.received, steps)
    decreases |steps|
  {
    if steps == [] {
      assert Texts(s.log) + [] == Texts(s.log);
    } else {
      var t := Next(bot, s, steps[0]);
      StepKeepsInv(bot, s, steps[0]);
      RunSays(bot, t, steps[1..]);
      match steps[0] {
        case Arrive(bytes) =>
          ArriveSaysDue(bot, s, bytes);
          Regroup(Texts(s.log), Due(bot, s.connection, s.received, bytes),
                  Said(bot, s.connection, t.received, steps[1..]));
        case Dispatch(event, params) =>
          var text := bot.event(event, params);
          TextsConcat(s.log, [Event(text)]);
          assert Texts([Event(text)]) == [text];
          Regroup(Texts(s.log), [text], Said(bot, s.connection, s.received, steps[1..]));
        case Accept(_) =>
      }
    }
  }

  // Over any run, what the socket took followed by what is still buffered is one frame per
  // message, in the order in which answers fell due and events were dispatched.  The answers
  // among them are those to the requests the received bytes contain, one each and in order;
  // the events are those dispatched, one each and in order.
  lemma WriteStream(bot: Bot, connection: nat, steps: seq<Step>)
    requires Feasible(bot, Opened(connection), steps)
    ensures
      var end := Run(bot, Opened(connection), steps);
      && end.sent + end.writebuffer == Frames(Said(bot, connection, "", steps))
      && Texts(end.log) == Said(bot, connection, "", steps)
      && Answers(end.log) == Responses(bot, connection, 0, Feed(START, Arrived(steps)).packets)
      && ReportsAll(bot, connection, 0, Feed(START, Arrived(steps)).packets, Answers(end.log))
      && Events(end.log) == Dispatched(bot, steps)
  {
    assert Feed(START, "") == Decoded([], START);
    RunKeepsInv(bot, Opened(connection), steps);
    RunSays(bot, Opened(connection), steps);
    assert Texts([]) + Said(bot, connection, "", steps) == Said(bot, connection, "", steps);
    RunReceives(bot, Opened(connection), steps);
    ResponsesReport(bot, connection, 0, Feed(START, Arrived(steps)).packets);
    RunDispatches(bot, Opened(connection), steps);
    assert "" + Arrived(steps) == Arrived(steps);
    assert [] + Dispatched(bot, steps) == Dispatched(bot, steps);
  }

  lemma {:induction false} EveryMessageIsAnObject(bot: Bot, s: State, steps: seq<Step>)
    requires SendsObjects(bot) && Feasible(bot, s, steps)
    requires forall m | m in s.log :: m.text != "" && m.text[0] == '{'
    ensures forall m | m in Run(bot, s, steps).log :: m.text != "" && m.text[0] == '{'
    decreases |steps|
  {
    if steps != [] {
      StepSendsObjects(bot, s, steps[0]);
      EveryMessageIsAnObject(bot, Next(bot, s, steps[0]), steps[1..]);
    }
  }

  lemma StepSendsObjects(bot: Bot, s: State, step: Step)
    requires SendsObjects(bot) && Possible(s, step)
    requires forall m | m in s.log :: m.text != "" && m.text[0] == '{'
    ensures forall m | m in Next(bot, s, step).log :: m.text != "" && m.text[0] == '{'
  {
  }

  // End to end: the plugin, decoding the bytes it has been sent so far, sees a prefix of
  // the bot's messages in order, and all of them once the write buffer is empty.
  lemma PluginReadsMessages(bot: Bot, connection: nat, steps: seq<Step>)
    requires SendsObjects(bot) && Feasible(bot, Opened(connection), steps)
    requires forall text | text in Said(bot, connection, "", steps) :: |text| <= INT_MAX
    ensures
      var end := Run(bot, Opened(connection), steps);
      && Feed(START, end.sent).end.Decoder?
      && Feed(START, end.sent).packets <= Said(bot, connection, "", steps)
      && (end.writebuffer == "" ==> Feed(START, end.sent).packets == Said(bot, connection, "", steps))
  {
    var end := Run(bot, Opened(connection), steps);
    WriteStream(bot, connection, steps);
    EveryMessageIsAnObject(bot, Opened(connection), steps);
    forall t | t in Texts(end.log) ensures Framing.Message(t) {
      var i :| 0 <= i < |end.log| && Texts(end.log)[i] == t;
      assert end.log[i] in end.log;
    }
    ReaderGetsPrefix(Texts(end.log), end.sent, end.writebuffer);
  }

  // ----- The states a connection can be in -----

  ghost predicate Reachable(bot: Bot, s: State) {
    exists steps :: Feasible(bot, Opened(s.connection), steps) && Run(bot, Opened(s.connection), steps) == s
  }

  lemma {:induction false} RunSnoc(bot: Bot, s: State, steps: seq<Step>, step: Step)
    requires Feasible(bot, s, steps) && Possible(Run(bot, s, steps), step)
    ensures Feasible(bot, s, steps + [step])
    ensures Run(bot, s, steps + [step]) == Next(bot, Run(bot, s, steps), step)
    decreases |steps|
  {
    if steps == [] {
      assert steps + [step] == [step];
    } else {
      RunSnoc(bot, Next(bot, s, steps[0]), steps[1..], step);
      assert (steps + [step])[1..] == steps[1..] + [step];
    }
  }

  lemma OpenedIsReachable(bot: Bot, connection: nat)
    ensures Reachable(bot, Opened(connection))
  {
    assert Feasible(bot, Opened(connection), []) && Run(bot, Opened(connection), []) == Opened(connection);
  }

  lemma NextIsReachable(bot: Bot, s: State, step: Step)
    requires Reachable(bot, s) && Possible(s, step)
    ensures Reachable(bot, Next(bot, s, step))
  {
    var steps :| Feasible(bot, Opened(s.connection), steps) && Run(bot, Opened(s.connection), steps) == s;
    RunSnoc(bot, Opened(s.connection), steps, step);
  }

  // Without new bytes the buffer is not looked at again.
  function Received(bot: Bot, s: State, bytes: string): State
    requires s.decoder.Decoder?
  {
    if bytes == "" then s else Next(bot, s, Arrive(bytes))
  }

  // What one round of polling does to a connection.
  predicate IsRound(bot: Bot, s: State, bytes: string, count: nat, t: State) {
    && s.decoder.Decoder?
    && Possible(Received(bot, s, bytes), Accept(count))
    && t == Next(bot, Received(bot, s, bytes), Accept(count))
  }

  lemma RoundIsReachable(bot: Bot, s: State, bytes: string, count: nat)
    requires s.decoder.Decoder? && Possible(Received(bot, s, bytes), Accept(count))
    ensures Reachable(bot, s) ==> Reachable(bot, Next(bot, Received(bot, s, bytes), Accept(count)))
  {
    if Reachable(bot, s) {
      if bytes != "" {
        NextIsReachable(bot, s, Arrive(bytes));
      }
      NextIsReachable(bot, Received(bot, s, bytes), Accept(count));
    }
  }

  lemma RoundKeepsEvents(bot: Bot, s: State, bytes: string, count: nat, t: State)
    requires IsRound(bot, s, bytes, count, t)
    ensures Events(t.log) == Events(s.log)
  {
    if bytes != "" {
      EventsOfStep(bot, s, Arrive(bytes));
    }
    EventsOfStep(bot, Received(bot, s, bytes), Accept(count));
    assert Events(s.log) + [] == Events(s.log);
  }
}
