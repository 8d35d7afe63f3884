/** The record the bot keeps for a plugin's socket (SocketInfo in src/plugincomm.h) and what
    one round of PluginComm::poll does with it (src/plugincomm.cpp). */
module PluginSocket {
  import opened Common
  import opened Framing
  import Link

  // What a subscription to a command asks for.  Networks are known by number.
  datatype Requirement = Requirement(
    needsNetwork: bool,
    needsReceiver: bool,
    needsSender: bool,
    wantedNetwork: nat,
    wantedReceiver: string,
    wantedSender: string)

  // Whether a subscription admits a command sent by someone the bot takes to be identified
  // or not.
  predicate Admits(r: Requirement, receiver: string, sender: string, identified: bool, network: nat) {
    && (r.needsNetwork ==> r.wantedNetwork == network)
    && (r.needsReceiver ==> r.wantedReceiver == receiver)
    && (r.needsSender ==> identified && r.wantedSender == sender)
  }

  predicate Subscribed(commands: seq<(string, Requirement)>, command: string, receiver: string, sender: string,
      identified: bool, network: nat)
  {
    exists i | 0 <= i < |commands| ::
      commands[i].0 == command && Admits(commands[i].1, receiver, sender, identified, network)
  }

  predicate ChecksSender(commands: seq<(string, Requirement)>, command: string) {
    exists i | 0 <= i < |commands| :: commands[i].0 == command && commands[i].1.needsSender
  }

  datatype ReadResult = Data(bytes: string) | EndOfFile | WouldBlock | ReadError

  // The operating system's side of a socket.
  class Descriptor {
    var incoming: string
    var open: bool

    // read() with a buffer of 512 bytes.
    method Read() returns (r: ReadResult)
      modifies this`incoming
      ensures old(incoming) == (if r.Data? then r.bytes else "") + incoming
      ensures r.Data? ==> 1 <= |r.bytes| <= 512
    {
      var n: nat := *;
      if 1 <= n <= 512 && n <= |incoming| {
        r := Data(incoming[..n]);
        incoming := incoming[n..];
      } else {
        var broken, ended := *, *;
        r := if broken then ReadError else if ended then EndOfFile else WouldBlock;
      }
    }

    // write(): an error, or the number of bytes taken, which is not zero.
    method Write(data: string) returns (n: int)
      requires data != ""
      ensures n == -1 || 1 <= n <= |data|
    {
      n := *;
      if !open || n < 1 || n > |data| {
        n := -1;
      }
    }

    method Close()
      modifies this`open
      ensures !open
    {
      open := false;
    }
  }

  datatype Outcome = Alive | Gone | Died

  class SocketInfo {
    const bot: Link.Bot
    const connection: nat  // tells handle which socket is asking
    var commands: seq<(string, Requirement)>
    var waitingSize: nat
    var readahead: string
    var writebuffer: string
    var answered: nat  // stands for what handle knows of earlier requests
    ghost var received: string
    ghost var log: seq<Link.Message>
    ghost var sent: string

    constructor (bot: Link.Bot, connection: nat)
      ensures Valid() && this.bot == bot && commands == [] && View() == Link.Opened(connection)
    {
      this.bot, this.connection := bot, connection;
      commands, waitingSize, readahead, writebuffer, answered := [], 0, "", "", 0;
      received, log, sent := "", [], "";
      new;
      Link.OpenedIsReachable(bot, connection);
    }

    // The object is in a state that some run of arrivals, dispatches and writes leads to.
    ghost predicate Valid()
      reads this
    {
      Link.Reachable(bot, View())
    }

    // So everything proved of runs holds of it.
    lemma WholeStream() returns (steps: seq<Link.Step>)
      requires Valid()
      ensures Link.Feasible(bot, Link.Opened(connection), steps)
      ensures received == Link.Arrived(steps) && Link.Texts(log) == Link.Said(bot, connection, "", steps)
      ensures sent + writebuffer == Frames(Link.Said(bot, connection, "", steps)) == Frames(Link.Texts(log))
      ensures Link.ReportsAll(bot, connection, 0, Feed(START, received).packets, Link.Answers(log))
      ensures Link.Events(log) == Link.Dispatched(bot, steps)
    {
      var begin := Link.Opened(connection);
      steps :| Link.Feasible(bot, begin, steps) && Link.Run(bot, begin, steps) == View();
      Link.WriteStream(bot, connection, steps);
      Link.RunReceives(bot, Link.Opened(connection), steps);
    }

    ghost function View(): Link.State
      reads this
    {
      Link.State(connection, Decoder(waitingSize, readahead), writebuffer, answered, received, log, sent)
    }

    method IsSubscribedToCommand(command: string, receiver: string, sender: string, identified: bool, network: nat)
        returns (subscribed: bool)
      ensures subscribed <==> Subscribed(commands, command, receiver, sender, identified, network)
    {
      var i := 0;
      while i < |commands|
        invariant i <= |commands|
        invariant !Subscribed(commands[..i], command, receiver, sender, identified, network)
      {
        var (name, r) := commands[i];
        if name != command {
        } else if r.needsNetwork && r.wantedNetwork != network {
        } else if r.needsReceiver && r.wantedReceiver != receiver {
        } else if r.needsSender && (!identified || r.wantedSender != sender) {
        } else {
          return true;
        }
        i := i + 1;
      }
      assert commands[..|commands|] == commands;
      return false;
    }

    method CommandMightNeedWhois(command: string) returns (might: bool)
      ensures might <==> ChecksSender(commands, command)
    {
      var i := 0;
      while i < |commands|
        invariant i <= |commands|
        invariant !ChecksSender(commands[..i], command)
      {
        if commands[i].0 == command && commands[i].1.needsSender {
          return true;
        }
        i := i + 1;
      }
      assert commands[..|commands|] == commands;
      return false;
    }

    method SubscribeToCommand(command: string, requirement: Requirement)
      modifies this`commands
      ensures multiset(commands) == multiset(old(commands)) + multiset{(command, requirement)}
    {
      commands := commands + [(command, requirement)];
    }

    // Appends a message to the write buffer in the form the plugin expects.
    method Enqueue(json: string, ghost message: Link.Message)
      requires json == message.text
      modifies this`writebuffer, this`log
      ensures View() == Link.Put(old(View()), [message])
    {
      var frame := Decimal(|json|) + json + "\n";
      writebuffer := writebuffer + frame;
      log := log + [message];
      assert Link.Texts([message]) == [json];
      assert Frames([json]) == "" + Frame(json);
      assert "" + Frame(json) == frame;
    }

    method Dispatch(event: string, parameters: seq<string>)
      requires ' ' !in event
      modifies this`writebuffer, this`log
      ensures View() == Link.Next(bot, old(View()), Link.Dispatch(event, parameters))
      ensures old(Valid()) ==> Valid()
    {
      ghost var before := View();
      var json := bot.event(event, parameters);
      Enqueue(json, Link.Event(json));
      if Link.Reachable(bot, before) {
        Link.NextIsReachable(bot, before, Link.Dispatch(event, parameters));
      }
    }

    // handle, and the exception path of its caller.  The request may also change what the
    // connection is subscribed to.
    method Respond(request: string)
      modifies this`commands, this`answered, this`writebuffer, this`log
      ensures View() ==
        Link.Put(old(View()), [Link.Answer(Link.Response(bot, connection, old(answered), request))])
        .(answered := old(answered) + 1)
    {
      commands := *;
      var output := match bot.handle(connection, answered, request)
        case Returned(fields) => fields
        case Threw(partial, message) => partial["success" := "false"]["error" := bot.quote(message)];
      var json := bot.dump(output);
      Enqueue(json, Link.Answer(json));
      answered := answered + 1;
    }

    // The do loop of poll: takes every complete frame out of the buffer and answers it.  It
    // answers false if a header fails the assertion, which ends the process.
    method ParsePackets() returns (alive: bool)
      modifies this`commands, this`answered, this`waitingSize, this`readahead, this`writebuffer, this`log
      ensures
        var end := Link.Answered(bot, old(View()), Decode(old(View()).decoder));
        && (alive <==> end.decoder.Decoder?)
        && (alive ==> View() == end)
        && (!alive ==> View().(decoder := end.decoder) == end)
      ensures Link.Reported(bot, old(View()), Decode(old(View()).decoder).packets, log)
    {
      ghost var end := Link.Answered(bot, View(), Decode(View().decoder));
      Link.AnsweredReports(bot, View(), Decode(View().decoder));
      var parsedPacket := true;
      while parsedPacket
        invariant parsedPacket ==> end == Link.Answered(bot, View(), Decode(View().decoder))
        invariant !parsedPacket ==> end == View()
        decreases if parsedPacket then |readahead| + 1 else 0
      {
        ghost var before := View();
        var located := Locate();
        if !located {
          Link.AnswerNone(bot, before, Framing.Decoder.Aborted);
          return false;
        }
        parsedPacket := waitingSize != 0 && |readahead| >= waitingSize;
        if parsedPacket {
          AnswerPacket(before);
        } else {
          Link.AnswerNone(bot, before, View().decoder);
        }
      }
      return true;
    }

    // One turn, up to the test whether the frame is complete.
    method Locate() returns (readable: bool)
      modifies this`waitingSize, this`readahead
      ensures readable <==> Located(old(View()).decoder).Decoder?
      ensures readable ==> View() == old(View()).(decoder := Located(old(View()).decoder))
      ensures !readable ==> View() == old(View())
    {
      if waitingSize == 0 {
        var h := ScanHeader(readahead);
        if h.Unreadable? {
          return false;
        }
        if h.Length? {
          waitingSize := h.size;
          if waitingSize != 0 {
            readahead := readahead[h.at..];
          }
        }
      }
      return true;
    }

    // The rest of the turn, when it is.
    method AnswerPacket(ghost before: Link.State)
      requires before.decoder.Decoder?
      requires View() == before.(decoder := Located(before.decoder)) && Ready(View().decoder)
      modifies this`commands, this`answered, this`waitingSize, this`readahead, this`writebuffer, this`log
      ensures |readahead| < old(|readahead|)
      ensures Link.Answered(bot, before, Decode(before.decoder)) == Link.Answered(bot, View(), Decode(View().decoder))
    {
      ghost var l := View().decoder;
      var packet := readahead[..waitingSize];
      readahead := readahead[waitingSize..];
      waitingSize := 0;
      Respond(packet);
      DecodeTakes(before.decoder);
      Link.AnswerOne(bot, before, packet, Decode(Rest(l)));
      ghost var answer := Link.Answer(Link.Response(bot, connection, before.answered, packet));
      assert View() == Link.Put(before, [answer]).(decoder := Rest(l), answered := before.answered + 1);
    }

    // The read loop of poll.
    method ReadAll(fd: Descriptor) returns (appended: bool, gone: bool, ghost bytes: string)
      modifies fd`incoming, fd`open, this`readahead, this`received
      ensures old(fd.incoming) == bytes + fd.incoming
      ensures readahead == old(readahead) + bytes && received == old(received) + bytes
      ensures appended <==> bytes != ""
      ensures if gone then !fd.open else fd.open == old(fd.open)
    {
      appended, gone, bytes := false, false, "";
      var more := true;
      while more
        invariant old(fd.incoming) == bytes + fd.incoming
        invariant readahead == old(readahead) + bytes && received == old(received) + bytes
        invariant appended <==> bytes != ""
        invariant if gone then !fd.open && !more else fd.open == old(fd.open)
        decreases |fd.incoming|, more
      {
        var r := fd.Read();
        match r {
          case Data(chunk) =>
            appended := true;
            Regroup(old(readahead), bytes, chunk);
            Regroup(old(received), bytes, chunk);
            Regroup(bytes, chunk, fd.incoming);
            readahead := readahead + chunk;
            received := received + chunk;
            bytes := bytes + chunk;
          case EndOfFile =>
            fd.Close();
            gone, more := true, false;
          case ReadError =>
            fd.Close();
            gone, more := true, false;
          case WouldBlock =>
            more := false;
        }
      }
    }

    // The write loop of poll.
    method WriteAll(fd: Descriptor) returns (gone: bool, ghost count: nat)
      modifies fd`open, this`writebuffer, this`sent
      ensures count <= |old(writebuffer)|
      ensures View() == Link.Next(bot, old(View()), Link.Accept(count))
      ensures if gone then !fd.open else fd.open == old(fd.open)
    {
      gone, count := false, 0;
      var more := true;
      while more && writebuffer != ""
        invariant count <= |old(writebuffer)|
        invariant View() == Link.Next(bot, old(View()), Link.Accept(count))
        invariant if gone then !more && !fd.open else fd.open == old(fd.open)
        decreases |writebuffer|, more
      {
        var written := fd.Write(writebuffer);
        if written < 0 {
          var wouldBlock := *;
          if !wouldBlock {
            fd.Close();
            gone := true;
          }
          more := false;
        } else {
          sent := sent + writebuffer[..written];
          writebuffer := writebuffer[written..];
          ghost var whole := old(writebuffer);
          assert whole[..count + written] == whole[..count] + whole[count..][..written];
          count := count + written;
        }
      }
    }

    // The first half of a round of poll: read what there is and answer every request in it.
    method Receive(fd: Descriptor) returns (alive: bool, gone: bool, ghost bytes: string)
      modifies fd`incoming, fd`open
      modifies this`commands, this`answered, this`waitingSize, this`readahead, this`writebuffer
      modifies this`received, this`log
      ensures old(fd.incoming) == bytes + fd.incoming
      ensures !alive <==> bytes != "" && Feed(old(View()).decoder, bytes).end.Aborted?
      ensures if gone then !fd.open else fd.open == old(fd.open)
      ensures alive ==> View() == Link.Received(bot, old(View()), bytes)
    {
      ghost var before := View();
      var appended;
      appended, gone, bytes := ReadAll(fd);
      alive := true;
      if appended {
        Link.ArriveIsAnswered(bot, before, bytes);
        alive := ParsePackets();
      } else {
        assert readahead == before.decoder.buffer && received == before.received;
      }
    }

    // One round of poll for this socket: read what there is, answer every complete request,
    // write what the socket takes.
    method Poll(fd: Descriptor) returns (outcome: Outcome, ghost bytes: string, ghost count: nat)
      modifies fd`incoming, fd`open
      modifies this`commands, this`answered, this`waitingSize, this`readahead, this`writebuffer
      modifies this`received, this`log, this`sent
      ensures old(fd.incoming) == bytes + fd.incoming
      ensures outcome == Died <==> bytes != "" && Feed(old(View()).decoder, bytes).end.Aborted?
      ensures if outcome == Gone then !fd.open else fd.open == old(fd.open) || outcome == Died
      ensures outcome != Died ==> Link.IsRound(bot, old(View()), bytes, count, View())
      ensures outcome != Died ==>
        if bytes == "" then log == old(log)
        else Link.Reported(bot, old(View()), Feed(old(View()).decoder, bytes).packets, log)
      ensures outcome != Died && old(Valid()) ==> Valid()
    {
      ghost var before := View();
      var hungUp := *;
      if hungUp {
        fd.Close();
        Link.AcceptNone(bot, View());
        return Gone, "", 0;
      }
      var alive, gone, failed;
      alive, gone, bytes := Receive(fd);
      if !alive {
        return Died, bytes, 0;
      }
      failed, count := WriteAll(fd);
      outcome := if gone || failed then Gone else Alive;
      Link.RoundIsReachable(bot, before, bytes, count);
      if bytes != "" {
        Link.RoundReports(bot, before, bytes, count, View());
      }
    }
  }
}
