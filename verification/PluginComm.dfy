/** The command side of PluginComm in its own form (src/plugincomm.cpp): the queue is changed
    in place while it is walked, and each release writes to the sockets it is for.  The
    object keeps a history of queue events and always has the queue of that run. */
module PluginComm {
  import opened PluginSocket
  import opened CommandQueue
  import CommandLine
  import Link

  function Whoms(cs: seq<Command>): seq<(nat, string)> {
    seq(|cs|, i requires 0 <= i < |cs| => (cs[i].network, cs[i].origin))
  }

  // The parameters of the COMMAND event.
  function Parameters(nameOf: nat -> string, c: Command): seq<string> {
    [nameOf(c.network), c.origin, c.channel, c.command, c.fullArgs] + c.args
  }

  // What those say, in order: the network's name, sender, receiver, command, its arguments as
  // one text, and each of them.
  predicate Describes(ps: seq<string>, name: string, c: Command) {
    && |ps| == 5 + |c.args|
    && ps[0] == name && ps[1] == c.origin && ps[2] == c.channel && ps[3] == c.command && ps[4] == c.fullArgs
    && forall i | 0 <= i < |c.args| :: ps[5 + i] == c.args[i]
  }

  function CommandEvent(bot: Link.Bot, nameOf: nat -> string, c: Command): Link.Message {
    Link.Event(bot.event("COMMAND", Parameters(nameOf, c)))
  }

  type Links = map<nat, Link.State>

  // The connections after one release: one event for each socket it is for.
  function AfterRelease(bot: Link.Bot, nameOf: nat -> string, links: Links, r: Release): Links {
    map fd | fd in links :: AfterOne(bot, nameOf, fd, r, links[fd])
  }

  function AfterOne(bot: Link.Bot, nameOf: nat -> string, fd: nat, r: Release, s: Link.State): Link.State {
    if fd in r.targets then Link.Put(s, [CommandEvent(bot, nameOf, r.command)]) else s
  }

  function Served(bot: Link.Bot, nameOf: nat -> string, links: Links, rs: seq<Release>): Links {
    if rs == [] then links
    else AfterRelease(bot, nameOf, Served(bot, nameOf, links, rs[..|rs| - 1]), rs[|rs| - 1])
  }

  // The connections while a release is being delivered, fds being those still to come.
  function Halfway(bot: Link.Bot, nameOf: nat -> string, links: Links, r: Release, fds: set<nat>): Links {
    map fd | fd in links :: if fd in fds then links[fd] else AfterOne(bot, nameOf, fd, r, links[fd])
  }

  lemma HalfwayStep(bot: Link.Bot, nameOf: nat -> string, links: Links, r: Release, fds: set<nat>, fd: nat)
    requires fd in fds && fd in links
    ensures Halfway(bot, nameOf, links, r, fds)[fd := AfterOne(bot, nameOf, fd, r, links[fd])]
         == Halfway(bot, nameOf, links, r, fds - {fd})
  {
  }

  lemma HalfwayEnds(bot: Link.Bot, nameOf: nat -> string, links: Links, r: Release)
    ensures Halfway(bot, nameOf, links, r, links.Keys) == links
    ensures Halfway(bot, nameOf, links, r, {}) == AfterRelease(bot, nameOf, links, r)
  {
  }

  lemma ServedSnoc(bot: Link.Bot, nameOf: nat -> string, links: Links, rs: seq<Release>, r: Release)
    ensures Served(bot, nameOf, links, rs + [r]) == AfterRelease(bot, nameOf, Served(bot, nameOf, links, rs), r)
  {
    assert (rs + [r])[..|rs|] == rs;
  }

  method PickOne(s: set<nat>) returns (x: nat)
    requires s != {}
    ensures x in s
  {
    x :| x in s;
  }

  // The run, as the states it goes through.
  const NOWHERE := World(map[], {})

  ghost predicate IsTrace(events: seq<Event>, trace: seq<Hub>) {
    && |trace| == |events| + 1 && trace[0] == Start(NOWHERE)
    && forall i | 0 <= i < |events| :: trace[i + 1] == Next(trace[i], events[i])
  }

  ghost predicate Reaches(events: seq<Event>, h: Hub) {
    exists trace :: IsTrace(events, trace) && trace[|events|] == h
  }

  lemma {:induction false} TraceIsRun(events: seq<Event>, trace: seq<Hub>)
    requires IsTrace(events, trace)
    ensures trace[|events|] == Run(Start(NOWHERE), events)
  {
    if events != [] {
      var n := |events| - 1;
      TraceIsRun(events[..n], trace[..n + 1]);
      assert trace[n + 1] == Next(trace[n], events[n]);
    }
  }

  lemma ReachesSnoc(events: seq<Event>, h: Hub, e: Event)
    requires Reaches(events, h)
    ensures Reaches(events + [e], Next(h, e))
  {
    var trace :| IsTrace(events, trace) && trace[|events|] == h;
    assert IsTrace(events + [e], trace + [Next(h, e)]);
  }

  lemma ReachesExtended(events: seq<Event>, h: Hub, w: World, e: Event)
    requires Reaches(events, h)
    ensures Reaches(events + [Change(w), e], Next(h.(world := w), e))
  {
    ReachesSnoc(events, h, Change(w));
    ReachesSnoc(events + [Change(w)], h.(world := w), e);
    assert events + [Change(w), e] == events + [Change(w)] + [e];
  }

  // ----- What the plugins were told -----

  // The COMMAND events some deliveries cause on one socket.
  function EventsFor(bot: Link.Bot, nameOf: nat -> string, fd: nat, ds: seq<Delivery>): seq<string> {
    if ds == [] then []
    else
      var n := |ds| - 1;
      EventsFor(bot, nameOf, fd, ds[..n]) +
      if fd in ds[n].release.targets then [CommandEvent(bot, nameOf, ds[n].release.command).text] else []
  }

  // A text is the COMMAND event for a command.
  ghost predicate Tells(bot: Link.Bot, nameOf: nat -> string, c: Command, text: string) {
    exists ps :: Describes(ps, nameOf(c.network), c) && text == bot.event("COMMAND", ps)
  }

  // Texts are the COMMAND events for those releases that go to a socket, one each and in order.
  ghost predicate Conveys(bot: Link.Bot, nameOf: nat -> string, fd: nat, rs: seq<Release>, texts: seq<string>)
    decreases |rs|
  {
    if rs == [] then texts == []
    else
      var n, last := |rs| - 1, |texts| - 1;
      if fd in rs[n].targets then
        && texts != [] && Tells(bot, nameOf, rs[n].command, texts[last])
        && Conveys(bot, nameOf, fd, rs[..n], texts[..last])
      else Conveys(bot, nameOf, fd, rs[..n], texts)
  }

  function Releases(ds: seq<Delivery>): seq<Release> {
    seq(|ds|, i requires 0 <= i < |ds| => ds[i].release)
  }

  lemma EventTells(bot: Link.Bot, nameOf: nat -> string, c: Command)
    ensures Tells(bot, nameOf, c, CommandEvent(bot, nameOf, c).text)
  {
    assert Describes(Parameters(nameOf, c), nameOf(c.network), c);
  }

  lemma {:induction false} EventsConvey(bot: Link.Bot, nameOf: nat -> string, fd: nat, ds: seq<Delivery>)
    ensures Conveys(bot, nameOf, fd, Releases(ds), EventsFor(bot, nameOf, fd, ds))
  {
    if ds != [] {
      var n := |ds| - 1;
      EventsConvey(bot, nameOf, fd, ds[..n]);
      assert Releases(ds)[..n] == Releases(ds[..n]);
      EventTells(bot, nameOf, ds[n].release.command);
      var events, own := EventsFor(bot, nameOf, fd, ds[..n]), CommandEvent(bot, nameOf, ds[n].release.command).text;
      assert (events + [own])[..|events|] == events && events + [] == events;
    }
  }

  // What some releases add to the events of a connection, and of all of them.
  ghost predicate HeardOne(bot: Link.Bot, nameOf: nat -> string, fd: nat, before: Link.State, after: Link.State,
      rs: seq<Release>)
  {
    exists more :: Link.Events(after.log) == Link.Events(before.log) + more && Conveys(bot, nameOf, fd, rs, more)
  }

  ghost predicate Heard(bot: Link.Bot, nameOf: nat -> string, before: Links, after: Links, rs: seq<Release>) {
    before.Keys == after.Keys && forall fd | fd in before :: HeardOne(bot, nameOf, fd, before[fd], after[fd], rs)
  }

  lemma ReleaseIsHeard(bot: Link.Bot, nameOf: nat -> string, fd: nat, before: Link.State, s: Link.State,
      rs: seq<Release>)
    requires rs != [] && HeardOne(bot, nameOf, fd, before, s, rs[..|rs| - 1])
    ensures HeardOne(bot, nameOf, fd, before, AfterOne(bot, nameOf, fd, rs[|rs| - 1], s), rs)
  {
    var n := |rs| - 1;
    var more :| Link.Events(s.log) == Link.Events(before.log) + more && Conveys(bot, nameOf, fd, rs[..n], more);
    if fd in rs[n].targets {
      var event := CommandEvent(bot, nameOf, rs[n].command);
      EventTells(bot, nameOf, rs[n].command);
      assert (s.log + [event])[..|s.log|] == s.log;
      assert Link.Events(s.log + [event]) == Link.Events(before.log) + (more + [event.text]);
      assert (more + [event.text])[..|more|] == more;
      assert Conveys(bot, nameOf, fd, rs, more + [event.text]);
    } else {
      assert Conveys(bot, nameOf, fd, rs, more);
    }
  }

  lemma {:induction false} ServedIsHeard(bot: Link.Bot, nameOf: nat -> string, links: Links, rs: seq<Release>)
    ensures Heard(bot, nameOf, links, Served(bot, nameOf, links, rs), rs)
  {
    if rs == [] {
      forall fd | fd in links ensures HeardOne(bot, nameOf, fd, links[fd], links[fd], []) {
        assert Link.Events(links[fd].log) == Link.Events(links[fd].log) + [];
        assert Conveys(bot, nameOf, fd, [], []);
      }
    } else {
      var n := |rs| - 1;
      ServedIsHeard(bot, nameOf, links, rs[..n]);
      var served := Served(bot, nameOf, links, rs[..n]);
      forall fd | fd in links
        ensures HeardOne(bot, nameOf, fd, links[fd], AfterOne(bot, nameOf, fd, rs[n], served[fd]), rs)
      {
        ReleaseIsHeard(bot, nameOf, fd, links[fd], served[fd], rs);
      }
    }
  }

  lemma OneIsHeard(bot: Link.Bot, nameOf: nat -> string, links: Links, r: Release)
    ensures Heard(bot, nameOf, links, AfterRelease(bot, nameOf, links, r), [r])
  {
    ServedSnoc(bot, nameOf, links, [], r);
    assert [] + [r] == [r];
    ServedIsHeard(bot, nameOf, links, [r]);
  }

  // What becomes of the command that was queued last: it waits, and is asked about, or it
  // goes at once to exactly the sockets it is for.
  ghost predicate LastIsHandled(w: World, c: Command, r: Flushed) {
    if MustWait(w, "", c) then
      && r.queue != [] && r.queue[|r.queue| - 1] == c.(whoisSent := true)
      && r.whois != [] && r.whois[|r.whois| - 1] == c
    else
      && r.released != [] && r.released[|r.released| - 1].command == c
      && forall fd :: fd in r.released[|r.released| - 1].targets <==> fd in w.sockets && MaySend(w, c, "", false, fd)
  }

  lemma NewestIsHandled(w: World, queue: seq<Command>, c: Command)
    requires !c.whoisSent
    ensures LastIsHandled(w, c, Flush(w, "", false, queue + [c]))
  {
    assert (queue + [c])[..|queue|] == queue;
    HeldMustWait(w, "", c);
    if !Held(w, "", c) {
      DeliveryIsAsPromised(w, "", false, c);
    }
  }

  // since holds how many deliveries had been made when a socket was connected.
  ghost predicate ToldOne(bot: Link.Bot, nameOf: nat -> string, fd: nat, s: Link.State, since: nat, ds: seq<Delivery>) {
    && since <= |ds| && s.decoder.Decoder? && Link.Reachable(bot, s)
    && Link.Events(s.log) == EventsFor(bot, nameOf, fd, ds[since..])
  }

  ghost predicate Told(bot: Link.Bot, nameOf: nat -> string, links: Links, since: map<nat, nat>, ds: seq<Delivery>) {
    links.Keys == since.Keys && forall fd | fd in links :: ToldOne(bot, nameOf, fd, links[fd], since[fd], ds)
  }

  lemma EventsForSnoc(bot: Link.Bot, nameOf: nat -> string, fd: nat, ds: seq<Delivery>, d: Delivery)
    ensures EventsFor(bot, nameOf, fd, ds + [d]) ==
      EventsFor(bot, nameOf, fd, ds) +
      if fd in d.release.targets then [CommandEvent(bot, nameOf, d.release.command).text] else []
  {
    assert (ds + [d])[..|ds|] == ds;
  }

  lemma ReleaseTold(bot: Link.Bot, nameOf: nat -> string, fd: nat, s: Link.State, since: nat,
      ds: seq<Delivery>, d: Delivery)
    requires ToldOne(bot, nameOf, fd, s, since, ds)
    ensures ToldOne(bot, nameOf, fd, AfterOne(bot, nameOf, fd, d.release, s), since, ds + [d])
  {
    var c := d.release.command;
    assert (ds + [d])[since..] == ds[since..] + [d];
    EventsForSnoc(bot, nameOf, fd, ds[since..], d);
    if fd in d.release.targets {
      var step := Link.Dispatch("COMMAND", Parameters(nameOf, c));
      Link.NextIsReachable(bot, s, step);
      Link.EventsOfStep(bot, s, step);
    } else {
      assert Link.Events(s.log) + [] == Link.Events(s.log);
    }
  }

  lemma AllTold(bot: Link.Bot, nameOf: nat -> string, links: Links, since: map<nat, nat>,
      ds: seq<Delivery>, d: Delivery)
    requires Told(bot, nameOf, links, since, ds)
    ensures Told(bot, nameOf, AfterRelease(bot, nameOf, links, d.release), since, ds + [d])
  {
    var after := AfterRelease(bot, nameOf, links, d.release);
    forall fd | fd in after ensures ToldOne(bot, nameOf, fd, after[fd], since[fd], ds + [d]) {
      ReleaseTold(bot, nameOf, fd, links[fd], since[fd], ds, d);
    }
  }

  lemma DeliveriesSnoc(w: World, nick: string, positive: bool, ds: seq<Delivery>, rs: seq<Release>)
    requires rs != []
    ensures
      var n := |rs| - 1;
      ds + Deliveries(w, nick, positive, rs)
      == ds + Deliveries(w, nick, positive, rs[..n]) + [Delivery(rs[n], w, nick, positive)]
  {
  }

  lemma {:induction false} ServedTold(bot: Link.Bot, nameOf: nat -> string, links: Links, since: map<nat, nat>,
      ds: seq<Delivery>, w: World, nick: string, positive: bool, rs: seq<Release>)
    requires Told(bot, nameOf, links, since, ds)
    ensures Told(bot, nameOf, Served(bot, nameOf, links, rs), since, ds + Deliveries(w, nick, positive, rs))
  {
    if rs == [] {
      assert ds + Deliveries(w, nick, positive, []) == ds;
    } else {
      var n := |rs| - 1;
      ServedTold(bot, nameOf, links, since, ds, w, nick, positive, rs[..n]);
      DeliveriesSnoc(w, nick, positive, ds, rs);
      AllTold(bot, nameOf, Served(bot, nameOf, links, rs[..n]), since,
              ds + Deliveries(w, nick, positive, rs[..n]), Delivery(rs[n], w, nick, positive));
    }
  }

  lemma RoundTold(bot: Link.Bot, nameOf: nat -> string, fd: nat, s: Link.State, since: nat, ds: seq<Delivery>,
      bytes: string, count: nat, t: Link.State)
    requires ToldOne(bot, nameOf, fd, s, since, ds) && Link.IsRound(bot, s, bytes, count, t) && t.decoder.Decoder?
    ensures ToldOne(bot, nameOf, fd, t, since, ds)
  {
    Link.RoundIsReachable(bot, s, bytes, count);
    Link.RoundKeepsEvents(bot, s, bytes, count, t);
  }

  lemma ConnectedTold(bot: Link.Bot, nameOf: nat -> string, links: Links, since: map<nat, nat>,
      ds: seq<Delivery>, fd: nat, connection: nat)
    requires Told(bot, nameOf, links, since, ds)
    ensures Told(bot, nameOf, links[fd := Link.Opened(connection)], since[fd := |ds|], ds)
  {
    Link.OpenedIsReachable(bot, connection);
    assert ds[|ds|..] == [];
  }

  lemma ClosedTold(bot: Link.Bot, nameOf: nat -> string, links: Links, since: map<nat, nat>,
      ds: seq<Delivery>, gone: set<nat>)
    requires Told(bot, nameOf, links, since, ds)
    ensures Told(bot, nameOf, links - gone, since - gone, ds)
  {
  }

  ghost predicate Polled(bot: Link.Bot, before: Link.State, after: Link.State) {
    after.decoder.Decoder? && exists bytes, count :: Link.IsRound(bot, before, bytes, count, after)
  }

  // How a connection may change, left open while the sockets are walked.
  type Change = (Link.State, Link.State) -> bool

  ghost function Rounds(bot: Link.Bot): Change {
    (before, after) => Polled(bot, before, after)
  }

  ghost predicate Includes(change: Change, bot: Link.Bot) {
    forall before, after :: Polled(bot, before, after) ==> change(before, after)
  }

  // Every socket but those still to come had its change.
  ghost predicate Progress(change: Change, before: Links, links: Links, fds: set<nat>) {
    && before.Keys == links.Keys
    && forall fd | fd in links :: if fd in fds then links[fd] == before[fd] else change(before[fd], links[fd])
  }

  lemma ProgressStep(change: Change, before: Links, links: Links, fds: set<nat>, fd: nat, after: Link.State)
    requires Progress(change, before, links, fds) && fd in fds && fd in links && change(links[fd], after)
    ensures Progress(change, before, links[fd := after], fds - {fd})
  {
  }

  lemma ProgressTold(bot: Link.Bot, nameOf: nat -> string, before: Links, links: Links, since: map<nat, nat>,
      ds: seq<Delivery>)
    requires Told(bot, nameOf, before, since, ds) && Progress(Rounds(bot), before, links, {})
    ensures Told(bot, nameOf, links, since, ds)
  {
    forall fd | fd in links ensures ToldOne(bot, nameOf, fd, links[fd], since[fd], ds) {
      var bytes, count :| Link.IsRound(bot, before[fd], bytes, count, links[fd]);
      RoundTold(bot, nameOf, fd, before[fd], since[fd], ds, bytes, count, links[fd]);
    }
  }

  predicate Separate(devices: map<nat, Descriptor>) {
    forall a, b | a in devices && b in devices && a != b :: devices[a] != devices[b]
  }

  class PluginComm {
    const bot: Link.Bot
    const nameOf: nat -> string
    const trim: string -> string
    var sockets: map<nat, SocketInfo>
    var commandQueue: seq<Command>
    var arrived: nat
    var connected: nat  // how many sockets have been opened
    var known: set<(nat, string)>  // who is identified, as the networks report
    var asked: seq<(nat, string)>  // the WHOIS requests sent to them
    ghost var links: Links
    ghost var since: map<nat, nat>
    ghost var history: seq<Event>
    ghost var hub: Hub

    // links shows the state of every socket.
    ghost predicate Wired()
      reads this`sockets, this`links, sockets.Values
    {
      && links.Keys == sockets.Keys
      && (forall a, b | a in sockets && b in sockets && a != b :: sockets[a] != sockets[b])
      && forall fd | fd in sockets :: sockets[fd].bot == bot && sockets[fd].View() == links[fd]
    }

    twostate lemma OneChanged(fd: nat)
      requires old(Wired()) && sockets == old(sockets) && fd in sockets
      requires forall g | g in sockets && g != fd :: unchanged(sockets[g])
      requires links == old(links)[fd := sockets[fd].View()]
      ensures Wired()
    {
      forall g | g in sockets && g != fd ensures sockets[g].bot == bot && sockets[g].View() == links[g] {
        assert sockets[g].View() == old(sockets[g].View());
      }
    }

    // What delivery depends on is as w says.
    ghost predicate Sees(w: World)
      reads this`sockets, this`known, sockets.Values`commands
    {
      && w.sockets.Keys == sockets.Keys && w.identified == known
      && forall fd | fd in sockets :: w.sockets[fd] == sockets[fd].commands
    }

    ghost function Around(): (w: World)
      reads this`sockets, this`known, sockets.Values`commands
      ensures Sees(w)
    {
      World(map fd | fd in sockets :: sockets[fd].commands, known)
    }

    ghost predicate Agrees(h: Hub)
      reads this`commandQueue, this`arrived, this`asked
    {
      commandQueue == h.queue && arrived == |h.arrivals| && asked == Whoms(h.whois)
    }

    ghost predicate Valid()
      reads this, sockets.Values
    {
      && Wired()
      && Reaches(history, hub)
      && Agrees(hub)
      && Told(bot, nameOf, links, since, hub.delivered)
    }

    // So everything proved of runs holds of the object at any time; and every plugin was sent
    // exactly one COMMAND event for each release that was for it since it connected, in order.
    lemma QueueLaws()
      requires Valid()
      ensures hub == Run(Start(NOWHERE), history)
      ensures Ordered(hub) && Counted(hub) && Safe(hub)
      ensures forall c | c in commandQueue :: c.whoisSent
      ensures forall fd | fd in sockets ::
        && fd in since && since[fd] <= |hub.delivered|
        && Conveys(bot, nameOf, fd, Releases(hub.delivered[since[fd]..]), Link.Events(sockets[fd].log))
        && sockets[fd].Valid()
      ensures |asked| == |hub.whois|
      ensures forall i | 0 <= i < |asked| :: asked[i] == (hub.whois[i].network, hub.whois[i].origin)
    {
      var trace :| IsTrace(history, trace) && trace[|history|] == hub;
      TraceIsRun(history, trace);
      OrderPerKey(NOWHERE, history);
      RunIsCounted(NOWHERE, history);
      RunIsSafe(NOWHERE, history);
      forall fd | fd in sockets
        ensures ToldOne(bot, nameOf, fd, sockets[fd].View(), since[fd], hub.delivered)
        ensures Conveys(bot, nameOf, fd, Releases(hub.delivered[since[fd]..]), Link.Events(sockets[fd].log))
      {
        EventsConvey(bot, nameOf, fd, hub.delivered[since[fd]..]);
      }
    }

    constructor (bot: Link.Bot, nameOf: nat -> string, trim: string -> string)
      ensures Valid() && sockets == map[] && commandQueue == [] && history == []
      ensures this.bot == bot && this.nameOf == nameOf
    {
      this.bot, this.nameOf, this.trim := bot, nameOf, trim;
      sockets, commandQueue, arrived, connected, known, asked := map[], [], 0, 0, {}, [];
      links, since, history, hub := map[], map[], [], Start(NOWHERE);
      new;
      assert IsTrace([], [Start(NOWHERE)]);
    }

    // ----- Sockets come, are polled, and go -----

    // A plugin connected.
    method Connect(fd: nat)
      requires Valid()
      modifies this`sockets, this`connected, this`links, this`since
      ensures Valid() && fd in sockets && connected == old(connected) + 1
      ensures fresh(sockets[fd]) && sockets == old(sockets)[fd := sockets[fd]]
      ensures links == old(links)[fd := Link.Opened(old(connected))] && since == old(since)[fd := |hub.delivered|]
    {
      var info := new SocketInfo(bot, connected);
      ConnectedTold(bot, nameOf, links, since, hub.delivered, fd, connected);
      AddSocket(fd, info);
    }

    method AddSocket(fd: nat, info: SocketInfo)
      requires Wired() && info !in sockets.Values && info.bot == bot && info.View() == Link.Opened(connected)
      modifies this`sockets, this`connected, this`links, this`since
      ensures Wired() && connected == old(connected) + 1 && sockets == old(sockets)[fd := info]
      ensures links == old(links)[fd := Link.Opened(old(connected))] && since == old(since)[fd := |hub.delivered|]
    {
      sockets, links := sockets[fd := info], links[fd := Link.Opened(connected)];
      connected, since := connected + 1, since[fd := |hub.delivered|];
    }

    // The devices that were open before are still open, except those to be removed.
    ghost predicate Marked(devices: map<nat, Descriptor>, opens: map<nat, bool>, gone: set<nat>)
      reads devices.Values`open
    {
      && devices.Keys == opens.Keys && gone <= devices.Keys
      && forall fd | fd in devices :: devices[fd].open == (opens[fd] && fd !in gone)
    }

    // One round for one socket.
    method PollDevice(info: SocketInfo, device: Descriptor, ghost before: Link.State, ghost change: Change)
        returns (outcome: Outcome, ghost after: Link.State)
      requires info.bot == bot && info.View() == before && Includes(change, bot)
      modifies device`incoming, device`open
      modifies info`commands, info`answered, info`waitingSize, info`readahead, info`writebuffer
      modifies info`received, info`log, info`sent
      ensures if outcome == Gone then !device.open else device.open == old(device.open) || outcome == Died
      ensures outcome != Died ==> info.View() == after && change(before, after)
    {
      ghost var bytes, count;
      outcome, bytes, count := info.Poll(device);
      after := info.View();
    }

    // The socket is to be removed if that closed it.
    method PollOne(fd: nat, info: SocketInfo, device: Descriptor, gone: set<nat>, ghost before: Link.State,
        ghost change: Change,
        ghost devices: map<nat, Descriptor>, ghost opens: map<nat, bool>)
        returns (alive: bool, gone': set<nat>, ghost after: Link.State)
      requires info.bot == bot && info.View() == before && Includes(change, bot)
      requires Separate(devices) && fd in devices && devices[fd] == device && Marked(devices, opens, gone)
      modifies device`incoming, device`open
      modifies info`commands, info`answered, info`waitingSize, info`readahead, info`writebuffer
      modifies info`received, info`log, info`sent
      ensures alive ==> Marked(devices, opens, gone') && gone <= gone' <= gone + {fd}
      ensures alive ==> info.View() == after && change(before, after)
    {
      var outcome;
      outcome, after := PollDevice(info, device, before, change);
      alive, gone' := outcome != Died, if outcome == Gone then gone + {fd} else gone;
    }

    method PollSocket(fd: nat, info: SocketInfo, device: Descriptor, gone: set<nat>, ghost before: Link.State,
        ghost change: Change,
        ghost devices: map<nat, Descriptor>, ghost opens: map<nat, bool>)
        returns (alive: bool, gone': set<nat>, ghost after: Link.State)
      requires Includes(change, bot) && Wired() && fd in sockets && sockets[fd] == info && before == links[fd]
      requires Separate(devices) && fd in devices && devices[fd] == device && Marked(devices, opens, gone)
      modifies this`links, device`incoming, device`open
      modifies info`commands, info`answered, info`waitingSize, info`readahead, info`writebuffer
      modifies info`received, info`log, info`sent
      ensures alive ==> Marked(devices, opens, gone') && gone <= gone' <= gone + {fd}
      ensures alive ==> Wired() && links == old(links)[fd := after] && change(before, after)
    {
      alive, gone', after := PollOne(fd, info, device, gone, before, change, devices, opens);
      if alive {
        links := links[fd := after];
        OneChanged(fd);
      }
    }

    // One turn of the loop over the sockets, fds being those still to come.
    method PollTurn(fd: nat, info: SocketInfo, device: Descriptor, gone: set<nat>, ghost before: Links,
        ghost change: Change,
        ghost fds: set<nat>, ghost devices: map<nat, Descriptor>, ghost opens: map<nat, bool>)
        returns (alive: bool, gone': set<nat>)
      requires Includes(change, bot) && Wired() && Progress(change, before, links, fds) && Marked(devices, opens, gone)
      requires fd in fds && fd in sockets && sockets[fd] == info
      requires Separate(devices) && fd in devices && devices[fd] == device
      modifies this`links, device`incoming, device`open
      modifies info`commands, info`answered, info`waitingSize, info`readahead, info`writebuffer
      modifies info`received, info`log, info`sent
      ensures alive ==> Wired() && Progress(change, before, links, fds - {fd})
      ensures alive ==> Marked(devices, opens, gone') && gone <= gone' <= gone + {fd}
    {
      ghost var now, after := links, links[fd];
      alive, gone', after := PollSocket(fd, info, device, gone, now[fd], change, devices, opens);
      if alive {
        ProgressStep(change, before, now, fds, fd, after);
      }
    }

    // The loop of poll.  It stops early only if a plugin's header ends the process.
    method PollAll(devices: map<nat, Descriptor>, ghost opens: map<nat, bool>, ghost change: Change)
        returns (alive: bool, gone: set<nat>)
      requires Includes(change, bot)
      requires Wired() && sockets.Keys <= devices.Keys && Separate(devices) && Marked(devices, opens, {})
      modifies this`links, devices.Values`incoming, devices.Values`open
      modifies sockets.Values`commands, sockets.Values`answered, sockets.Values`waitingSize
      modifies sockets.Values`readahead, sockets.Values`writebuffer, sockets.Values`received
      modifies sockets.Values`log, sockets.Values`sent
      ensures alive ==> Wired() && Progress(change, old(links), links, {})
      ensures alive ==> gone <= sockets.Keys && Marked(devices, opens, gone)
    {
      alive, gone := true, {};
      var fds := sockets.Keys;
      while alive && fds != {}
        invariant fds <= sockets.Keys
        invariant alive ==> Wired() && Progress(change, old(links), links, fds)
        invariant alive ==> gone <= sockets.Keys && Marked(devices, opens, gone)
        decreases fds
      {
        var fd := PickOne(fds);
        alive, gone := PollTurn(fd, sockets[fd], devices[fd], gone, old(links), change, fds, devices, opens);
        fds := fds - {fd};
      }
    }

    method PollRound(devices: map<nat, Descriptor>, ghost opens: map<nat, bool>) returns (alive: bool, gone: set<nat>)
      requires Valid() && sockets.Keys <= devices.Keys && Separate(devices) && Marked(devices, opens, {})
      modifies this`links
      modifies devices.Values`incoming, devices.Values`open
      modifies sockets.Values`commands, sockets.Values`answered, sockets.Values`waitingSize
      modifies sockets.Values`readahead, sockets.Values`writebuffer, sockets.Values`received
      modifies sockets.Values`log, sockets.Values`sent
      ensures alive ==> Valid() && Progress(Rounds(bot), old(links), links, {})
      ensures alive ==> gone <= sockets.Keys && Marked(devices, opens, gone)
    {
      ghost var before := links;
      alive, gone := PollAll(devices, opens, Rounds(bot));
      if alive {
        ProgressTold(bot, nameOf, before, links, since, hub.delivered);
      }
    }

    // poll: every socket has one round, and exactly those that this closed are forgotten.
    method Poll(devices: map<nat, Descriptor>, ghost opens: map<nat, bool>)
        returns (alive: bool, gone: set<nat>, ghost polled: Links)
      requires Valid() && sockets.Keys <= devices.Keys && Separate(devices) && Marked(devices, opens, {})
      modifies this`sockets, this`links, this`since
      modifies devices.Values`incoming, devices.Values`open
      modifies sockets.Values`commands, sockets.Values`answered, sockets.Values`waitingSize
      modifies sockets.Values`readahead, sockets.Values`writebuffer, sockets.Values`received
      modifies sockets.Values`log, sockets.Values`sent
      ensures alive ==> Valid() && sockets == old(sockets) - gone
      ensures alive ==> gone <= old(sockets).Keys && Marked(devices, opens, gone)
      ensures alive ==> Progress(Rounds(bot), old(links), polled, {}) && links == polled - gone
    {
      alive, gone := PollRound(devices, opens);
      polled := links;
      if alive {
        Disconnect(gone);
      }
    }

    method Disconnect(gone: set<nat>)
      requires Valid()
      modifies this`sockets, this`links, this`since
      ensures Valid() && sockets == old(sockets) - gone && links == old(links) - gone
    {
      ClosedTold(bot, nameOf, links, since, hub.delivered, gone);
      since := since - gone;
      Forget(gone);
    }

    method Forget(gone: set<nat>)
      requires Wired()
      modifies this`sockets, this`links
      ensures Wired() && sockets == old(sockets) - gone && links == old(links) - gone
    {
      sockets, links := sockets - gone, links - gone;
    }

    // ----- flushCommandQueue -----

    method IsIdentified(c: Command, ghost w: World) returns (identified: bool)
      requires w.identified == known
      ensures identified <==> KnownIdentified(w, c)
    {
      identified := (c.network, c.origin) in known;
    }

    // The first inner loop.
    method NeedsWhois(c: Command, ghost w: World) returns (required: bool)
      requires Sees(w)
      ensures required <==> WhoisRequired(w, c)
    {
      required := false;
      var fds := sockets.Keys;
      while fds != {}
        invariant fds <= sockets.Keys
        invariant required ==> WhoisRequired(w, c)
        invariant !required && !KnownIdentified(w, c) ==>
          forall fd | fd in w.sockets && fd !in fds :: !ChecksSender(w.sockets[fd], c.command)
        decreases fds
      {
        var fd := PickOne(fds);
        var might := sockets[fd].CommandMightNeedWhois(c.command);
        var identified := IsIdentified(c, w);
        assert w.sockets[fd] == sockets[fd].commands;
        if might && !identified {
          required := true;
        }
        fds := fds - {fd};
      }
    }

    // What the COMMAND event will say.
    method CollectParameters(c: Command) returns (parameters: seq<string>)
      ensures Describes(parameters, nameOf(c.network), c) && parameters == Parameters(nameOf, c)
    {
      parameters := [nameOf(c.network), c.origin, c.channel, c.command, c.fullArgs];
      var i := 0;
      while i < |c.args|
        invariant i <= |c.args|
        invariant parameters == [nameOf(c.network), c.origin, c.channel, c.command, c.fullArgs] + c.args[..i]
      {
        parameters := parameters + [c.args[i]];
        i := i + 1;
      }
    }

    // The second: the command goes to every socket that subscribed to it.
    method Deliver(c: Command, identified: bool, ghost w: World)
      requires Wired() && Sees(w)
      modifies this`links, sockets.Values`writebuffer, sockets.Values`log
      ensures Wired() && Sees(w)
      ensures links == AfterRelease(bot, nameOf, old(links), Release(c, Targets(w, c, identified)))
      ensures Heard(bot, nameOf, old(links), links, [Release(c, Targets(w, c, identified))])
    {
      var parameters := CollectParameters(c);
      ghost var before := links;
      DeliverParameters(c, identified, parameters, w);
      OneIsHeard(bot, nameOf, before, Release(c, Targets(w, c, identified)));
    }

    method DeliverParameters(c: Command, identified: bool, parameters: seq<string>, ghost w: World)
      requires Wired() && Sees(w) && parameters == Parameters(nameOf, c)
      modifies this`links, sockets.Values`writebuffer, sockets.Values`log
      ensures Wired() && Sees(w)
      ensures links == AfterRelease(bot, nameOf, old(links), Release(c, Targets(w, c, identified)))
    {
      ghost var before, r := links, Release(c, Targets(w, c, identified));
      var fds := sockets.Keys;
      HalfwayEnds(bot, nameOf, before, r);
      while fds != {}
        invariant fds <= sockets.Keys && Wired() && Sees(w)
        invariant links == Halfway(bot, nameOf, before, r, fds)
        decreases fds
      {
        var fd := PickOne(fds);
        DeliverTo(fd, sockets[fd], c, identified, parameters, w);
        HalfwayStep(bot, nameOf, before, r, fds, fd);
        fds := fds - {fd};
      }
    }

    method DeliverTo(fd: nat, info: SocketInfo, c: Command, identified: bool, parameters: seq<string>, ghost w: World)
      requires Wired() && Sees(w) && parameters == Parameters(nameOf, c)
      requires fd in sockets && sockets[fd] == info
      modifies this`links, info`writebuffer, info`log
      ensures Wired() && Sees(w)
      ensures links == old(links)[fd :=
        AfterOne(bot, nameOf, fd, Release(c, Targets(w, c, identified)), old(links)[fd])]
    {
      Tell(fd, info, c, identified, parameters, w);
      links := links[fd := info.View()];
      OneChanged(fd);
    }

    method Tell(fd: nat, info: SocketInfo, c: Command, identified: bool, parameters: seq<string>, ghost w: World)
      requires info.bot == bot && parameters == Parameters(nameOf, c)
      requires fd in w.sockets && w.sockets[fd] == info.commands && w.identified == known
      modifies info`writebuffer, info`log
      ensures info.View() == AfterOne(bot, nameOf, fd, Release(c, Targets(w, c, identified)), old(info.View()))
    {
      var own := IsIdentified(c, w);
      var subscribed := info.IsSubscribedToCommand(c.command, c.channel, c.origin, own || identified, c.network);
      if subscribed {
        info.Dispatch("COMMAND", parameters);
      }
    }

    method MustWait(c: Command, nick: string, ghost w: World) returns (held: bool)
      requires Sees(w)
      ensures held <==> Held(w, nick, c)
    {
      var required := NeedsWhois(c, w);
      held := required && nick != c.origin;
    }

    // The WHOIS a held command causes.
    function Asks(c: Command): seq<(nat, string)> {
      if c.whoisSent then [] else [(c.network, c.origin)]
    }

    method AskOnce(i: nat)
      requires i < |commandQueue|
      modifies this`commandQueue, this`asked
      ensures commandQueue == old(commandQueue)[i := old(commandQueue)[i].(whoisSent := true)]
      ensures asked == old(asked) + Asks(old(commandQueue)[i])
    {
      var c := commandQueue[i];
      if !c.whoisSent {
        asked := asked + [(c.network, c.origin)];  // sendWhois
        commandQueue := commandQueue[i := c.(whoisSent := true)];
      }
    }

    // What one turn of the outer loop does with the command at i.  The index stays where it
    // is when the command is removed.
    ghost predicate Turned(w: World, nick: string, identified: bool, i: nat, queue: seq<Command>,
        asked: seq<(nat, string)>, links: Links,
        i': nat, queue': seq<Command>, asked': seq<(nat, string)>, links': Links)
      requires i < |queue|
    {
      var c := queue[i];
      if Held(w, nick, c) then
        i' == i + 1 && queue' == queue[i := c.(whoisSent := true)] && asked' == asked + Asks(c) && links' == links
      else
        && i' == i && queue' == queue[..i] + queue[i + 1..] && asked' == asked
        && links' == AfterRelease(bot, nameOf, links, Release(c, Targets(w, c, identified)))
    }

    method FlushTurn(i: nat, nick: string, identified: bool, ghost w: World) returns (i': nat)
      requires Wired() && Sees(w) && i < |commandQueue|
      modifies this`commandQueue, this`links, this`asked, sockets.Values`writebuffer, sockets.Values`log
      ensures Wired() && Sees(w)
      ensures Turned(w, nick, identified, i, old(commandQueue), old(asked), old(links), i', commandQueue, asked, links)
    {
      var held := MustWait(commandQueue[i], nick, w);
      if held {
        AskOnce(i);
        i' := i + 1;
      } else {
        SendNow(i, identified, w);
        i' := i;
      }
    }

    method SendNow(i: nat, identified: bool, ghost w: World)
      requires Wired() && Sees(w) && i < |commandQueue|
      modifies this`commandQueue, this`links, sockets.Values`writebuffer, sockets.Values`log
      ensures Wired() && Sees(w) && commandQueue == old(commandQueue)[..i] + old(commandQueue)[i + 1..]
      ensures links ==
        AfterRelease(bot, nameOf, old(links),
                     Release(old(commandQueue)[i], Targets(w, old(commandQueue)[i], identified)))
    {
      var c := commandQueue[i];
      commandQueue := commandQueue[..i] + commandQueue[i + 1..];
      Deliver(c, identified, w);
    }

    // How far a flush has come after k of the commands it found, i being the loop's index.
    ghost predicate SoFar(w: World, nick: string, identified: bool, queue: seq<Command>, k: nat, r: Flushed,
        i: nat, now: seq<Command>, asked: seq<(nat, string)>, asked': seq<(nat, string)>, links: Links, links': Links)
      requires k <= |queue|
    {
      && r == Flush(w, nick, identified, queue[..k])
      && now == r.queue + queue[k..] && i == |r.queue|
      && asked' == asked + Whoms(r.whois)
      && links' == Served(bot, nameOf, links, r.released)
    }

    lemma OneTurn(w: World, nick: string, identified: bool, queue: seq<Command>, k: nat, r: Flushed,
        i: nat, now: seq<Command>, asked: seq<(nat, string)>, asked1: seq<(nat, string)>, links: Links, links1: Links,
        i': nat, now': seq<Command>, asked2: seq<(nat, string)>, links2: Links)
      requires k < |queue| && SoFar(w, nick, identified, queue, k, r, i, now, asked, asked1, links, links1)
      requires i < |now| && Turned(w, nick, identified, i, now, asked1, links1, i', now', asked2, links2)
      ensures SoFar(w, nick, identified, queue, k + 1, FlushOne(w, nick, identified, r, queue[k]),
        i', now', asked, asked2, links, links2)
    {
      var c := queue[k];
      FlushSnoc(w, nick, identified, queue, k);
      if Held(w, nick, c) {
        OneKept(r.queue, queue, k, c.(whoisSent := true));
        OneMoreAsked(r.whois, c, asked);
      } else {
        OneGone(r.queue, queue, k);
        ServedSnoc(bot, nameOf, links, r.released, Release(c, Targets(w, c, identified)));
      }
    }

    lemma AllDone(w: World, nick: string, identified: bool, queue: seq<Command>, k: nat, r: Flushed,
        i: nat, now: seq<Command>, asked: seq<(nat, string)>, asked': seq<(nat, string)>, links: Links, links': Links)
      requires k <= |queue| && SoFar(w, nick, identified, queue, k, r, i, now, asked, asked', links, links')
      requires i >= |now|
      ensures r == Flush(w, nick, identified, queue) && now == r.queue
    {
      assert queue[..k] == queue;
    }

    lemma OneKept(done: seq<Command>, queue: seq<Command>, k: nat, c: Command)
      requires k < |queue|
      ensures (done + queue[k..])[|done|] == queue[k]
      ensures (done + queue[k..])[|done| := c] == done + [c] + queue[k + 1..]
    {
    }

    lemma OneGone(done: seq<Command>, queue: seq<Command>, k: nat)
      requires k < |queue|
      ensures (done + queue[k..])[|done|] == queue[k]
      ensures (done + queue[k..])[..|done|] + (done + queue[k..])[|done| + 1..] == done + queue[k + 1..]
    {
    }

    lemma OneMoreAsked(whois: seq<Command>, c: Command, asked: seq<(nat, string)>)
      ensures asked + Whoms(whois + if c.whoisSent then [] else [c]) == asked + Whoms(whois) + Asks(c)
    {
      assert whois + [] == whois && asked + Whoms(whois) + [] == asked + Whoms(whois);
      assert Whoms(whois + [c]) == Whoms(whois) + [(c.network, c.origin)];
    }

    method FlushCommandQueue(nick: string, identified: bool, ghost w: World) returns (ghost r: Flushed)
      requires Wired() && Sees(w)
      modifies this`commandQueue, this`links, this`asked, sockets.Values`writebuffer, sockets.Values`log
      ensures Wired() && Sees(w)
      ensures r == Flush(w, nick, identified, old(commandQueue))
      ensures commandQueue == r.queue
      ensures asked == old(asked) + Whoms(r.whois)
      ensures links == Served(bot, nameOf, old(links), r.released)
      ensures Heard(bot, nameOf, old(links), links, r.released)
    {
      ghost var queue, asked0, links0, k := commandQueue, asked, links, 0;
      r := Flushed([], [], []);
      var i: nat := 0;
      while i < |commandQueue|
        invariant k <= |queue| && Wired() && Sees(w)
        invariant SoFar(w, nick, identified, queue, k, r, i, commandQueue, asked0, asked, links0, links)
        decreases |queue| - k
      {
        ghost var i1, now, asked1, links1 := i, commandQueue, asked, links;
        i := FlushTurn(i, nick, identified, w);
        OneTurn(w, nick, identified, queue, k, r, i1, now, asked0, asked1, links0, links1,
                i, commandQueue, asked, links);
        r := FlushOne(w, nick, identified, r, queue[k]);
        k := k + 1;
      }
      AllDone(w, nick, identified, queue, k, r, i, commandQueue, asked0, asked, links0, links);
      ServedIsHeard(bot, nameOf, links0, r.released);
    }

    lemma FlushSnoc(w: World, nick: string, identified: bool, queue: seq<Command>, k: nat)
      requires k < |queue|
      ensures Flush(w, nick, identified, queue[..k + 1])
           == FlushOne(w, nick, identified, Flush(w, nick, identified, queue[..k]), queue[k])
    {
      assert queue[..k + 1][..k] == queue[..k];
    }

    // ----- The two events that flush the queue -----

    // A flush that is part of event e of the run, h being the run's state just before it.
    method FlushFor(ghost e: Event, ghost h: Hub, nick: string, positive: bool) returns (ghost r: Flushed)
      requires Wired() && Sees(h.world) && Agrees(h) && Told(bot, nameOf, links, since, h.delivered)
      requires Reaches(history + [Change(h.world), e], Flushing(h, nick, positive))
      modifies this`commandQueue, this`links, this`history, this`hub
      modifies this`asked, sockets.Values`writebuffer, sockets.Values`log
      ensures Valid() && Sees(h.world) && history == old(history) + [Change(h.world), e]
      ensures r == Flush(h.world, nick, positive, h.queue)
      ensures links == Served(bot, nameOf, old(links), r.released)
    {
      r := FlushTelling(h, nick, positive);
      Record(e, h, nick, positive, r);
    }

    method FlushTelling(ghost h: Hub, nick: string, positive: bool) returns (ghost r: Flushed)
      requires Wired() && Sees(h.world) && Agrees(h) && Told(bot, nameOf, links, since, h.delivered)
      modifies this`commandQueue, this`links, this`asked, sockets.Values`writebuffer, sockets.Values`log
      ensures Wired() && Sees(h.world) && commandQueue == r.queue && asked == Whoms(h.whois) + Whoms(r.whois)
      ensures r == Flush(h.world, nick, positive, h.queue)
      ensures Told(bot, nameOf, links, since, h.delivered + Deliveries(h.world, nick, positive, r.released))
      ensures links == Served(bot, nameOf, old(links), r.released)
    {
      ghost var before := links;
      r := FlushCommandQueue(nick, positive, h.world);
      ServedTold(bot, nameOf, before, since, h.delivered, h.world, nick, positive, r.released);
    }

    ghost method Record(e: Event, h: Hub, nick: string, positive: bool, r: Flushed)
      requires Wired() && commandQueue == r.queue && arrived == |h.arrivals|
      requires asked == Whoms(h.whois) + Whoms(r.whois) && r == Flush(h.world, nick, positive, h.queue)
      requires Reaches(history + [Change(h.world), e], Flushing(h, nick, positive))
      requires Told(bot, nameOf, links, since, h.delivered + Deliveries(h.world, nick, positive, r.released))
      modifies this`history, this`hub
      ensures Valid() && history == old(history) + [Change(h.world), e]
    {
      WhomsConcat(h.whois, r.whois);
      history, hub := history + [Change(h.world), e], Flushing(h, nick, positive);
    }

    // The WHOIS branch of ircEvent.
    method WhoisResult(nick: string, positive: bool) returns (ghost r: Flushed)
      requires Valid()
      modifies this`commandQueue, this`links, this`history, this`hub
      modifies this`asked, sockets.Values`writebuffer, sockets.Values`log
      ensures Valid() && Sees(old(Around()))
      ensures history == old(history) + [Change(old(Around())), WhoisReply(nick, positive)]
      ensures r == Flush(old(Around()), nick, positive, old(commandQueue))
      ensures Heard(bot, nameOf, old(links), links, r.released)
    {
      ghost var w := Around();
      ReachesExtended(history, hub, w, WhoisReply(nick, positive));
      ghost var before := links;
      r := FlushFor(WhoisReply(nick, positive), hub.(world := w), nick, positive);
      ServedIsHeard(bot, nameOf, before, r.released);
    }

    // messageReceived, given what follows the bot's name or the highlight character.
    method MessageReceived(origin: string, payload: string, receiver: string, network: nat)
        returns (ghost words: seq<string>, ghost rest: string, ghost r: Flushed)
      requires Valid()
      modifies this`commandQueue, this`arrived, this`links, this`history, this`hub
      modifies this`asked, sockets.Values`writebuffer, sockets.Values`log
      ensures Valid() && Sees(old(Around()))
      ensures words == CommandLine.Words(payload) && rest == CommandLine.FullArgs(payload)
      ensures words == [] ==> r == Flushed(old(commandQueue), [], []) && history == old(history)
      ensures words != [] ==>
        var c := Command(old(arrived), network, origin, receiver, words[0], trim(rest), words[1..], false);
        && r == Flush(old(Around()), "", false, old(commandQueue) + [c])
        && LastIsHandled(old(Around()), c, r)
        && history == old(history) + [Change(old(Around())), AsReceived(c)]
      ensures Heard(bot, nameOf, old(links), links, r.released)
    {
      ghost var w := Around();
      var args, fullArgs := Split(payload);
      words, rest := args, fullArgs;
      ghost var queue, number, before := commandQueue, arrived, links;
      r := WordsReceived(origin, args, fullArgs, receiver, network, w);
      ServedIsHeard(bot, nameOf, before, r.released);
      if words != [] {
        NewestIsHandled(w, queue, Command(number, network, origin, receiver, words[0], trim(rest), words[1..], false));
      }
    }

    method WordsReceived(origin: string, words: seq<string>, rest: string, receiver: string, network: nat,
        ghost w: World) returns (ghost r: Flushed)
      requires Valid() && Sees(w)
      modifies this`commandQueue, this`arrived, this`links, this`history, this`hub
      modifies this`asked, sockets.Values`writebuffer, sockets.Values`log
      ensures Valid() && Sees(w)
      ensures words == [] ==> r == Flushed(old(commandQueue), [], []) && history == old(history)
      ensures words != [] ==>
        var c := Command(old(arrived), network, origin, receiver, words[0], trim(rest), words[1..], false);
        r == Flush(w, "", false, old(commandQueue) + [c]) && history == old(history) + [Change(w), AsReceived(c)]
      ensures links == Served(bot, nameOf, old(links), r.released)
    {
      if |words| > 0 {
        r := EnqueueCommand(Command(arrived, network, origin, receiver, words[0], trim(rest), words[1..], false), w);
      } else {
        r := Flushed(commandQueue, [], []);
      }
    }

    method Split(payload: string) returns (args: seq<string>, fullArgs: string)
      ensures args == CommandLine.Words(payload) && fullArgs == CommandLine.FullArgs(payload)
    {
      args, fullArgs := [], "";
      if |payload| != 0 {
        args, fullArgs := CommandLine.Tokenise(payload);
      }
    }

    method EnqueueCommand(c: Command, ghost w: World) returns (ghost r: Flushed)
      requires Valid() && Sees(w) && c.id == arrived && !c.whoisSent
      modifies this`commandQueue, this`arrived, this`links, this`history, this`hub
      modifies this`asked, sockets.Values`writebuffer, sockets.Values`log
      ensures Valid() && Sees(w) && history == old(history) + [Change(w), AsReceived(c)]
      ensures r == Flush(w, "", false, old(commandQueue) + [c])
      ensures links == Served(bot, nameOf, old(links), r.released)
    {
      ghost var h := hub.(world := w);
      ReachesReceived(history, hub, w, c);
      Push(c, h);
      r := FlushFor(AsReceived(c), Enqueued(h, c), "", false);
    }

    method Push(c: Command, ghost h: Hub)
      requires Wired() && Sees(h.world) && Agrees(h)
      modifies this`commandQueue, this`arrived
      ensures Wired() && Sees(h.world) && Agrees(Enqueued(h, c))
    {
      commandQueue, arrived := commandQueue + [c], arrived + 1;
    }
  }

  function AsReceived(c: Command): Event {
    Receive(c.network, c.origin, c.channel, c.command, c.fullArgs, c.args)
  }

  lemma ReachesReceived(events: seq<Event>, h: Hub, w: World, c: Command)
    requires Reaches(events, h) && c.id == |h.arrivals| && !c.whoisSent
    ensures Reaches(events + [Change(w), AsReceived(c)], Flushing(Enqueued(h.(world := w), c), "", false))
  {
    ReachesExtended(events, h, w, AsReceived(c));
  }

  lemma WhomsConcat(a: seq<Command>, b: seq<Command>)
    ensures Whoms(a + b) == Whoms(a) + Whoms(b)
  {
  }
}
