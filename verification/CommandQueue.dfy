/** The queue of commands waiting to be delivered, some of them until a WHOIS reply says
    whether their sender is identified (flushCommandQueue in src/plugincomm.cpp). */
module CommandQueue {
  import opened Common
  import opened PluginSocket

  // A command as it was received; id is its place among all arrivals.
  datatype Command = Command(
    id: nat,
    network: nat,
    origin: string,
    channel: string,
    command: string,
    fullArgs: string,
    args: seq<string>,
    whoisSent: bool)

  // What delivery depends on: the subscriptions of every socket, and who is identified on
  // which network.
  datatype World = World(sockets: map<nat, seq<(string, Requirement)>>, identified: set<(nat, string)>)

  predicate KnownIdentified(w: World, c: Command) {
    (c.network, c.origin) in w.identified
  }

  predicate WhoisRequired(w: World, c: Command) {
    !KnownIdentified(w, c) && exists fd | fd in w.sockets :: ChecksSender(w.sockets[fd], c.command)
  }

  // A command stays in the queue while a WHOIS is required and this is not the reply to it.
  predicate Held(w: World, nick: string, c: Command) {
    WhoisRequired(w, c) && nick != c.origin
  }

  predicate Delivers(w: World, c: Command, identified: bool, fd: nat)
    requires fd in w.sockets
  {
    Subscribed(w.sockets[fd], c.command, c.channel, c.origin, KnownIdentified(w, c) || identified, c.network)
  }

  function Targets(w: World, c: Command, identified: bool): set<nat> {
    set fd | fd in w.sockets && Delivers(w, c, identified, fd)
  }

  // A command that left the queue, and the sockets it was sent to.
  datatype Release = Release(command: Command, targets: set<nat>)

  datatype Flushed = Flushed(queue: seq<Command>, released: seq<Release>, whois: seq<Command>)

  // One flush: the commands kept, the commands released, and those a WHOIS was sent for.
  function Flush(w: World, nick: string, identified: bool, queue: seq<Command>): Flushed {
    if queue == [] then Flushed([], [], [])
    else
      var n := |queue| - 1;
      FlushOne(w, nick, identified, Flush(w, nick, identified, queue[..n]), queue[n])
  }

  function FlushOne(w: World, nick: string, identified: bool, r: Flushed, c: Command): Flushed {
    if Held(w, nick, c) then KeptBack(r, c) else SentOut(r, c, Targets(w, c, identified))
  }

  function KeptBack(r: Flushed, c: Command): Flushed {
    r.(queue := r.queue + [c.(whoisSent := true)], whois := r.whois + if c.whoisSent then [] else [c])
  }

  function SentOut(r: Flushed, c: Command, targets: set<nat>): Flushed {
    r.(released := r.released + [Release(c, targets)])
  }

  // ----- Sender gating -----

  // The promise made to plugins: a subscription that names a sender is only served commands
  // of that sender, and only if their own network reports them identified or this is the
  // positive reply to a WHOIS for that very nick.
  predicate MayReceive(w: World, c: Command, nick: string, positive: bool, r: Requirement) {
    && (r.needsNetwork ==> r.wantedNetwork == c.network)
    && (r.needsReceiver ==> r.wantedReceiver == c.channel)
    && (r.needsSender ==>
          && r.wantedSender == c.origin
          && (KnownIdentified(w, c) || (positive && nick == c.origin)))
  }

  predicate MaySend(w: World, c: Command, nick: string, positive: bool, fd: nat)
    requires fd in w.sockets
  {
    exists i | 0 <= i < |w.sockets[fd]| ::
      w.sockets[fd][i].0 == c.command && MayReceive(w, c, nick, positive, w.sockets[fd][i].1)
  }

  // The code passes the flag of the flush for every command it releases; that never reaches
  // further than the promise.
  lemma DeliveryIsAsPromised(w: World, nick: string, positive: bool, c: Command)
    requires !Held(w, nick, c)
    ensures forall fd :: fd in Targets(w, c, positive) <==> fd in w.sockets && MaySend(w, c, nick, positive, fd)
  {
    forall fd | fd in w.sockets ensures Delivers(w, c, positive, fd) <==> MaySend(w, c, nick, positive, fd) {
      var subs := w.sockets[fd];
      forall i | 0 <= i < |subs| && subs[i].0 == c.command
        ensures Admits(subs[i].1, c.channel, c.origin, KnownIdentified(w, c) || positive, c.network)
           <==> MayReceive(w, c, nick, positive, subs[i].1)
      {
        if subs[i].1.needsSender {
          assert ChecksSender(subs, c.command);
        }
      }
    }
  }

  ghost predicate AsPromised(w: World, nick: string, positive: bool, released: seq<Release>) {
    forall k | 0 <= k < |released| ::
      forall fd ::
        fd in released[k].targets <==> fd in w.sockets && MaySend(w, released[k].command, nick, positive, fd)
  }

  lemma {:induction false} SenderGating(w: World, nick: string, positive: bool, queue: seq<Command>)
    ensures AsPromised(w, nick, positive, Flush(w, nick, positive, queue).released)
  {
    if queue != [] {
      var n := |queue| - 1;
      SenderGating(w, nick, positive, queue[..n]);
      if !Held(w, nick, queue[n]) {
        DeliveryIsAsPromised(w, nick, positive, queue[n]);
      }
    }
  }

  // Whether the reply was positive changes nothing but the sockets that commands of that
  // nick go to.
  lemma {:induction false} NonInterference(w: World, nick: string, queue: seq<Command>)
    ensures
      var yes, no := Flush(w, nick, true, queue), Flush(w, nick, false, queue);
      && yes.queue == no.queue && yes.whois == no.whois && |yes.released| == |no.released|
      && forall k | 0 <= k < |yes.released| ::
           && yes.released[k].command == no.released[k].command
           && (yes.released[k].command.origin != nick ==> yes.released[k] == no.released[k])
  {
    if queue != [] {
      var n := |queue| - 1;
      var c := queue[n];
      NonInterference(w, nick, queue[..n]);
      if !Held(w, nick, c) && c.origin != nick {
        DeliveryIsAsPromised(w, nick, true, c);
        DeliveryIsAsPromised(w, nick, false, c);
        forall fd | fd in w.sockets ensures MaySend(w, c, nick, true, fd) <==> MaySend(w, c, nick, false, fd) {
          assert forall r :: MayReceive(w, c, nick, true, r) <==> MayReceive(w, c, nick, false, r);
        }
        assert Targets(w, c, true) == Targets(w, c, false);
      }
    }
  }

  // ----- The queue after a flush -----

  // A WHOIS reply is needed first: nobody vouches for the sender yet, this is not the reply
  // for that nick, and somebody subscribed to the command of particular senders only.
  predicate MustWait(w: World, nick: string, c: Command) {
    && (c.network, c.origin) !in w.identified && c.origin != nick
    && exists fd, i | fd in w.sockets && 0 <= i < |w.sockets[fd]| ::
         w.sockets[fd][i].0 == c.command && w.sockets[fd][i].1.needsSender
  }

  lemma HeldMustWait(w: World, nick: string, c: Command)
    ensures Held(w, nick, c) <==> MustWait(w, nick, c)
  {
    if Held(w, nick, c) {
      var fd :| fd in w.sockets && ChecksSender(w.sockets[fd], c.command);
      var i :| 0 <= i < |w.sockets[fd]| && w.sockets[fd][i].0 == c.command && w.sockets[fd][i].1.needsSender;
    }
    if MustWait(w, nick, c) {
      var fd, i :| fd in w.sockets && 0 <= i < |w.sockets[fd]|
                   && w.sockets[fd][i].0 == c.command && w.sockets[fd][i].1.needsSender;
      assert ChecksSender(w.sockets[fd], c.command);
    }
  }

  // Exactly those that must wait are kept, and they have been asked about.
  lemma {:induction false} KeptAreWaiting(w: World, nick: string, identified: bool, queue: seq<Command>)
    ensures
      var r := Flush(w, nick, identified, queue);
      && (forall c | c in r.queue :: MustWait(w, nick, c) && c.whoisSent)
      && forall k | 0 <= k < |r.released| :: !MustWait(w, nick, r.released[k].command)
  {
    if queue != [] {
      var n := |queue| - 1;
      var c := queue[n];
      KeptAreWaiting(w, nick, identified, queue[..n]);
      HeldMustWait(w, nick, c);
      HeldMustWait(w, nick, c.(whoisSent := true));
    }
  }

  // ----- Order and conservation -----

  datatype Key = Key(network: nat, origin: string, command: string)

  function KeyOf(c: Command): Key {
    Key(c.network, c.origin, c.command)
  }

  // A command as it arrived.
  function Arrived(c: Command): Command {
    c.(whoisSent := false)
  }

  function OfKey(k: Key, cs: seq<Command>): seq<Command> {
    if cs == [] then []
    else
      var n := |cs| - 1;
      OfKey(k, cs[..n]) + if KeyOf(cs[n]) == k then [Arrived(cs[n])] else []
  }

  function Commands(rs: seq<Release>): seq<Command> {
    seq(|rs|, i requires 0 <= i < |rs| => rs[i].command)
  }

  lemma {:induction false} OfKeyConcat(k: Key, a: seq<Command>, b: seq<Command>)
    ensures OfKey(k, a + b) == OfKey(k, a) + OfKey(k, b)
  {
    if b == [] {
      assert a + b == a;
      assert OfKey(k, a) + [] == OfKey(k, a);
    } else {
      var n := |b| - 1;
      OfKeyConcat(k, a, b[..n]);
      assert (a + b)[..|a + b| - 1] == a + b[..n];
      var own := if KeyOf(b[n]) == k then [Arrived(b[n])] else [];
      assert OfKey(k, a) + OfKey(k, b[..n]) + own == OfKey(k, a) + (OfKey(k, b[..n]) + own);
    }
  }

  // Whether commands of a key are held depends on the key alone.
  predicate KeyHeld(w: World, nick: string, k: Key) {
    && (k.network, k.origin) !in w.identified
    && (exists fd | fd in w.sockets :: ChecksSender(w.sockets[fd], k.command))
    && nick != k.origin
  }

  lemma SameKeySameFate(w: World, nick: string, c: Command)
    ensures Held(w, nick, c) <==> KeyHeld(w, nick, KeyOf(c))
  {
  }

  lemma OfKeySnoc(k: Key, cs: seq<Command>, c: Command)
    ensures OfKey(k, cs + [c]) == OfKey(k, cs) + if KeyOf(c) == k then [Arrived(c)] else []
  {
    assert (cs + [c])[..|cs|] == cs;
  }

  lemma CommandsSnoc(rs: seq<Release>, r: Release)
    ensures Commands(rs + [r]) == Commands(rs) + [r.command]
  {
  }

  // So a flush keeps all commands of a key, in order, or releases them all, in order.
  lemma {:induction false} FlushOneKey(w: World, nick: string, identified: bool, queue: seq<Command>, k: Key)
    ensures
      var r := Flush(w, nick, identified, queue);
      if KeyHeld(w, nick, k) then OfKey(k, Commands(r.released)) == [] && OfKey(k, r.queue) == OfKey(k, queue)
      else OfKey(k, Commands(r.released)) == OfKey(k, queue) && OfKey(k, r.queue) == []
  {
    if queue != [] {
      var n := |queue| - 1;
      var c, before := queue[n], Flush(w, nick, identified, queue[..n]);
      FlushOneKey(w, nick, identified, queue[..n], k);
      SameKeySameFate(w, nick, c);
      OfKeySnoc(k, before.queue, c.(whoisSent := true));
      var out := Release(c, Targets(w, c, identified));
      CommandsSnoc(before.released, out);
      OfKeySnoc(k, Commands(before.released), c);
    }
  }

  // How often a command occurs.
  function Times(cs: seq<Command>, id: nat): nat {
    if cs == [] then 0
    else Times(cs[..|cs| - 1], id) + if cs[|cs| - 1].id == id then 1 else 0
  }

  function Unsent(cs: seq<Command>, id: nat): nat {
    if cs == [] then 0
    else Unsent(cs[..|cs| - 1], id) + if cs[|cs| - 1].id == id && !cs[|cs| - 1].whoisSent then 1 else 0
  }

  lemma {:induction false} TimesConcat(a: seq<Command>, b: seq<Command>, id: nat)
    ensures Times(a + b, id) == Times(a, id) + Times(b, id)
    ensures Unsent(a + b, id) == Unsent(a, id) + Unsent(b, id)
  {
    if b == [] {
      assert a + b == a;
    } else {
      var n := |b| - 1;
      TimesConcat(a, b[..n], id);
      assert (a + b)[..|a + b| - 1] == a + b[..n];
    }
  }

  lemma TimesOne(c: Command, id: nat)
    ensures Times([c], id) == if c.id == id then 1 else 0
    ensures Unsent([c], id) == if c.id == id && !c.whoisSent then 1 else 0
  {
    assert [c][..0] == [];
  }

  lemma TimesSnoc(cs: seq<Command>, c: Command, id: nat)
    ensures Times(cs + [c], id) == Times(cs, id) + if c.id == id then 1 else 0
    ensures Unsent(cs + [c], id) == Unsent(cs, id) + if c.id == id && !c.whoisSent then 1 else 0
  {
    assert (cs + [c])[..|cs|] == cs;
  }

  // A flush loses no command and duplicates none.
  lemma {:induction false} FlushKeepsCount(w: World, nick: string, identified: bool, queue: seq<Command>, id: nat)
    ensures
      var r := Flush(w, nick, identified, queue);
      Times(Commands(r.released), id) + Times(r.queue, id) == Times(queue, id)
  {
    if queue != [] {
      var n := |queue| - 1;
      var c, before := queue[n], Flush(w, nick, identified, queue[..n]);
      FlushKeepsCount(w, nick, identified, queue[..n], id);
      if Held(w, nick, c) {
        TimesSnoc(before.queue, c.(whoisSent := true), id);
      } else {
        CommandsSnoc(before.released, Release(c, Targets(w, c, identified)));
        TimesSnoc(Commands(before.released), c, id);
      }
    }
  }

  // It sends one WHOIS for each command it keeps that had none, and no other.
  lemma {:induction false} FlushAsksOnce(w: World, nick: string, identified: bool, queue: seq<Command>, id: nat)
    ensures
      var r := Flush(w, nick, identified, queue);
      Unsent(r.queue, id) == 0 && Times(r.whois, id) + Unsent(Commands(r.released), id) == Unsent(queue, id)
  {
    if queue != [] {
      var n := |queue| - 1;
      var c, before := queue[n], Flush(w, nick, identified, queue[..n]);
      FlushAsksOnce(w, nick, identified, queue[..n], id);
      if Held(w, nick, c) {
        TimesSnoc(before.queue, c.(whoisSent := true), id);
        TimesSnoc(before.whois, c, id);
        assert before.whois + [] == before.whois;
      } else {
        CommandsSnoc(before.released, Release(c, Targets(w, c, identified)));
        TimesSnoc(Commands(before.released), c, id);
      }
    }
  }

  lemma {:induction false} UnsentAtMost(cs: seq<Command>, id: nat)
    ensures Unsent(cs, id) <= Times(cs, id)
    ensures (forall c | c in cs :: c.whoisSent) ==> Unsent(cs, id) == 0
  {
    if cs != [] {
      UnsentAtMost(cs[..|cs| - 1], id);
    }
  }

  // ----- Runs -----

  // A release together with the circumstances of its flush.
  datatype Delivery = Delivery(release: Release, world: World, nick: string, positive: bool)

  datatype Hub = Hub(
    world: World,
    queue: seq<Command>,
    arrivals: seq<Command>,
    delivered: seq<Delivery>,
    whois: seq<Command>)

  // Plugins come, subscribe and leave, and people identify, between flushes.
  datatype Event =
    | Receive(network: nat, origin: string, channel: string, command: string, fullArgs: string, args: seq<string>)
    | WhoisReply(nick: string, positive: bool)
    | Change(world: World)

  function Deliveries(w: World, nick: string, positive: bool, rs: seq<Release>): seq<Delivery> {
    seq(|rs|, i requires 0 <= i < |rs| => Delivery(rs[i], w, nick, positive))
  }

  function Flushing(h: Hub, nick: string, positive: bool): Hub {
    var r := Flush(h.world, nick, positive, h.queue);
    h.(queue := r.queue,
       delivered := h.delivered + Deliveries(h.world, nick, positive, r.released),
       whois := h.whois + r.whois)
  }

  function Enqueued(h: Hub, c: Command): Hub {
    h.(queue := h.queue + [c], arrivals := h.arrivals + [c])
  }

  function Next(h: Hub, e: Event): Hub {
    match e
    case Receive(network, origin, channel, command, fullArgs, args) =>
      var c := Command(|h.arrivals|, network, origin, channel, command, fullArgs, args, false);
      Flushing(Enqueued(h, c), "", false)
    case WhoisReply(nick, positive) => Flushing(h, nick, positive)
    case Change(world) => h.(world := world)
  }

  function Run(h: Hub, events: seq<Event>): Hub {
    if events == [] then h
    else Next(Run(h, events[..|events| - 1]), events[|events| - 1])
  }

  function Start(w: World): Hub {
    Hub(w, [], [], [], [])
  }

  function Delivered(ds: seq<Delivery>): seq<Command> {
    seq(|ds|, i requires 0 <= i < |ds| => ds[i].release.command)
  }

  lemma DeliveredConcat(w: World, nick: string, positive: bool, ds: seq<Delivery>, rs: seq<Release>)
    ensures Delivered(ds + Deliveries(w, nick, positive, rs)) == Delivered(ds) + Commands(rs)
  {
  }

  // Per key, what was delivered followed by what is queued is what arrived.
  predicate OrderedAt(h: Hub, k: Key) {
    OfKey(k, Delivered(h.delivered)) + OfKey(k, h.queue) == OfKey(k, h.arrivals)
  }

  ghost predicate Ordered(h: Hub) {
    forall k :: OrderedAt(h, k)
  }

  lemma KeepsKey(w: World, nick: string, positive: bool, ds: seq<Delivery>, rs: seq<Release>, k: Key,
      kept: seq<Command>, queue: seq<Command>)
    requires OfKey(k, Commands(rs)) + OfKey(k, kept) == OfKey(k, queue)
    ensures OfKey(k, Delivered(ds + Deliveries(w, nick, positive, rs))) + OfKey(k, kept)
         == OfKey(k, Delivered(ds)) + OfKey(k, queue)
  {
    DeliveredConcat(w, nick, positive, ds, rs);
    OfKeyConcat(k, Delivered(ds), Commands(rs));
    Regroup(OfKey(k, Delivered(ds)), OfKey(k, Commands(rs)), OfKey(k, kept));
  }

  lemma FlushingKeepsKey(h: Hub, nick: string, positive: bool, k: Key)
    ensures
      var h' := Flushing(h, nick, positive);
      OfKey(k, Delivered(h'.delivered)) + OfKey(k, h'.queue) == OfKey(k, Delivered(h.delivered)) + OfKey(k, h.queue)
  {
    var r := Flush(h.world, nick, positive, h.queue);
    FlushOneKey(h.world, nick, positive, h.queue, k);
    NothingAdded(OfKey(k, Commands(r.released)), OfKey(k, r.queue));
    KeepsKey(h.world, nick, positive, h.delivered, r.released, k, r.queue, h.queue);
  }

  lemma NothingAdded(a: seq<Command>, b: seq<Command>)
    ensures a == [] ==> a + b == b
    ensures b == [] ==> a + b == a
  {
  }

  lemma FlushingIsOrdered(h: Hub, nick: string, positive: bool)
    requires Ordered(h)
    ensures Ordered(Flushing(h, nick, positive))
  {
    forall k ensures OrderedAt(Flushing(h, nick, positive), k) {
      assert OrderedAt(h, k);
      FlushingKeepsKey(h, nick, positive, k);
    }
  }

  lemma EnqueuedKeepsKey(h: Hub, c: Command, k: Key)
    requires OrderedAt(h, k)
    ensures OrderedAt(Enqueued(h, c), k)
  {
    var own := if KeyOf(c) == k then [Arrived(c)] else [];
    OfKeySnoc(k, h.queue, c);
    OfKeySnoc(k, h.arrivals, c);
    Regroup(OfKey(k, Delivered(h.delivered)), OfKey(k, h.queue), own);
  }

  lemma EnqueuedIsOrdered(h: Hub, c: Command)
    requires Ordered(h)
    ensures Ordered(Enqueued(h, c))
  {
    forall k ensures OrderedAt(Enqueued(h, c), k) {
      assert OrderedAt(h, k);
      EnqueuedKeepsKey(h, c, k);
    }
  }

  lemma ChangeIsOrdered(h: Hub, w: World)
    requires Ordered(h)
    ensures Ordered(h.(world := w))
  {
    forall k ensures OrderedAt(h.(world := w), k) {
      assert OrderedAt(h, k);
    }
  }

  // Whatever happens between the flushes, commands of one key are delivered in the order
  // they came, each with its contents, and none is lost.
  lemma {:induction false} OrderPerKey(w: World, events: seq<Event>)
    ensures Ordered(Run(Start(w), events))
  {
    if events != [] {
      var n := |events| - 1;
      OrderPerKey(w, events[..n]);
      var h := Run(Start(w), events[..n]);
      match events[n] {
        case Receive(network, origin, channel, command, fullArgs, args) =>
          var c := Command(|h.arrivals|, network, origin, channel, command, fullArgs, args, false);
          EnqueuedIsOrdered(h, c);
          FlushingIsOrdered(Enqueued(h, c), "", false);
        case WhoisReply(nick, positive) =>
          FlushingIsOrdered(h, nick, positive);
        case Change(world) =>
          ChangeIsOrdered(h, world);
      }
    }
  }

  ghost predicate Counted(h: Hub) {
    forall id: nat ::
      && Times(h.arrivals, id) == (if id < |h.arrivals| then 1 else 0)
      && Times(Delivered(h.delivered), id) + Times(h.queue, id) == Times(h.arrivals, id)
      && Times(h.whois, id) + Unsent(h.queue, id) + Unsent(Delivered(h.delivered), id) == Times(h.arrivals, id)
  }

  lemma FlushingIsCounted(h: Hub, nick: string, positive: bool)
    requires Counted(h)
    ensures Counted(Flushing(h, nick, positive))
  {
    var h' := Flushing(h, nick, positive);
    var r := Flush(h.world, nick, positive, h.queue);
    forall id: nat
      ensures Times(Delivered(h'.delivered), id) + Times(h'.queue, id) == Times(h'.arrivals, id)
      ensures Times(h'.whois, id) + Unsent(h'.queue, id) + Unsent(Delivered(h'.delivered), id)
           == Times(h'.arrivals, id)
    {
      DeliveredConcat(h.world, nick, positive, h.delivered, r.released);
      TimesConcat(Delivered(h.delivered), Commands(r.released), id);
      TimesConcat(h.whois, r.whois, id);
      FlushKeepsCount(h.world, nick, positive, h.queue, id);
      FlushAsksOnce(h.world, nick, positive, h.queue, id);
    }
  }

  lemma EnqueuedIsCounted(h: Hub, c: Command)
    requires Counted(h) && c.id == |h.arrivals| && !c.whoisSent
    ensures Counted(Enqueued(h, c))
  {
    var h' := Enqueued(h, c);
    forall id: nat
      ensures Times(h'.arrivals, id) == if id < |h'.arrivals| then 1 else 0
      ensures Times(Delivered(h'.delivered), id) + Times(h'.queue, id) == Times(h'.arrivals, id)
      ensures Times(h'.whois, id) + Unsent(h'.queue, id) + Unsent(Delivered(h'.delivered), id)
           == Times(h'.arrivals, id)
    {
      TimesConcat(h.queue, [c], id);
      TimesConcat(h.arrivals, [c], id);
      TimesOne(c, id);
    }
  }

  lemma {:induction false} RunIsCounted(w: World, events: seq<Event>)
    ensures Counted(Run(Start(w), events))
  {
    if events != [] {
      var n := |events| - 1;
      RunIsCounted(w, events[..n]);
      var h := Run(Start(w), events[..n]);
      match events[n] {
        case Receive(network, origin, channel, command, fullArgs, args) =>
          var c := Command(|h.arrivals|, network, origin, channel, command, fullArgs, args, false);
          EnqueuedIsCounted(h, c);
          FlushingIsCounted(Enqueued(h, c), "", false);
        case WhoisReply(nick, positive) =>
          FlushingIsCounted(h, nick, positive);
        case Change(world) =>
      }
    }
  }

  // Over any run every arrival is either still queued or was delivered, exactly once.  A
  // queued one has been asked about exactly once, a delivered one if it was ever held.
  lemma DeliveredOnceWhoisOnce(w: World, events: seq<Event>, id: nat)
    requires id < |Run(Start(w), events).arrivals|
    ensures
      var h := Run(Start(w), events);
      && Times(Delivered(h.delivered), id) + Times(h.queue, id) == 1 && Times(h.whois, id) <= 1
      && (Times(h.queue, id) == 1 ==> Times(h.whois, id) == 1)
      && forall d | d in h.delivered && d.release.command.id == id ::
           Times(h.whois, id) == if d.release.command.whoisSent then 1 else 0
  {
    RunIsCounted(w, events);
    RunIsSafe(w, events);
    var h := Run(Start(w), events);
    UnsentAtMost(Delivered(h.delivered), id);
    UnsentAtMost(h.queue, id);
    forall d | d in h.delivered && d.release.command.id == id
      ensures Times(h.whois, id) == if d.release.command.whoisSent then 1 else 0
    {
      var k :| 0 <= k < |h.delivered| && h.delivered[k] == d;
      assert Delivered(h.delivered)[k] == d.release.command;
      OnlyOne(Delivered(h.delivered), id, k);
    }
  }

  lemma {:induction false} OnlyOne(cs: seq<Command>, id: nat, k: nat)
    requires k < |cs| && cs[k].id == id && Times(cs, id) <= 1
    ensures Times(cs, id) == 1 && Unsent(cs, id) == if cs[k].whoisSent then 0 else 1
  {
    var n := |cs| - 1;
    UnsentAtMost(cs[..n], id);
    if k < n {
      OnlyOne(cs[..n], id, k);
    } else if Times(cs[..n], id) > 0 {
      assert false;
    }
  }

  // What is queued between flushes has been asked about, and every delivery there has been
  // went exactly where the promise of its moment said.
  ghost predicate Safe(h: Hub) {
    && (forall c | c in h.queue :: c.whoisSent)
    && forall k | 0 <= k < |h.delivered| ::
         var d := h.delivered[k];
         forall fd ::
           fd in d.release.targets <==>
             fd in d.world.sockets && MaySend(d.world, d.release.command, d.nick, d.positive, fd)
  }

  lemma FlushingIsSafe(h: Hub, nick: string, positive: bool)
    requires Safe(h.(queue := []))
    ensures Safe(Flushing(h, nick, positive))
    ensures forall c | c in Flushing(h, nick, positive).queue :: MustWait(h.world, nick, c)
  {
    KeptAreWaiting(h.world, nick, positive, h.queue);
    SenderGating(h.world, nick, positive, h.queue);
    var r, h' := Flush(h.world, nick, positive, h.queue), Flushing(h, nick, positive);
    forall k | 0 <= k < |h'.delivered|
      ensures
        var d := h'.delivered[k];
        forall fd ::
          fd in d.release.targets <==>
            fd in d.world.sockets && MaySend(d.world, d.release.command, d.nick, d.positive, fd)
    {
      if k < |h.delivered| {
        assert h'.delivered[k] == h.(queue := []).delivered[k];
      } else {
        assert h'.delivered[k].release == r.released[k - |h.delivered|];
      }
    }
  }

  lemma {:induction false} RunIsSafe(w: World, events: seq<Event>)
    ensures Safe(Run(Start(w), events))
  {
    if events != [] {
      var n := |events| - 1;
      RunIsSafe(w, events[..n]);
      var h := Run(Start(w), events[..n]);
      match events[n] {
        case Receive(network, origin, channel, command, fullArgs, args) =>
          var c := Command(|h.arrivals|, network, origin, channel, command, fullArgs, args, false);
          FlushingIsSafe(Enqueued(h, c), "", false);
        case WhoisReply(nick, positive) =>
          FlushingIsSafe(h, nick, positive);
        case Change(world) =>
      }
    }
  }
}
