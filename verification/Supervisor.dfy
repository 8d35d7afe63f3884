/** The plugin supervisor (src/pluginmonitor.cpp) as a state machine.

    One step is one call the supervisor makes to the operating system, together
    with the assignments that follow it, or one thing that happens around it: time
    passes, a child exits, SIGCHLD is raised or its handler runs.  Every
    interleaving of the two is a run. */
module Supervisor {
  import opened Common
  import opened Settings
  import opened Backoff

  // A start attempt: when it was made and the failure count at that moment.
  datatype Start = Start(time: int, failures: nat)

  // One entry of state_.  Pid 0 means "no process".  The last field is history: the
  // start attempts since a configuration reload last cleared the failure count.
  datatype Plugin = Plugin(
    key: string,
    config: PluginConfig,
    network: string,
    autostart: bool,
    pid: nat,
    failures: nat,
    lastStart: int,
    starts: seq<Start>)

  // Where the supervisor is.  SIGCHLD is blocked from Reaping to Leaving.
  datatype Phase =
    | Idle
    | Checked
    | Reaping
    | Starting(next: nat, waiting: bool)
    | Launching(chosen: nat, waiting: bool)
    | Leaving
    | Undefined  // the wait computation left the int type

  datatype Machine = Machine(
    states: seq<Plugin>,
    shouldRun: bool,
    phase: Phase,
    reloading: bool,
    live: set<nat>,
    zombies: set<nat>,
    pending: bool,
    now: int)

  datatype Entry = Entry(key: string, config: PluginConfig, network: string)

  datatype Event =
    | Tick(time: int)
    | Exit(pid: nat)
    | Raise
    | Deliver
    | Call
    | Block
    | Reap(child: nat, time: int)
    | ReapEnd
    | Consider(time: int)
    | Launch(time: int, forked: nat)  // forked == 0: the attempt failed
    | Assign
    | Unblock
    | BeginReload(entries: seq<Entry>)
    | EndReload

  const INITIAL := Machine([], true, Idle, false, {}, {}, false, 0)

  // ----- Configuration reload -----

  // The first record that is a hit, |states| if there is none.
  function IndexWhere(states: seq<Plugin>, hit: Plugin -> bool): (i: nat)
    ensures i <= |states|
    ensures i < |states| ==> hit(states[i])
    ensures forall j | 0 <= j < i :: !hit(states[j])
  {
    if states == [] then 0
    else if hit(states[0]) then 0
    else
      var i := IndexWhere(states[1..], hit);
      assert forall j | 1 <= j < i + 1 :: states[j] == states[1..][j - 1];
      i + 1
  }

  function IndexOfKey(states: seq<Plugin>, key: string): (i: nat)
    ensures i <= |states|
    ensures i < |states| ==> states[i].key == key
    ensures forall j | 0 <= j < i :: states[j].key != key
  {
    IndexWhere(states, (p: Plugin) => p.key == key)
  }

  lemma IndexOfKeyIsFirst(states: seq<Plugin>, key: string, i: nat)
    requires i <= |states|
    requires i < |states| ==> states[i].key == key
    requires forall j | 0 <= j < i :: states[j].key != key
    ensures IndexOfKey(states, key) == i
  {
  }

  function Refreshed(p: Plugin, config: PluginConfig): Plugin {
    p.(failures := 0, autostart := true, config := config, starts := [])
  }

  function Upsert(states: seq<Plugin>, e: Entry): seq<Plugin> {
    var i := IndexOfKey(states, e.key);
    if i == |states| then
      states + [Plugin(e.key, e.config, e.network, true, 0, 0, 0, [])]
    else
      states[i := Refreshed(states[i], e.config)]
  }

  function UpsertAll(states: seq<Plugin>, entries: seq<Entry>): seq<Plugin> {
    if entries == [] then states
    else Upsert(UpsertAll(states, entries[..|entries| - 1]), entries[|entries| - 1])
  }

  lemma UpsertAllSnoc(states: seq<Plugin>, entries: seq<Entry>, e: Entry)
    ensures UpsertAll(states, entries + [e]) == Upsert(UpsertAll(states, entries), e)
  {
    assert (entries + [e])[..|entries|] == entries;
  }

  lemma {:induction false} UpsertAllConcat(states: seq<Plugin>, a: seq<Entry>, b: seq<Entry>)
    ensures UpsertAll(states, a + b) == UpsertAll(UpsertAll(states, a), b)
  {
    if b == [] {
      assert a + b == a;
    } else {
      var n := |b| - 1;
      UpsertAllConcat(states, a, b[..n]);
      SplitLast(a, b);
      UpsertAllSnoc(states, a + b[..n], b[n]);
      UpsertAllSnoc(UpsertAll(states, a), b[..n], b[n]);
    }
  }

  function Keys(entries: seq<Entry>): set<string> {
    set i | 0 <= i < |entries| :: entries[i].key
  }

  function Retire(p: Plugin, keys: set<string>): Plugin {
    if p.key !in keys && (p.pid > 0 || p.autostart) then p.(autostart := false) else p
  }

  function RetireAll(states: seq<Plugin>, keys: set<string>): seq<Plugin> {
    seq(|states|, i requires 0 <= i < |states| => Retire(states[i], keys))
  }

  function Reconfigure(states: seq<Plugin>, entries: seq<Entry>): seq<Plugin> {
    RetireAll(UpsertAll(states, entries), Keys(entries))
  }

  predicate DistinctKeys(entries: seq<Entry>) {
    forall i, j | 0 <= i < j < |entries| :: entries[i].key != entries[j].key
  }

  // ----- Steps -----

  predicate Blocked(phase: Phase) {
    phase.Reaping? || phase.Starting? || phase.Launching? || phase.Leaving?
  }

  function IndexOfPid(states: seq<Plugin>, pid: nat): (i: nat)
    ensures i <= |states|
    ensures i < |states| ==> states[i].pid == pid
    ensures forall j | 0 <= j < i :: states[j].pid != pid
  {
    IndexWhere(states, (p: Plugin) => p.pid == pid)
  }

  lemma IndexOfPidIsFirst(states: seq<Plugin>, pid: nat, i: nat)
    requires i <= |states|
    requires i < |states| ==> states[i].pid == pid
    requires forall j | 0 <= j < i :: states[j].pid != pid
    ensures IndexOfPid(states, pid) == i
  {
  }

  predicate Enabled(m: Machine, e: Event) {
    && !m.phase.Undefined?
    && match e
       case Tick(t) => t >= m.now
       case Exit(pid) => pid in m.live
       case Raise => true
       case Deliver => m.pending && !Blocked(m.phase)
       case Call => m.phase.Idle?
       case Block => m.phase.Checked?
       case Reap(child, t) => m.phase.Reaping? && child in m.zombies && t >= m.now
       case ReapEnd => m.phase.Reaping? && m.zombies == {}
       case Consider(t) => m.phase.Starting? && m.phase.next < |m.states| && t >= m.now
       case Launch(t, forked) =>
         && m.phase.Launching? && m.phase.chosen < |m.states| && t >= m.now
         && forked !in m.live + m.zombies
       case Assign => m.phase.Starting? && m.phase.next >= |m.states|
       case Unblock => m.phase.Leaving?
       case BeginReload(entries) => m.phase.Idle? && !m.reloading && DistinctKeys(entries)
       case EndReload => m.phase.Idle? && m.reloading
  }

  // The state record of a plugin whose process was just reaped.
  function Reaped(p: Plugin, time: int): Plugin {
    p.(pid := 0, failures := (if p.lastStart + RESET_FAILURE < time then 0 else p.failures) + 1)
  }

  function ReapedAt(states: seq<Plugin>, child: nat, time: int): seq<Plugin> {
    var i := IndexOfPid(states, child);
    if i == |states| then states else states[i := Reaped(states[i], time)]
  }

  // The state record after a start attempt.
  function Started(p: Plugin, time: int, forked: nat): Plugin {
    p.(lastStart := time,
       starts := p.starts + [Start(time, p.failures)],
       pid := forked,
       failures := if forked == 0 then p.failures + 1 else p.failures)
  }

  datatype Decision = Skip | Hold | Go | Overflow

  // What the start loop makes of one record.
  function Decide(p: Plugin, time: int): Decision {
    if !p.autostart || p.pid != 0 then Skip
    else match WaitSeconds(p.failures)
      case None => Overflow
      case Some(wait) => if p.lastStart + wait > time then Hold else Go
  }

  function Considered(m: Machine, time: int): Machine
    requires m.phase.Starting? && m.phase.next < |m.states|
  {
    var i, w := m.phase.next, m.phase.waiting;
    m.(now := time,
       phase := match Decide(m.states[i], time)
                case Skip => Starting(i + 1, w)
                case Hold => Starting(i + 1, true)
                case Go => Launching(i, w)
                case Overflow => Undefined)
  }

  function Launched(m: Machine, time: int, forked: nat): Machine
    requires m.phase.Launching? && m.phase.chosen < |m.states|
  {
    var i, w := m.phase.chosen, m.phase.waiting;
    m.(states := m.states[i := Started(m.states[i], time, forked)],
       live := if forked == 0 then m.live else m.live + {forked},
       phase := Starting(i + 1, w || forked == 0),
       now := time)
  }

  function Apply(m: Machine, e: Event): Machine
    requires Enabled(m, e)
  {
    match e
    case Tick(t) => m.(now := t)
    case Exit(pid) => m.(live := m.live - {pid}, zombies := m.zombies + {pid}, pending := true)
    case Raise => m.(pending := true)
    case Deliver => m.(pending := false, shouldRun := true)
    case Call => if m.shouldRun then m.(phase := Checked) else m
    case Block => m.(phase := Reaping)
    case Reap(child, t) =>
      m.(zombies := m.zombies - {child}, states := ReapedAt(m.states, child, t), now := t)
    case ReapEnd => m.(phase := Starting(0, false))
    case Consider(t) => Considered(m, t)
    case Launch(t, forked) => Launched(m, t, forked)
    case Assign => m.(phase := Leaving, shouldRun := m.phase.waiting)
    case Unblock => m.(phase := Idle)
    case BeginReload(entries) => m.(states := Reconfigure(m.states, entries), reloading := true)
    case EndReload => m.(shouldRun := true, reloading := false)
  }

  // The machine after a sequence of events, None if one of them could not happen.
  function Exec(m: Machine, events: seq<Event>): Option<Machine> {
    if events == [] then Some(m)
    else
      var n := |events| - 1;
      match Exec(m, events[..n])
      case None => None
      case Some(k) => if Enabled(k, events[n]) then Some(Apply(k, events[n])) else None
  }

  lemma {:induction false} ExecConcat(m: Machine, a: seq<Event>, b: seq<Event>)
    requires Exec(m, a).Some?
    ensures Exec(m, a + b) == Exec(Exec(m, a).value, b)
  {
    if b == [] {
      assert a + b == a;
    } else {
      var n := |b| - 1;
      ExecConcat(m, a, b[..n]);
      assert (a + b)[..|a + b| - 1] == a + b[..n];
    }
  }

  lemma ExecSnoc(m: Machine, events: seq<Event>, e: Event)
    requires Exec(m, events).Some? && Enabled(Exec(m, events).value, e)
    ensures Exec(m, events + [e]) == Some(Apply(Exec(m, events).value, e))
  {
    assert (events + [e])[..|events|] == events;
  }

  // The same as a relation: the states a run passes through, each obtained from the one
  // before it by one step.
  ghost predicate IsTrace(trace: seq<Machine>, events: seq<Event>) {
    && |trace| == |events| + 1
    && trace[0] == INITIAL
    && forall i {:trigger Stepped(trace, events, i)} | 0 <= i < |events| :: Stepped(trace, events, i)
  }

  predicate Stepped(trace: seq<Machine>, events: seq<Event>, i: nat)
    requires i < |events| && |trace| == |events| + 1
  {
    Enabled(trace[i], events[i]) && trace[i + 1] == Apply(trace[i], events[i])
  }

  ghost predicate Reaches(events: seq<Event>, m: Machine) {
    exists trace :: IsTrace(trace, events) && trace[|events|] == m
  }

  lemma ReachesNothing()
    ensures Reaches([], INITIAL)
  {
    assert IsTrace([INITIAL], []);
  }

  lemma ReachesSnoc(events: seq<Event>, m: Machine, e: Event)
    requires Reaches(events, m) && Enabled(m, e)
    ensures Reaches(events + [e], Apply(m, e))
  {
    var trace :| IsTrace(trace, events) && trace[|events|] == m;
    var trace', events' := trace + [Apply(m, e)], events + [e];
    forall i | 0 <= i < |events'| ensures Stepped(trace', events', i) {
      if i < |events| {
        assert Stepped(trace, events, i);
      }
    }
    assert IsTrace(trace', events');
  }

  lemma {:induction false} ReachesIsExec(events: seq<Event>, m: Machine)
    ensures Reaches(events, m) <==> Exec(INITIAL, events) == Some(m)
  {
    if events == [] {
      ReachesNothing();
    } else {
      var n := |events| - 1;
      var e := events[n];
      assert events == events[..n] + [e];
      if Reaches(events, m) {
        var trace :| IsTrace(trace, events) && trace[|events|] == m;
        var start, first := trace[..n + 1], events[..n];
        forall i | 0 <= i < n ensures Stepped(start, first, i) {
          assert Stepped(trace, events, i);
        }
        assert IsTrace(start, first) && start[n] == trace[n];
        assert Reaches(events[..n], trace[n]);
        ReachesIsExec(events[..n], trace[n]);
        assert Stepped(trace, events, n);
      }
      if Exec(INITIAL, events) == Some(m) {
        var k := Exec(INITIAL, events[..n]).value;
        ReachesIsExec(events[..n], k);
        ReachesSnoc(events[..n], k, e);
      }
    }
  }

  // ----- One process per plugin -----

  predicate Owned(states: seq<Plugin>, pid: nat) {
    exists i | 0 <= i < |states| :: states[i].pid == pid
  }

  // Every child, running or not yet reaped, belongs to exactly one state record.
  ghost predicate ProcessInv(m: Machine) {
    && (forall i, j | 0 <= i < j < |m.states| :: m.states[i].pid != 0 ==> m.states[i].pid != m.states[j].pid)
    && (forall i | 0 <= i < |m.states| :: m.states[i].pid != 0 ==> m.states[i].pid in m.live + m.zombies)
    && (forall pid | pid in m.live + m.zombies :: pid != 0 && Owned(m.states, pid))
    && m.live !! m.zombies
  }

  // ----- No lost wake-up -----

  predicate Up(p: Plugin) {
    p.autostart ==> p.pid != 0
  }

  predicate UpTo(states: seq<Plugin>, n: nat) {
    forall i | 0 <= i < n && i < |states| :: Up(states[i])
  }

  ghost predicate WakeInv(m: Machine) {
    && (m.phase.Idle? || m.phase.Checked? ==> m.zombies == {} || m.pending || m.shouldRun)
    && (m.phase.Starting? || m.phase.Launching? || m.phase.Leaving? ==> m.zombies == {} || m.pending)
    && (m.phase.Checked? ==> m.shouldRun)
    && (m.phase.Idle? && !m.shouldRun && !m.reloading ==> UpTo(m.states, |m.states|))
    && (m.phase.Starting? ==>
          m.phase.next <= |m.states| && (m.phase.waiting <==> !UpTo(m.states, m.phase.next)))
    && (m.phase.Launching? ==>
          && m.phase.chosen < |m.states|
          && (m.phase.waiting <==> !UpTo(m.states, m.phase.chosen))
          && var p := m.states[m.phase.chosen];
             p.autostart && p.pid == 0 && p.failures <= 29 && p.lastStart + Wait(p.failures) <= m.now)
    && (m.phase.Leaving? ==> (m.shouldRun <==> !UpTo(m.states, |m.states|)))
    && (m.phase.Undefined? ==>
          exists i | 0 <= i < |m.states| ::
            m.states[i].autostart && m.states[i].pid == 0 && m.states[i].failures >= 30)
  }

  // ----- Pacing of start attempts -----

  // Any two attempts lie as far apart as the longest wait allows, less what the short
  // first waits saved.
  ghost predicate Paced(s: seq<Start>) {
    forall i, j | 0 <= i <= j < |s| ::
      s[j].time - s[i].time >= MAX_WAIT_TIME * (j - i) - Shortfall(s[j].failures)
  }

  // The failure count climbs no faster than the waits allow.
  ghost predicate Climbing(s: seq<Start>) {
    && (|s| > 0 ==> s[0].failures <= 1)
    && forall j | 0 <= j < |s| ::
         s[j].time - s[0].time >= TotalWait(s[j].failures) - TotalWait(s[0].failures)
  }

  // How the current failure count follows from the last attempt.
  predicate Linked(p: Plugin, now: int) {
    if p.starts == [] then
      p.failures <= 1 && (p.pid != 0 ==> p.failures == 0)
    else
      var last := p.starts[|p.starts| - 1];
      && last.time == p.lastStart <= now
      && (p.pid != 0 ==> p.failures == last.failures)
      && (p.pid == 0 ==>
            p.failures == last.failures + 1 || (p.failures == 1 && now > p.lastStart + RESET_FAILURE))
  }

  ghost predicate PaceInv(m: Machine) {
    forall i | 0 <= i < |m.states| ::
      Paced(m.states[i].starts) && Climbing(m.states[i].starts) && Linked(m.states[i], m.now)
  }

  ghost predicate Inv(m: Machine) {
    ProcessInv(m) && WakeInv(m) && PaceInv(m)
  }

  // ----- The invariants hold in every reachable state -----

  // What a reload leaves alone: it adds records without a process or a start attempt and
  // otherwise touches no process, no key, no network and no time of an attempt.
  ghost predicate KeepsProcesses(before: seq<Plugin>, after: seq<Plugin>) {
    && |before| <= |after|
    && (forall i | 0 <= i < |before| ::
          && after[i].pid == before[i].pid && after[i].key == before[i].key
          && after[i].network == before[i].network && after[i].lastStart == before[i].lastStart)
    && (forall i | |before| <= i < |after| :: after[i].pid == 0 && after[i].lastStart == 0)
  }

  lemma {:induction false} UpsertAllKeepsProcesses(states: seq<Plugin>, entries: seq<Entry>)
    ensures KeepsProcesses(states, UpsertAll(states, entries))
  {
    if entries != [] {
      UpsertAllKeepsProcesses(states, entries[..|entries| - 1]);
    }
  }

  lemma ReconfigureKeepsProcesses(states: seq<Plugin>, entries: seq<Entry>)
    ensures KeepsProcesses(states, Reconfigure(states, entries))
  {
    UpsertAllKeepsProcesses(states, entries);
  }

  lemma ReconfigureProcessInv(m: Machine, entries: seq<Entry>)
    requires ProcessInv(m)
    ensures ProcessInv(m.(states := Reconfigure(m.states, entries)))
  {
    ReconfigureKeepsProcesses(m.states, entries);
    var after := Reconfigure(m.states, entries);
    forall pid | pid in m.live + m.zombies ensures Owned(after, pid) {
      var i :| 0 <= i < |m.states| && m.states[i].pid == pid;
      assert after[i].pid == pid;
    }
  }

  // A child that wait4 reports is always one of ours.
  lemma ReapFindsRecord(m: Machine, child: nat)
    requires ProcessInv(m) && child in m.zombies
    ensures child != 0 && IndexOfPid(m.states, child) < |m.states|
  {
    assert child in m.live + m.zombies;
    assert Owned(m.states, child);
  }

  lemma ReapProcessInv(m: Machine, child: nat, t: int)
    requires ProcessInv(m) && child in m.zombies
    ensures ProcessInv(m.(zombies := m.zombies - {child}, states := ReapedAt(m.states, child, t), now := t))
  {
    ReapFindsRecord(m, child);
    var after := ReapedAt(m.states, child, t);
    forall pid | pid in m.live + (m.zombies - {child}) ensures Owned(after, pid) {
      var k :| 0 <= k < |m.states| && m.states[k].pid == pid;
      assert after[k].pid == pid;
    }
  }

  lemma LaunchProcessInv(m: Machine, t: int, forked: nat)
    requires ProcessInv(m) && WakeInv(m) && Enabled(m, Launch(t, forked))
    ensures ProcessInv(Apply(m, Launch(t, forked)))
  {
    var m' := Apply(m, Launch(t, forked));
    forall pid | pid in m'.live + m'.zombies ensures pid != 0 && Owned(m'.states, pid) {
      if pid == forked {
        assert m'.states[m.phase.chosen].pid == pid;
      } else {
        var k :| 0 <= k < |m.states| && m.states[k].pid == pid;
        assert m'.states[k].pid == pid;
      }
    }
  }

  lemma ExitProcessInv(m: Machine, pid: nat)
    requires ProcessInv(m) && Enabled(m, Exit(pid))
    ensures ProcessInv(Apply(m, Exit(pid)))
  {
    assert (m.live - {pid}) + (m.zombies + {pid}) == m.live + m.zombies;
  }

  // Every other step leaves the processes and the records' pids alone.
  lemma ProcessInvFrame(m: Machine, m': Machine)
    requires ProcessInv(m)
    requires m'.states == m.states && m'.live == m.live && m'.zombies == m.zombies
    ensures ProcessInv(m')
  {
  }

  lemma ProcessStep(m: Machine, e: Event)
    requires ProcessInv(m) && WakeInv(m) && Enabled(m, e)
    ensures ProcessInv(Apply(m, e))
  {
    if e.BeginReload? {
      ReconfigureProcessInv(m, e.entries);
    } else if e.Reap? {
      ReapProcessInv(m, e.child, e.time);
    } else if e.Launch? {
      LaunchProcessInv(m, e.time, e.forked);
    } else if e.Exit? {
      ExitProcessInv(m, e.pid);
    } else {
      ProcessInvFrame(m, Apply(m, e));
    }
  }

  lemma ConsiderWakeInv(m: Machine, t: int)
    requires WakeInv(m) && Enabled(m, Consider(t))
    ensures WakeInv(Apply(m, Consider(t)))
  {
    var p := m.states[m.phase.next];
    WaitIsDefinedUpTo29(p.failures);
    if p.failures <= 29 {
      WaitIsExact(p.failures);
    }
  }

  lemma LaunchWakeInv(m: Machine, e: Event)
    requires WakeInv(m) && Enabled(m, e) && e.Launch?
    ensures WakeInv(Apply(m, e))
  {
    var i, after := m.phase.chosen, Apply(m, e).states;
    assert Up(after[i]) <==> e.forked != 0;
    if UpTo(after, i + 1) {
      assert forall j | 0 <= j < i :: after[j] == m.states[j];
    }
  }

  lemma WakeStep(m: Machine, e: Event)
    requires WakeInv(m) && Enabled(m, e)
    ensures WakeInv(Apply(m, e))
  {
    if e.Consider? {
      ConsiderWakeInv(m, e.time);
    } else if e.Launch? {
      LaunchWakeInv(m, e);
    } else {
      assert !Apply(m, e).phase.Undefined?;
    }
  }

  // One more attempt keeps the pace, whether the failure count went up by one or was
  // reset: a reset costs more than RESET_FAILURE seconds, which pays for the short waits.
  lemma StartKeepsPace(p: Plugin, now: int, t: int)
    requires Paced(p.starts) && Climbing(p.starts) && Linked(p, now)
    requires p.pid == 0 && t >= now && t >= p.lastStart + Wait(p.failures)
    ensures Paced(p.starts + [Start(t, p.failures)])
    ensures Climbing(p.starts + [Start(t, p.failures)])
  {
    var s := p.starts + [Start(t, p.failures)];
    var n := |p.starts|;
    ShortfallBounds(p.failures);
    if n > 0 {
      var last := p.starts[n - 1];
      ShortfallBounds(last.failures);
      TotalWaitBounds(last.failures);
      assert TotalWait(1) == 5 && TotalWait(0) == 0 && Shortfall(1) == 295;
      forall i | 0 <= i < n
        ensures s[n].time - s[i].time >= MAX_WAIT_TIME * (n - i) - Shortfall(s[n].failures)
      {
        assert p.starts[n - 1].time - p.starts[i].time >= MAX_WAIT_TIME * (n - 1 - i) - Shortfall(last.failures);
      }
      assert s[n].time - s[0].time >= TotalWait(s[n].failures) - TotalWait(s[0].failures) by {
        assert p.starts[n - 1].time - p.starts[0].time >= TotalWait(last.failures) - TotalWait(p.starts[0].failures);
      }
    }
  }

  lemma {:induction false} UpsertAllPaceInv(m: Machine, entries: seq<Entry>)
    requires PaceInv(m)
    ensures PaceInv(m.(states := UpsertAll(m.states, entries)))
  {
    if entries != [] {
      UpsertAllPaceInv(m, entries[..|entries| - 1]);
    }
  }

  lemma LaunchPaceInv(m: Machine, t: int, forked: nat)
    requires WakeInv(m) && PaceInv(m) && Enabled(m, Launch(t, forked))
    ensures PaceInv(Apply(m, Launch(t, forked)))
  {
    StartKeepsPace(m.states[m.phase.chosen], m.now, t);
  }

  lemma ReapedIsLinked(p: Plugin, now: int, t: int)
    requires Linked(p, now) && p.pid != 0 && t >= now
    ensures Linked(Reaped(p, t), t)
  {
  }

  lemma ReapPaceInv(m: Machine, child: nat, t: int)
    requires ProcessInv(m) && PaceInv(m) && child in m.zombies && t >= m.now
    ensures PaceInv(m.(zombies := m.zombies - {child}, states := ReapedAt(m.states, child, t), now := t))
  {
    ReapFindsRecord(m, child);
    var k := IndexOfPid(m.states, child);
    ReapedIsLinked(m.states[k], m.now, t);
  }

  lemma PaceInvFrame(m: Machine, m': Machine)
    requires PaceInv(m)
    requires m'.states == m.states && m'.now >= m.now
    ensures PaceInv(m')
  {
  }

  lemma PaceStep(m: Machine, e: Event)
    requires ProcessInv(m) && WakeInv(m) && PaceInv(m) && Enabled(m, e)
    ensures PaceInv(Apply(m, e))
  {
    if e.BeginReload? {
      UpsertAllPaceInv(m, e.entries);
    } else if e.Launch? {
      LaunchPaceInv(m, e.time, e.forked);
    } else if e.Reap? {
      ReapPaceInv(m, e.child, e.time);
    } else {
      PaceInvFrame(m, Apply(m, e));
    }
  }

  lemma {:induction false} InvHolds(events: seq<Event>)
    requires Exec(INITIAL, events).Some?
    ensures Inv(Exec(INITIAL, events).value)
  {
    if events != [] {
      var n := |events| - 1;
      InvHolds(events[..n]);
      var m := Exec(INITIAL, events[..n]).value;
      ProcessStep(m, events[n]);
      WakeStep(m, events[n]);
      PaceStep(m, events[n]);
    }
  }
}
