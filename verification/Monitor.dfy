/** The supervisor in its own form: PluginMonitor and its PluginState records, updated in
    place (src/pluginmonitor.cpp).  Every method extends a history of machine events, and
    the object always looks like the machine after that history; so what holds of every
    run of the machine holds of the object. */
module Monitor {
  import opened Common
  import opened Settings
  import opened Backoff
  import opened Supervisor
  import opened SupervisorSafety
  import opened StartTurns

  class PluginState {
    const key: string
    const network: string
    var config: PluginConfig
    var willAutostart: bool
    var pid: nat
    var numFailures: nat
    var lastStart: int
    ghost var starts: seq<Start>

    constructor (key: string, config: PluginConfig, network: string)
      requires config.perNetwork <==> |network| > 0
      ensures Record() == Plugin(key, config, network, true, 0, 0, 0, [])
    {
      this.key, this.config, this.network := key, config, network;
      willAutostart, pid, numFailures, lastStart, starts := true, 0, 0, 0, [];
    }

    ghost function Record(): Plugin
      reads this
    {
      Plugin(key, config, network, willAutostart, pid, numFailures, lastStart, starts)
    }

    // What the reap loop does to the record of a child that exited.
    method NoteExit(time: int)
      modifies this
      ensures Record() == Reaped(old(Record()), time)
      ensures pid == 0 && numFailures == if time - lastStart > 3600 then 1 else old(numFailures) + 1
    {
      pid := 0;
      if lastStart + RESET_FAILURE < time {
        // more than RESET_FAILURE seconds after the last attempt: a failure of its own
        numFailures := 0;
      }
      numFailures := numFailures + 1;
    }

    // What a reload does to a record whose plugin is still configured.
    method Refresh(config: PluginConfig)
      modifies this
      ensures Record() == Refreshed(old(Record()), config)
    {
      numFailures, willAutostart, this.config, starts := 0, true, config, [];
    }

    // plugin_failed, which is only ever called for failures that are not permanent.
    method PluginFailed()
      modifies this`numFailures
      ensures numFailures == old(numFailures) + 1
    {
      numFailures := numFailures + 1;
    }
  }

  // What the operating system keeps for the supervisor.
  class Kernel {
    var live: set<nat>
    var zombies: set<nat>
    var pending: bool
    var blocked: bool
    var now: int

    constructor ()
      ensures live == {} && zombies == {} && !pending && !blocked && now == 0
    {
      live, zombies, pending, blocked, now := {}, {}, false, false, 0;
    }
  }

  // The events of a call of runOnce that got past its first test: one pass over all phases.
  predicate FullPass(events: seq<Event>) {
    && |events| >= 2
    && events[0].Call? && events[|events| - 1].Unblock?
    && forall i | 1 <= i < |events| :: !events[i].Call? && !events[i].BeginReload? && !events[i].EndReload?
  }

  // Events of a pass after its first one.
  predicate WithinPass(events: seq<Event>) {
    forall i | 0 <= i < |events| :: !events[i].Call? && !events[i].BeginReload? && !events[i].EndReload?
  }

  // The events of one call of runOnce.
  predicate OneCall(events: seq<Event>) {
    events == [Call] || FullPass(events)
  }

  // One round of kill_plugins: what happens during the pause, then a call of runOnce.
  ghost predicate IsRound(events: seq<Event>) {
    exists k | 0 <= k <= |events| :: WithinPass(events[..k]) && OneCall(events[k..])
  }

  function Names(entries: seq<Entry>): seq<string> {
    seq(|entries|, i requires 0 <= i < |entries| => entries[i].key)
  }

  lemma OneMore(records: seq<Plugin>, entries: seq<Entry>, i: nat)
    requires i < |entries|
    ensures UpsertAll(records, entries[..i + 1]) == Upsert(UpsertAll(records, entries[..i]), entries[i])
    ensures Names(entries[..i + 1]) == Names(entries[..i]) + [entries[i].key]
  {
    assert entries[..i + 1] == entries[..i] + [entries[i]];
    UpsertAllSnoc(records, entries[..i], entries[i]);
  }

  lemma NamesAreKeys(entries: seq<Entry>)
    ensures forall key :: key in Names(entries) <==> key in Keys(entries)
  {
    forall key ensures key in Names(entries) <==> key in Keys(entries) {
      if key in Keys(entries) {
        var i :| 0 <= i < |entries| && entries[i].key == key;
        assert Names(entries)[i] == key;
      }
    }
  }

  lemma NamesConcat(a: seq<Entry>, b: seq<Entry>)
    ensures Names(a + b) == Names(a) + Names(b)
  {
  }

  lemma EntriesSnoc(states: seq<Plugin>, plugins: seq<PluginConfig>, networks: seq<NetworkConfig>, i: nat)
    requires i < |plugins|
    ensures
      var before, own := Entries(plugins[..i], networks), PluginEntries(plugins[i], networks);
      var after := Entries(plugins[..i + 1], networks);
      && UpsertAll(states, after) == UpsertAll(UpsertAll(states, before), own)
      && Names(after) == Names(before) + Names(own)
  {
    var before, own := Entries(plugins[..i], networks), PluginEntries(plugins[i], networks);
    assert plugins[..i + 1][..i] == plugins[..i];
    assert Entries(plugins[..i + 1], networks) == before + own;
    UpsertAllConcat(states, before, own);
    NamesConcat(before, own);
  }

  class PluginMonitor {
    const kernel: Kernel
    var states: seq<PluginState>
    var shouldRun: bool
    ghost var reloading: bool
    ghost var history: seq<Event>

    ghost function Records(): (r: seq<Plugin>)
      reads this`states, states
      ensures |r| == |states|
      ensures forall i | 0 <= i < |states| :: r[i] == states[i].Record()
    {
      var s := states;
      seq(|s|, i requires 0 <= i < |s| reads s => s[i].Record())
    }

    ghost predicate Distinct()
      reads this`states
    {
      forall i, j | 0 <= i < j < |states| :: states[i] != states[j]
    }

    ghost function View(phase: Phase): Machine
      reads this, kernel, states
    {
      Machine(Records(), shouldRun, phase, reloading, kernel.live, kernel.zombies, kernel.pending, kernel.now)
    }

    ghost predicate Valid(phase: Phase)
      reads this, kernel, states
    {
      && Distinct()
      && (phase.Undefined? || kernel.blocked == Blocked(phase))
      && Reaches(history, View(phase))
    }

    constructor ()
      ensures Valid(Idle) && states == [] && shouldRun && !reloading && history == []
      ensures fresh(kernel)
    {
      kernel := new Kernel();
      states, shouldRun, reloading, history := [], true, false, [];
      new;
      ReachesNothing();
    }

    ghost method Log(m: Machine, e: Event)
      requires Reaches(history, m) && Enabled(m, e)
      modifies this`history
      ensures history == old(history) + [e]
      ensures Reaches(history, Apply(m, e))
    {
      ReachesSnoc(history, m, e);
      history := history + [e];
    }

    // Anything that may happen around the supervisor: time passes, children exit, SIGCHLD
    // is raised, and unless it is blocked its handler runs.
    method Interfere(ghost phase: Phase) returns (ghost events: seq<Event>)
      requires Valid(phase) && !phase.Undefined?
      modifies kernel, this`shouldRun, this`history
      ensures Valid(phase)
      ensures history == old(history) + events && WithinPass(events)
      ensures kernel.live + kernel.zombies == old(kernel.live + kernel.zombies)
    {
      events := [];
      var steps: nat := *;
      while steps > 0
        invariant Valid(phase)
        invariant history == old(history) + events && WithinPass(events)
        invariant kernel.live + kernel.zombies == old(kernel.live + kernel.zombies)
      {
        ghost var more := InterfereOnce(phase);
        events := events + more;
        steps := steps - 1;
      }
    }

    method InterfereOnce(ghost phase: Phase) returns (ghost events: seq<Event>)
      requires Valid(phase) && !phase.Undefined?
      modifies kernel, this`shouldRun, this`history
      ensures Valid(phase)
      ensures history == old(history) + events && WithinPass(events)
      ensures kernel.live + kernel.zombies == old(kernel.live + kernel.zombies)
    {
      events := [];
      var choice: nat := *;
      if choice == 0 {
        PassTime(phase);
        events := [Tick(kernel.now)];
      } else if choice == 1 && kernel.live != {} {
        var pid := EndChild(phase);
        events := [Exit(pid)];
      } else if choice == 2 {
        RaiseSignal(phase);
        events := [Raise];
      } else if kernel.pending && !kernel.blocked {
        DeliverSignal(phase);
        events := [Deliver];
      }
    }

    method PassTime(ghost phase: Phase)
      requires Valid(phase) && !phase.Undefined?
      modifies kernel`now, this`history
      ensures Valid(phase) && history == old(history) + [Tick(kernel.now)]
    {
      ghost var m := View(phase);
      var later :| later >= kernel.now;
      kernel.now := later;
      Log(m, Tick(kernel.now));
    }

    method EndChild(ghost phase: Phase) returns (pid: nat)
      requires Valid(phase) && !phase.Undefined? && kernel.live != {}
      modifies kernel, this`history
      ensures Valid(phase) && history == old(history) + [Exit(pid)]
      ensures kernel.live + kernel.zombies == old(kernel.live + kernel.zombies)
    {
      ghost var m := View(phase);
      pid :| pid in kernel.live;
      kernel.live, kernel.zombies := kernel.live - {pid}, kernel.zombies + {pid};
      kernel.pending := true;
      Log(m, Exit(pid));
    }

    method RaiseSignal(ghost phase: Phase)
      requires Valid(phase) && !phase.Undefined?
      modifies kernel`pending, this`history
      ensures Valid(phase) && history == old(history) + [Raise]
    {
      ghost var m := View(phase);
      kernel.pending := true;
      Log(m, Raise);
    }

    method DeliverSignal(ghost phase: Phase)
      requires Valid(phase) && !phase.Undefined? && kernel.pending && !kernel.blocked
      modifies kernel`pending, this`shouldRun, this`history
      ensures Valid(phase) && history == old(history) + [Deliver]
    {
      ghost var m := View(phase);
      kernel.pending := false;
      SigChild();
      Log(m, Deliver);
    }

    // The SIGCHLD handler.
    method SigChild()
      modifies this`shouldRun
      ensures shouldRun
    {
      shouldRun := true;
    }

    // The loop that looks for the record of a reaped child.
    method FindPid(pid: nat) returns (i: nat)
      ensures i == IndexOfPid(Records(), pid)
    {
      i := 0;
      while i < |states|
        invariant i <= |states|
        invariant forall j | 0 <= j < i :: states[j].pid != pid
      {
        if states[i].pid == pid {
          break;
        }
        i := i + 1;
      }
      IndexOfPidIsFirst(Records(), pid, i);
    }

    // The wait4 loop: reaps every child that has exited by the time it looks.
    method ReapExited() returns (ghost events: seq<Event>)
      requires Valid(Reaping)
      modifies this`history, this`shouldRun, kernel, states
      ensures Valid(Reaping) && kernel.zombies == {}
      ensures history == old(history) + events && WithinPass(events)
    {
      events := Interfere(Reaping);
      while kernel.zombies != {}  // else wait4 returns 0, or -1 with ECHILD
        invariant Valid(Reaping)
        invariant history == old(history) + events && WithinPass(events)
        decreases kernel.live + kernel.zombies
      {
        ghost var more := ReapTurn();
        events := events + more;
      }
    }

    method ReapTurn() returns (ghost events: seq<Event>)
      requires Valid(Reaping) && kernel.zombies != {}
      modifies this`history, this`shouldRun, kernel, states
      ensures Valid(Reaping)
      ensures history == old(history) + events && WithinPass(events)
      ensures kernel.live + kernel.zombies < old(kernel.live + kernel.zombies)
    {
      ghost var reaped := ReapOne();
      events := Interfere(Reaping);
      events := [reaped] + events;
    }

    ghost method LogReap(m: Machine, child: nat, t: int)
      requires Reaches(history, m) && m.phase.Reaping? && child in m.zombies && t >= m.now
      modifies this`history
      ensures history == old(history) + [Reap(child, t)]
      ensures Reaches(history, m.(zombies := m.zombies - {child}, states := ReapedAt(m.states, child, t), now := t))
    {
      Log(m, Reap(child, t));
    }

    // A child that was reaped is not also running.
    lemma ReapedForGood(m: Machine, child: nat)
      requires Reaches(history, m) && child in m.zombies
      ensures m.live + (m.zombies - {child}) < m.live + m.zombies
    {
      ReachesIsExec(history, m);
      InvHolds(history);
      assert child in m.live + m.zombies;
    }

    // One turn of the loop, for a child that has exited.
    method ReapOne() returns (ghost event: Event)
      requires Valid(Reaping) && kernel.zombies != {}
      modifies this`history, kernel`zombies, states
      ensures Valid(Reaping)
      ensures history == old(history) + [event] && event.Reap?
      ensures kernel.live + kernel.zombies < old(kernel.live + kernel.zombies)
    {
      ghost var m := View(Reaping);
      var child :| child in kernel.zombies;
      ReapedForGood(m, child);
      kernel.zombies := kernel.zombies - {child};
      RecordExit(child);
      LogReap(m, child, kernel.now);
      event := Reap(child, kernel.now);
    }

    // What the loop does with one reaped child.
    method RecordExit(child: nat)
      requires Distinct()
      modifies states
      ensures Records() == ReapedAt(old(Records()), child, kernel.now)
    {
      var i := FindPid(child);
      if i < |states| {
        states[i].NoteExit(kernel.now);
        assert Records() == old(Records())[i := Reaped(old(Records())[i], kernel.now)];
      } else {
        assert Records() == old(Records());  // a pid that is not ours
      }
    }

    // The decision of the start loop, with the wait computed as the C code does.
    method DecideOn(state: PluginState) returns (d: Decision)
      ensures d == Decide(state.Record(), kernel.now)
      ensures d == Skip <==> !state.willAutostart || state.pid != 0
      ensures d == Go <==> Due(state.Record(), kernel.now)
      ensures d == Overflow <==> state.willAutostart && state.pid == 0 && state.numFailures > 29
    {
      WaitIsDefinedUpTo29(state.numFailures);
      if state.numFailures <= 29 {
        WaitIsExact(state.numFailures);
      }
      if !state.willAutostart || state.pid != 0 {
        return Skip;
      }
      var waitSeconds := 0;
      if state.numFailures > 0 {
        var penalty := Penalty32(state.numFailures);
        if penalty.None? {
          return Overflow;
        }
        waitSeconds := penalty.value;
      }
      if waitSeconds > MAX_WAIT_TIME {
        waitSeconds := MAX_WAIT_TIME;
      }
      d := if state.lastStart + waitSeconds > kernel.now then Hold else Go;
    }

    ghost method LogConsider(m: Machine, t: int)
      requires Reaches(history, m) && t >= m.now
      requires m.phase.Starting? && m.phase.next < |m.states|
      modifies this`history
      ensures history == old(history) + [Consider(t)]
      ensures Reaches(history, Considered(m, t))
    {
      Log(m, Consider(t));
    }

    ghost method LogLaunch(m: Machine, t: int, forked: nat)
      requires Reaches(history, m) && t >= m.now
      requires m.phase.Launching? && m.phase.chosen < |m.states| && forked !in m.live + m.zombies
      modifies this`history
      ensures history == old(history) + [Launch(t, forked)]
      ensures Reaches(history, Launched(m, t, forked))
    {
      Log(m, Launch(t, forked));
    }

    // The record chosen for a start has no process: the assertion of start_plugin.
    lemma ChosenHasNoProcess(i: nat, waiting: bool)
      requires Valid(Launching(i, waiting))
      ensures i < |states| && states[i].pid == 0 && 0 !in kernel.live + kernel.zombies
    {
      var m := View(Launching(i, waiting));
      ReachesIsExec(history, m);
      InvHolds(history);
      assert ProcessInv(m) && WakeInv(m);
    }

    // start_plugin, as far as it changes state.
    method StartPlugin(i: nat, waiting: bool) returns (started: bool, ghost events: seq<Event>)
      requires Valid(Launching(i, waiting)) && i < |states|
      modifies this`history, this`shouldRun, kernel, states
      ensures Valid(Starting(i + 1, waiting || !started))
      ensures history == old(history) + events && WithinPass(events)
      ensures i < |states| && (started <==> states[i].pid != 0)
      ensures events != [] && events[|events| - 1] == Launch(kernel.now, states[i].pid)
    {
      events := Interfere(Launching(i, waiting));
      ghost var launch;
      started, launch := LaunchNow(i, waiting);
      events := events + [launch];
    }

    method LaunchNow(i: nat, waiting: bool) returns (started: bool, ghost event: Event)
      requires Valid(Launching(i, waiting)) && i < |states|
      modifies this`history, kernel`live, states
      ensures Valid(Starting(i + 1, waiting || !started))
      ensures history == old(history) + [event] && event == Launch(kernel.now, states[i].pid)
      ensures started <==> states[i].pid != 0
    {
      ghost var m := View(Launching(i, waiting));
      ChosenHasNoProcess(i, waiting);
      var forked := Attempt(states[i]);
      assert Records() == m.states[i := Started(m.states[i], kernel.now, forked)];
      started := forked != 0;
      LogLaunch(m, kernel.now, forked);
      event := Launch(kernel.now, forked);
    }

    // The attempt itself: the directory and the executable may be unusable and fork may
    // fail; otherwise the operating system picks a pid that names no other child.
    method Attempt(state: PluginState) returns (forked: nat)
      requires state.pid == 0 && 0 !in kernel.live + kernel.zombies
      modifies state, kernel`live
      ensures forked !in old(kernel.live) + kernel.zombies
      ensures kernel.live == if forked == 0 then old(kernel.live) else old(kernel.live) + {forked}
      ensures state.Record() == Started(old(state.Record()), kernel.now, forked)
    {
      state.lastStart := kernel.now;
      state.starts := state.starts + [Start(kernel.now, state.numFailures)];
      var usable: bool := *;
      forked := *;
      if !usable || forked in kernel.live + kernel.zombies {
        forked := 0;
      }
      if forked == 0 {
        state.PluginFailed();
        return;
      }
      kernel.live := kernel.live + {forked};
      state.pid := forked;
    }

    // One turn of the start loop, up to the decision.
    method ConsiderRecord(i: nat, waiting: bool) returns (d: Decision, ghost events: seq<Event>)
      requires Valid(Starting(i, waiting)) && i < |states|
      modifies this`history, this`shouldRun, kernel
      ensures Valid(match d
                    case Skip => Starting(i + 1, waiting)
                    case Hold => Starting(i + 1, true)
                    case Go => Launching(i, waiting)
                    case Overflow => Undefined)
      ensures history == old(history) + events && WithinPass(events)
    {
      events := Interfere(Starting(i, waiting));
      d := ConsiderNow(i, waiting);
      events := events + [Consider(kernel.now)];
    }

    method ConsiderNow(i: nat, waiting: bool) returns (d: Decision)
      requires Valid(Starting(i, waiting)) && i < |states|
      modifies this`history
      ensures Valid(match d
                    case Skip => Starting(i + 1, waiting)
                    case Hold => Starting(i + 1, true)
                    case Go => Launching(i, waiting)
                    case Overflow => Undefined)
      ensures history == old(history) + [Consider(kernel.now)]
    {
      ghost var m := View(Starting(i, waiting));
      d := DecideOn(states[i]);
      LogConsider(m, kernel.now);
    }

    method StartTurn(i: nat, waiting: bool) returns (ok: bool, waiting': bool, ghost events: seq<Event>)
      requires Valid(Starting(i, waiting)) && i < |states|
      modifies this`history, this`shouldRun, kernel, states
      ensures Valid(if ok then Starting(i + 1, waiting') else Undefined)
      ensures history == old(history) + events && WithinPass(events)
    {
      var d;
      d, events := ConsiderRecord(i, waiting);
      ok, waiting' := d != Overflow, waiting || d == Hold;
      if d == Go {
        var started;
        ghost var more;
        started, more := StartPlugin(i, waiting);
        events := events + more;
        waiting' := waiting || !started;
      }
    }

    // The start loop.
    method StartDue() returns (ok: bool, waiting: bool, ghost events: seq<Event>)
      requires Valid(Starting(0, false))
      modifies this`history, this`shouldRun, kernel, states
      ensures Valid(if ok then Starting(|states|, waiting) else Undefined)
      ensures history == old(history) + events && WithinPass(events)
      ensures ok ==> DueAreStarted(old(View(Starting(0, false))), events)
    {
      ghost var before, m := history, View(Starting(0, false));
      ok, waiting, events := true, false, [];
      var i := 0;
      while ok && i < |states|
        invariant i <= |states|
        invariant Valid(if ok then Starting(i, waiting) else Undefined)
        invariant history == old(history) + events && WithinPass(events)
      {
        ghost var more;
        ok, waiting, more := StartTurn(i, waiting);
        events := events + more;
        i := i + 1;
      }
      if ok {
        LoopStartsDue(before, m, events, View(Starting(|states|, waiting)), waiting);
      }
    }

    method EnterPass() returns (ghost events: seq<Event>)
      requires Valid(Idle) && shouldRun
      modifies this`history, this`shouldRun, kernel
      ensures Valid(Reaping)
      ensures history == old(history) + [Call] + events && WithinPass(events)
    {
      ghost var m := View(Idle);
      Log(m, Call);
      events := Interfere(Checked);
      m := View(Checked);
      kernel.blocked := true;
      Log(m, Block);
      events := events + [Block];
    }

    method BeginStarting()
      requires Valid(Reaping) && kernel.zombies == {}
      modifies this`history
      ensures Valid(Starting(0, false)) && history == old(history) + [ReapEnd]
    {
      ghost var m := View(Reaping);
      Log(m, ReapEnd);
    }

    method SetFlag(waiting: bool)
      requires Valid(Starting(|states|, waiting))
      modifies this`history, this`shouldRun
      ensures Valid(Leaving) && history == old(history) + [Assign]
    {
      ghost var m := View(Starting(|states|, waiting));
      shouldRun := waiting;
      Log(m, Assign);
    }

    method UnblockSignals()
      requires Valid(Leaving)
      modifies this`history, kernel`blocked
      ensures Valid(Idle) && history == old(history) + [Unblock]
    {
      ghost var m := View(Leaving);
      kernel.blocked := false;
      Log(m, Unblock);
    }

    // The pass up to the start loop.
    method FirstHalf() returns (ghost events: seq<Event>)
      requires Valid(Idle) && shouldRun
      modifies this`history, this`shouldRun, kernel, states
      ensures Valid(Starting(0, false))
      ensures history == old(history) + [Call] + events && WithinPass(events)
    {
      events := EnterPass();
      ghost var more := ReapExited();
      BeginStarting();
      events := events + more + [ReapEnd];
    }

    // What follows the start loop.
    method LeavePass(waiting: bool) returns (ghost events: seq<Event>)
      requires Valid(Starting(|states|, waiting))
      modifies this`history, this`shouldRun, kernel
      ensures Valid(Idle)
      ensures history == old(history) + events && WithinPass(events)
      ensures events != [] && events[|events| - 1].Unblock?
    {
      SetFlag(waiting);
      events := Interfere(Leaving);
      UnblockSignals();
      events := [Assign] + events + [Unblock];
    }

    // The start loop and what follows it.
    method SecondHalf() returns (ok: bool, ghost events: seq<Event>)
      requires Valid(Starting(0, false))
      modifies this`history, this`shouldRun, kernel, states
      ensures Valid(if ok then Idle else Undefined)
      ensures history == old(history) + events && WithinPass(events)
      ensures ok ==> events != [] && events[|events| - 1].Unblock?
    {
      var waiting;
      ok, waiting, events := StartDue();
      if ok {
        ghost var more := LeavePass(waiting);
        Regroup(old(history), events, more);
        events := events + more;
      }
    }

    // runOnce.  It answers false only if the wait of some plugin left the int type.
    method RunOnce() returns (ok: bool, ghost events: seq<Event>)
      requires Valid(Idle)
      modifies this`history, this`shouldRun, kernel, states
      ensures Valid(if ok then Idle else Undefined)
      ensures history == old(history) + events && NoReload(events) && events != []
      ensures !old(shouldRun) ==> ok && events == [Call]
      ensures old(shouldRun) && ok ==> FullPass(events) && DueAreStarted(old(View(Idle)), events)
      ensures old(shouldRun) && ok ==> (shouldRun <==> exists s :: s in states && s.willAutostart && s.pid == 0)
    {
      ghost var before, m := history, View(Idle);
      if !shouldRun {
        Log(m, Call);
        return true, [Call];
      }
      ok, events := Pass();
      if ok {
        PassStartsDue(before, m, events, View(Idle));
        DownRecords();
      }
    }

    method Pass() returns (ok: bool, ghost events: seq<Event>)
      requires Valid(Idle) && shouldRun
      modifies this`history, this`shouldRun, kernel, states
      ensures Valid(if ok then Idle else Undefined)
      ensures history == old(history) + events && NoReload(events) && events != []
      ensures ok ==> FullPass(events)
    {
      events := FirstHalf();
      ghost var more;
      ok, more := SecondHalf();
      events := [Call] + events + more;
    }

    lemma DownRecords()
      ensures !UpTo(Records(), |states|) <==> exists s :: s in states && s.willAutostart && s.pid == 0
    {
      forall i | 0 <= i < |states| ensures states[i] in states && Records()[i] == states[i].Record() {
      }
      if s :| s in states && s.willAutostart && s.pid == 0 {
        var i :| 0 <= i < |states| && states[i] == s;
        assert !Up(Records()[i]);
      }
    }

    // An object at rest has nothing left to do.
    lemma AtRest()
      requires Valid(Idle) && !shouldRun && !kernel.pending && !reloading
      ensures kernel.zombies == {}
      ensures forall s | s in states && s.willAutostart :: s.pid != 0 && s.pid in kernel.live
    {
      ReachesIsExec(history, View(Idle));
      NoLostWakeup(history);
      RunningRecords();
    }

    // In the middle of a reload, entries being what it asked for: everything runs exactly
    // if a pass was completed since, or every plugin had its process to begin with.
    lemma AtRestInReload(before: seq<Event>, m: Machine, entries: seq<Entry>, events: seq<Event>)
      requires Valid(Idle) && !shouldRun && !kernel.pending
      requires Reaches(before, m) && Enabled(m, BeginReload(entries)) && InReload(events)
      requires history == before + [BeginReload(entries)] + events
      ensures kernel.zombies == {}
      ensures
        var start := Reconfigure(m.states, entries);
        (forall s | s in states && s.willAutostart :: s.pid != 0 && s.pid in kernel.live) <==>
        Assigned(events) || UpTo(start, |start|)
    {
      var begun := before + [BeginReload(entries)];
      ReachesIsExec(before, m);
      ReachesIsExec(history, View(Idle));
      ExecSnoc(INITIAL, before, BeginReload(entries));
      ExecConcat(INITIAL, begun, events);
      SupervisorSafety.AtRestInReload(before, m, entries, events);
      RunningRecords();
    }

    lemma RunningRecords()
      ensures AllRun(View(Idle)) <==>
        forall s | s in states && s.willAutostart :: s.pid != 0 && s.pid in kernel.live
    {
      forall s | s in states && s.willAutostart
        ensures AllRun(View(Idle)) ==> s.pid != 0 && s.pid in kernel.live
      {
        var i :| 0 <= i < |states| && states[i] == s;
        assert Records()[i] == s.Record();
      }
      forall i | 0 <= i < |states| ensures states[i] in states && Records()[i] == states[i].Record() {
      }
    }

    // ----- Configuration reload -----

    // Records are only ever added.
    twostate predicate Grew()
      reads this`states
    {
      old(states) <= states && forall i | |old(states)| <= i < |states| :: fresh(states[i])
    }

    // state_.find on a name.
    method FindKey(key: string) returns (i: nat)
      ensures i == IndexOfKey(Records(), key)
    {
      i := 0;
      while i < |states|
        invariant i <= |states|
        invariant forall j | 0 <= j < i :: states[j].key != key
      {
        if states[i].key == key {
          break;
        }
        i := i + 1;
      }
      IndexOfKeyIsFirst(Records(), key, i);
    }

    method UpsertRecord(key: string, config: PluginConfig, network: string)
      requires Distinct() && (config.perNetwork <==> |network| > 0)
      modifies this`states, states
      ensures Distinct() && Grew()
      ensures Records() == Upsert(old(Records()), Entry(key, config, network))
    {
      var i := FindKey(key);
      if i == |states| {
        var s := new PluginState(key, config, network);
        states := states + [s];
        assert Records() == old(Records()) + [Plugin(key, config, network, true, 0, 0, 0, [])];
      } else {
        states[i].Refresh(config);
        assert Records() == old(Records())[i := Refreshed(old(Records())[i], config)];
      }
    }

    // The inner loop of configReloaded: one record per network.
    method UpsertPerNetwork(config: PluginConfig, networks: seq<NetworkConfig>, seen: seq<string>)
        returns (seen': seq<string>)
      requires Distinct() && config.perNetwork
      requires forall i | 0 <= i < |networks| :: |networks[i].name| > 0
      modifies this`states, states
      ensures Distinct() && Grew()
      ensures Records() == UpsertAll(old(Records()), NetworkEntries(config, networks))
      ensures seen' == seen + Names(NetworkEntries(config, networks))
    {
      seen' := seen;
      ghost var entries, before, records := NetworkEntries(config, networks), Records(), Records();
      var i := 0;
      while i < |networks|
        invariant i <= |networks|
        invariant Distinct() && Grew()
        invariant Records() == records == UpsertAll(before, entries[..i])
        invariant seen' == seen + Names(entries[..i])
      {
        var key := config.name + "!" + networks[i].name;
        seen' := seen' + [key];
        OneMore(before, entries, i);
        records := Upsert(records, entries[i]);
        UpsertRecord(key, config, networks[i].name);
        i := i + 1;
      }
      assert entries[..|networks|] == entries;
    }

    method UpsertPlugin(config: PluginConfig, networks: seq<NetworkConfig>, seen: seq<string>)
        returns (seen': seq<string>)
      requires Distinct()
      requires forall i | 0 <= i < |networks| :: |networks[i].name| > 0
      modifies this`states, states
      ensures Distinct() && Grew()
      ensures Records() == UpsertAll(old(Records()), PluginEntries(config, networks))
      ensures seen' == seen + Names(PluginEntries(config, networks))
    {
      if config.perNetwork {
        seen' := UpsertPerNetwork(config, networks, seen);
      } else {
        seen' := seen + [config.name];
        ghost var own := PluginEntries(config, networks);
        UpsertRecord(config.name, config, "");
        assert own == [] + [own[0]];
        UpsertAllSnoc(old(Records()), [], own[0]);
      }
    }

    // The outer loop: every plugin of the configuration.
    method UpsertConfigured(plugins: seq<PluginConfig>, networks: seq<NetworkConfig>) returns (seen: seq<string>)
      requires Distinct()
      requires forall i | 0 <= i < |networks| :: |networks[i].name| > 0
      modifies this`states, states
      ensures Distinct() && Grew()
      ensures Records() == UpsertAll(old(Records()), Entries(plugins, networks))
      ensures seen == Names(Entries(plugins, networks))
      ensures DistinctKeys(Entries(plugins, networks)) ==>
        AllServed(old(Records()), Records(), plugins, networks, true)
    {
      seen := [];
      var i := 0;
      while i < |plugins|
        invariant i <= |plugins|
        invariant Distinct() && Grew()
        invariant Records() == UpsertAll(old(Records()), Entries(plugins[..i], networks))
        invariant seen == Names(Entries(plugins[..i], networks))
      {
        seen := UpsertPlugin(plugins[i], networks, seen);
        EntriesSnoc(old(Records()), plugins, networks, i);
        i := i + 1;
      }
      assert plugins[..|plugins|] == plugins;
      if DistinctKeys(Entries(plugins, networks)) {
        ConfiguredAreServed(old(Records()), plugins, networks);
      }
    }

    // The loop that marks what the configuration no longer mentions.
    method RetireMissing(seen: seq<string>, ghost keys: set<string>) returns (doomed: seq<PluginState>)
      requires Distinct() && (forall key :: key in seen <==> key in keys)
      modifies states
      ensures Records() == RetireAll(old(Records()), keys)
      ensures forall s :: s in doomed <==>
        s in states && s.key !in seen && (old(s.pid) > 0 || old(s.willAutostart))
    {
      doomed := [];
      var i := 0;
      while i < |states|
        invariant i <= |states|
        invariant forall j | 0 <= j < i :: states[j].Record() == Retire(old(states[j].Record()), keys)
        invariant forall j | i <= j < |states| :: states[j].Record() == old(states[j].Record())
        invariant forall s :: s in doomed <==>
          s in states[..i] && s.key !in seen && (old(s.pid) > 0 || old(s.willAutostart))
      {
        var s := states[i];
        var gone := RetireOne(s, seen, keys);
        if gone {
          doomed := doomed + [s];
        }
        assert states[..i + 1] == states[..i] + [s];
        i := i + 1;
      }
      assert Records() == RetireAll(old(Records()), keys);
    }

    method RetireOne(s: PluginState, seen: seq<string>, ghost keys: set<string>) returns (gone: bool)
      requires forall key :: key in seen <==> key in keys
      modifies s`willAutostart
      ensures s.Record() == Retire(old(s.Record()), keys)
      ensures gone <==> s.key !in seen && (s.pid > 0 || old(s.willAutostart))
    {
      var active := s.pid > 0 || s.willAutostart;
      gone := s.key !in seen && active;
      if gone {
        s.willAutostart := false;
      }
    }

    // One round of kill_plugins: signal those that still run, and if there are any wait two
    // seconds and collect them.  What a signal does, if anything, is up to the child.
    method KillRound(doomed: seq<PluginState>) returns (ok: bool, ghost events: seq<Event>)
      requires Valid(Idle)
      modifies this`history, this`shouldRun, kernel, states
      ensures Valid(if ok then Idle else Undefined)
      ensures history == old(history) + events && NoReload(events)
      ensures events == [] <==> forall s | s in doomed :: old(s.pid) == 0
      ensures events == [] ==> ok && View(Idle) == old(View(Idle)) && forall s | s in doomed :: s.pid == 0
      ensures ok && events != [] ==> IsRound(events)
    {
      ok, events := true, [];
      if s :| s in doomed && s.pid != 0 {
        ghost var around := Interfere(Idle);
        ghost var call;
        ok, call := RunOnce();
        events := around + call;
        assert events[..|around|] == around && events[|around|..] == call;
      }
    }

    // There is a first round if any of them runs, and a second one if any still runs then.
    method KillPlugins(doomed: seq<PluginState>)
        returns (ok: bool, ghost first: seq<Event>, ghost between: Machine, ghost second: seq<Event>)
      requires Valid(Idle) && forall s | s in doomed :: s in states
      modifies this`history, this`shouldRun, kernel, states
      ensures Valid(if ok then Idle else Undefined)
      ensures history == old(history) + first + second && NoReload(first) && NoReload(second)
      ensures first == [] <==> forall s | s in doomed :: old(s.pid) == 0
      ensures ok && first != [] ==> IsRound(first)
      ensures ok ==> Reaches(old(history) + first, between) && |between.states| == |states|
      ensures ok ==>
        (second == [] <==> forall i | 0 <= i < |states| && states[i] in doomed :: between.states[i].pid == 0)
      ensures ok && second != [] ==> IsRound(second)
    {
      second := [];
      ok, first := KillRound(doomed);  // SIGINT
      between := View(Idle);
      if ok {
        ok, second := KillRound(doomed);  // SIGKILL
      }
    }

    // The bookkeeping of a reload.
    method UpdateRecords(plugins: seq<PluginConfig>, networks: seq<NetworkConfig>) returns (doomed: seq<PluginState>)
      requires Distinct()
      requires forall i | 0 <= i < |networks| :: |networks[i].name| > 0
      modifies this`states, states
      ensures Distinct() && Grew() && forall s | s in doomed :: s in states
      ensures Records() == Reconfigure(old(Records()), Entries(plugins, networks))
    {
      var seen := UpsertConfigured(plugins, networks);
      ghost var entries := Entries(plugins, networks);
      NamesAreKeys(entries);
      doomed := RetireMissing(seen, Keys(entries));
    }

    method Reconcile(plugins: seq<PluginConfig>, networks: seq<NetworkConfig>) returns (doomed: seq<PluginState>)
      requires Valid(Idle) && !reloading && DistinctKeys(Entries(plugins, networks))
      requires forall i | 0 <= i < |networks| :: |networks[i].name| > 0
      modifies this`states, this`history, this`reloading, states
      ensures Valid(Idle) && reloading && Grew() && forall s | s in doomed :: s in states
      ensures Records() == Reconfigure(old(Records()), Entries(plugins, networks))
      ensures history == old(history) + [BeginReload(Entries(plugins, networks))]
    {
      ghost var m, entries := View(Idle), Entries(plugins, networks);
      doomed := UpdateRecords(plugins, networks);
      reloading := true;
      Log(m, BeginReload(entries));
    }

    method FinishReload() returns (ok: bool, ghost events: seq<Event>)
      requires Valid(Idle) && reloading
      modifies this`history, this`shouldRun, this`reloading, kernel, states
      ensures Valid(if ok then Idle else Undefined) && !reloading
      ensures history == old(history) + [EndReload] + events && NoReload(events)
      ensures ok ==> FullPass(events)
    {
      ghost var m := View(Idle);
      shouldRun := true;
      reloading := false;
      Log(m, EndReload);
      ok, events := RunOnce();
    }

    // What follows the bookkeeping: stop what is no longer wanted, start what is.
    method StopAndFinish(doomed: seq<PluginState>)
        returns (ok: bool, ghost kills: seq<Event>, ghost pass: seq<Event>, ghost events: seq<Event>)
      requires Valid(Idle) && reloading && forall s | s in doomed :: s in states
      modifies this`history, this`shouldRun, this`reloading, kernel, states
      ensures Valid(if ok then Idle else Undefined)
      ensures history == old(history) + events && NoReload(events) && NoReload(kills)
      ensures ok ==> !reloading && events == kills + [EndReload] + pass && FullPass(pass)
    {
      ghost var first, between, second;
      ok, first, between, second := KillPlugins(doomed);
      Regroup(old(history), first, second);
      kills, pass := first + second, [];
      events := kills;
      if ok {
        ok, pass := FinishReload();
        events := kills + [EndReload] + pass;
        OneMoreCall(old(history), kills, pass);
      }
    }

    lemma OneMoreCall(before: seq<Event>, kills: seq<Event>, pass: seq<Event>)
      requires NoReload(kills) && NoReload(pass)
      ensures before + kills + ([EndReload] + pass) == before + (kills + [EndReload] + pass)
      ensures before + kills + [EndReload] + pass == before + (kills + [EndReload] + pass)
      ensures NoReload(kills + [EndReload] + pass)
    {
    }

    method ApplyReload(doomed: seq<PluginState>) returns (ok: bool, ghost kills: seq<Event>, ghost pass: seq<Event>)
      requires Valid(Idle) && reloading && forall s | s in doomed :: s in states
      modifies this`history, this`shouldRun, this`reloading, kernel, states
      ensures Valid(if ok then Idle else Undefined)
      ensures SameSettings(old(Records()), Records())
      ensures NoReload(kills)
      ensures ok ==> !reloading && history == old(history) + kills + [EndReload] + pass && FullPass(pass)
    {
      ghost var before, m, events := history, View(Idle), [];
      ok, kills, pass, events := StopAndFinish(doomed);
      SettingsBetweenReloads(before, m, events, View(if ok then Idle else Undefined));
    }

    // configReloaded, for a configuration that names no plugin twice.  Whatever the records
    // were before, those that may start afterwards are exactly the configured ones.
    method ConfigReloaded(plugins: seq<PluginConfig>, networks: seq<NetworkConfig>)
        returns (ok: bool, ghost kills: seq<Event>, ghost pass: seq<Event>)
      requires Valid(Idle) && !reloading && DistinctKeys(Entries(plugins, networks))
      requires forall i | 0 <= i < |networks| :: |networks[i].name| > 0
      modifies this`states, this`history, this`shouldRun, this`reloading, kernel, states
      ensures Valid(if ok then Idle else Undefined) && old(states) <= states
      ensures SameSettings(Reconfigure(old(Records()), Entries(plugins, networks)), Records())
      ensures forall key :: key in AutostartKeys(Records()) <==> Configured(plugins, networks, key)
      ensures AllServed(old(Records()), Records(), plugins, networks, false)
      ensures NoReload(kills)
      ensures ok ==> !reloading && FullPass(pass)
      ensures ok ==>
        history == old(history) + [BeginReload(Entries(plugins, networks))] + kills + [EndReload] + pass
    {
      ghost var before := Records();
      var doomed := Reconcile(plugins, networks);
      ghost var between := Records();
      ReloadIsExact(before, plugins, networks);
      ok, kills, pass := ApplyReload(doomed);
      SameSettingsSameKeys(between, Records());
      ServedStaysServed(before, between, Records(), plugins, networks);
    }
  }
}
