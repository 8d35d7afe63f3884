/** Which plugins a pass of the supervisor starts, in terms of its events and the fields of
    the records alone.  A record's turn begins when it is considered and ends when the next
    one is, or the pass does. */
module StartTurns {
  import opened Settings
  import opened Backoff
  import opened Supervisor
  import opened SupervisorSafety

  // How many turns have begun.
  function Turns(events: seq<Event>): nat {
    if events == [] then 0
    else Turns(events[..|events| - 1]) + if events[|events| - 1].Consider? then 1 else 0
  }

  // A plugin that is to run, has no process, and whose wait is over.
  predicate Due(p: Plugin, time: int) {
    p.autostart && p.pid == 0 && p.failures <= 29 && p.lastStart + Wait(p.failures) <= time
  }

  // Whether an attempt is the first thing of a turn.
  predicate InTurn(events: seq<Event>, k: nat, l: nat)
    requires k < l < |events|
  {
    events[l].Launch? && forall x | k < x < l :: !events[x].Consider? && !events[x].Launch?
  }

  ghost predicate Attempted(events: seq<Event>, k: nat) {
    exists l :: k < l < |events| && InTurn(events, k, l)
  }

  function At(m: Machine, events: seq<Event>, k: nat): Machine
    requires Exec(m, events).Some? && k <= |events|
  {
    ExecPrefix(m, events, k);
    Exec(m, events[..k]).value
  }

  // A turn goes to the next record.  An attempt is made exactly if the record is due, and
  // changes that record only; a plugin that is down and not due has to wait longer.
  ghost predicate FairTurn(m: Machine, events: seq<Event>, k: nat)
    requires Exec(m, events).Some? && k < |events| && events[k].Consider?
  {
    var i, states := Turns(events[..k]), At(m, events, k).states;
    && i < |states|
    && (Attempted(events, k) <==> Due(states[i], events[k].time))
    && (states[i].autostart && states[i].pid == 0 && !Attempted(events, k) ==>
          states[i].lastStart + Wait(states[i].failures) > events[k].time)
    && forall l | k < l < |events| && InTurn(events, k, l) ::
         AttemptChanges(states, i, events[l], At(m, events, l + 1).states)
  }

  predicate AttemptChanges(before: seq<Plugin>, i: nat, e: Event, after: seq<Plugin>)
    requires e.Launch? && i < |before|
  {
    && |after| == |before|
    && (forall j | 0 <= j < |before| && j != i :: after[j] == before[j])
    && after[i].pid == e.forked && after[i].lastStart == e.time
    && after[i].failures == before[i].failures + (if e.forked == 0 then 1 else 0)
    && after[i].key == before[i].key && after[i].config == before[i].config
    && after[i].network == before[i].network && after[i].autostart == before[i].autostart
  }

  // Every record has its turn, and every turn is fair.
  ghost predicate DueAreStarted(m: Machine, events: seq<Event>) {
    && Exec(m, events).Some? && Turns(events) == |m.states|
    && forall k | 0 <= k < |events| && events[k].Consider? :: FairTurn(m, events, k)
  }

  // A child that is reaped belongs to one record, and only that one changes: its process is
  // gone, and the failure is its first again if the last attempt is over an hour ago.
  lemma ReapIsCounted(m: Machine, child: nat, t: int) returns (i: nat)
    requires ProcessInv(m) && Enabled(m, Reap(child, t))
    ensures i < |m.states| && m.states[i].pid == child
    ensures
      var p, after := m.states[i], Apply(m, Reap(child, t)).states;
      && |after| == |m.states|
      && (forall j | 0 <= j < |after| && j != i :: after[j] == m.states[j])
      && after[i] == p.(pid := 0, failures := if t - p.lastStart > 3600 then 1 else p.failures + 1)
  {
    ReapFindsRecord(m, child);
    i := IndexOfPid(m.states, child);
  }

  // ----- Prefixes of runs -----

  lemma {:induction false} ExecPrefix(m: Machine, events: seq<Event>, k: nat)
    requires Exec(m, events).Some? && k <= |events|
    ensures Exec(m, events[..k]).Some?
    ensures k < |events| ==>
      && Enabled(Exec(m, events[..k]).value, events[k])
      && Exec(m, events[..k + 1]) == Some(Apply(Exec(m, events[..k]).value, events[k]))
  {
    var n := |events| - 1;
    if k == |events| {
      assert events[..k] == events;
    } else if k < n {
      ExecPrefix(m, events[..n], k);
      assert events[..n][..k] == events[..k] && events[..n][..k + 1] == events[..k + 1];
    } else {
      assert events[..n + 1] == events;
    }
  }

  // ----- Turns and phases -----

  // How the phase tells the number of turns begun in the pass.
  predicate Tracks(m: Machine, turns: nat) {
    match m.phase
    case Checked => turns == 0
    case Reaping => turns == 0
    case Starting(next, _) => turns == next <= |m.states|
    case Launching(chosen, _) => turns == chosen + 1
    case Leaving => turns == |m.states|
    case _ => true
  }

  lemma TracksStep(m: Machine, e: Event, turns: nat)
    requires Tracks(m, turns) && WakeInv(m) && Enabled(m, e) && !e.BeginReload? && (e.Call? ==> turns == 0)
    ensures Tracks(Apply(m, e), turns + if e.Consider? then 1 else 0)
    ensures |Apply(m, e).states| == |m.states|
  {
    StepKeepsSettings(m, e);
    if e.Launch? {
      assert m.phase.Launching?;
    }
  }

  // Where a pass, or its start loop, may begin and end.
  predicate Begins(m: Machine) {
    m.phase.Idle? || m.phase == Starting(0, false)
  }

  predicate OnePass(events: seq<Event>) {
    forall x | 0 <= x < |events| :: !events[x].BeginReload? && (x > 0 ==> !events[x].Call?)
  }

  lemma {:induction false} TurnsAreTracked(before: seq<Event>, m: Machine, events: seq<Event>)
    requires Exec(INITIAL, before) == Some(m) && Begins(m)
    requires Exec(m, events).Some? && OnePass(events)
    ensures Tracks(Exec(m, events).value, Turns(events)) && |Exec(m, events).value.states| == |m.states|
  {
    if events != [] {
      var n := |events| - 1;
      TurnsAreTracked(before, m, events[..n]);
      ExecConcat(INITIAL, before, events[..n]);
      InvHolds(before + events[..n]);
      TracksStep(Exec(m, events[..n]).value, events[n], Turns(events[..n]));
    }
  }

  lemma QuietStep(m: Machine, e: Event)
    requires Enabled(m, e)
    ensures m.phase.Launching? && !e.Launch? ==>
      Apply(m, e).phase == m.phase && Apply(m, e).states == m.states && !e.Consider?
    ensures !m.phase.Launching? && !e.Consider? ==> !Apply(m, e).phase.Launching? && !e.Launch?
  {
  }

  // While an attempt is due, nothing else happens to the records.
  lemma {:induction false} AttemptIsDue(m: Machine, events: seq<Event>)
    requires m.phase.Launching? && Exec(m, events).Some?
    requires forall x | 0 <= x < |events| :: !events[x].Launch?
    ensures Exec(m, events).value.phase == m.phase && Exec(m, events).value.states == m.states
    ensures forall x | 0 <= x < |events| :: !events[x].Consider?
  {
    if events != [] {
      var n := |events| - 1;
      AttemptIsDue(m, events[..n]);
      QuietStep(Exec(m, events[..n]).value, events[n]);
    }
  }

  // And without a further turn there is none.
  lemma {:induction false} NoAttemptIsDue(m: Machine, events: seq<Event>)
    requires !m.phase.Launching? && Exec(m, events).Some?
    requires forall x | 0 <= x < |events| :: !events[x].Consider?
    ensures !Exec(m, events).value.phase.Launching? && forall x | 0 <= x < |events| :: !events[x].Launch?
  {
    if events != [] {
      var n := |events| - 1;
      NoAttemptIsDue(m, events[..n]);
      QuietStep(Exec(m, events[..n]).value, events[n]);
    }
  }

  lemma {:induction false} FirstLaunch(events: seq<Event>, from: nat) returns (l: nat)
    requires from <= |events|
    ensures from <= l <= |events| && (l < |events| ==> events[l].Launch?)
    ensures forall x | from <= x < l :: !events[x].Launch?
    decreases |events| - from
  {
    l := from;
    if from < |events| && !events[from].Launch? {
      l := FirstLaunch(events, from + 1);
    }
  }

  // What a turn begins with.
  lemma TurnBegins(m: Machine, t: int)
    requires WakeInv(m) && Enabled(m, Consider(t))
    ensures
      var i, m' := m.phase.next, Apply(m, Consider(t));
      && i < |m.states| && m'.states == m.states
      && (Due(m.states[i], t) ==> m'.phase == Launching(i, m.phase.waiting))
      && (!Due(m.states[i], t) ==> m'.phase.Undefined? || m'.phase.Starting?)
      && (!m'.phase.Undefined? && m.states[i].autostart && m.states[i].pid == 0 && !Due(m.states[i], t) ==>
            m.states[i].lastStart + Wait(m.states[i].failures) > t)
  {
    var p := m.states[m.phase.next];
    WaitIsDefinedUpTo29(p.failures);
    if p.failures <= 29 {
      WaitIsExact(p.failures);
    }
  }

  lemma Between(m: Machine, events: seq<Event>, a: nat, b: nat)
    requires Exec(m, events).Some? && a <= b <= |events|
    ensures Exec(At(m, events, a), events[a..b]) == Some(At(m, events, b))
  {
    ExecPrefix(m, events, a);
    ExecPrefix(m, events, b);
    ExecConcat(m, events[..a], events[a..b]);
    assert events[..a] + events[a..b] == events[..b];
  }

  lemma DueIsAttempted(m: Machine, events: seq<Event>, k: nat)
    requires Exec(m, events).Some? && k < |events|
    requires At(m, events, k + 1).phase.Launching? && !At(m, events, |events|).phase.Launching?
    ensures Attempted(events, k)
  {
    if forall x | k < x < |events| :: !events[x].Launch? {
      QuietUntil(m, events, k, |events|);
    } else {
      var l := FirstLaunch(events, k + 1);
      QuietUntil(m, events, k, l);
      FirstIsAttempt(events, k, l);
    }
  }

  lemma FirstIsAttempt(events: seq<Event>, k: nat, l: nat)
    requires k < l < |events| && events[l].Launch?
    requires forall x | k < x < l :: !events[x].Consider? && !events[x].Launch?
    ensures Attempted(events, k)
  {
    assert InTurn(events, k, l);
  }

  lemma AtEnd(m: Machine, events: seq<Event>)
    requires Exec(m, events).Some?
    ensures At(m, events, |events|) == Exec(m, events).value
  {
    assert events[..|events|] == events;
  }

  lemma QuietUntil(m: Machine, events: seq<Event>, k: nat, l: nat)
    requires Exec(m, events).Some? && k < l <= |events| && At(m, events, k + 1).phase.Launching?
    requires forall x | k < x < l :: !events[x].Launch?
    ensures At(m, events, l).phase.Launching?
    ensures forall x | k < x < l :: !events[x].Consider? && !events[x].Launch?
  {
    var between := events[k + 1..l];
    Between(m, events, k + 1, l);
    assert forall x | 0 <= x < |between| :: between[x] == events[k + 1 + x];
    AttemptIsDue(At(m, events, k + 1), between);
    assert forall x | k < x < l :: events[x] == between[x - k - 1];
  }

  lemma AttemptedIsDue(m: Machine, events: seq<Event>, k: nat, l: nat)
    requires Exec(m, events).Some? && k < l < |events| && InTurn(events, k, l)
    ensures At(m, events, k + 1).phase.Launching?
    ensures At(m, events, l).phase == At(m, events, k + 1).phase
    ensures At(m, events, l).states == At(m, events, k + 1).states
  {
    var m', between := At(m, events, k + 1), events[k + 1..l];
    Between(m, events, k + 1, l);
    ExecPrefix(m, events, l);
    if m'.phase.Launching? {
      AttemptIsDue(m', between);
    } else {
      NoAttemptIsDue(m', between);
    }
  }

  lemma LaunchChanges(m: Machine, e: Event)
    requires Enabled(m, e) && e.Launch?
    ensures AttemptChanges(m.states, m.phase.chosen, e, Apply(m, e).states)
  {
  }

  lemma TurnIsFair(before: seq<Event>, m: Machine, events: seq<Event>, k: nat)
    requires Exec(INITIAL, before) == Some(m) && Begins(m)
    requires Exec(m, events).Some? && OnePass(events) && k < |events| && events[k].Consider?
    requires var end := Exec(m, events).value.phase; !end.Launching? && !end.Undefined?
    ensures FairTurn(m, events, k)
  {
    var here, i := At(m, events, k), Turns(events[..k]);
    ExecPrefix(m, events, k);
    TurnsAreTracked(before, m, events[..k]);
    ExecConcat(INITIAL, before, events[..k]);
    InvHolds(before + events[..k]);
    TurnBegins(here, events[k].time);
    NotOverYet(m, events, k + 1);
    if Due(here.states[i], events[k].time) {
      AtEnd(m, events);
      DueIsAttempted(m, events, k);
    }
    forall l | k < l < |events| && InTurn(events, k, l)
      ensures Due(here.states[i], events[k].time)
      ensures AttemptChanges(here.states, i, events[l], At(m, events, l + 1).states)
    {
      AttemptedIsDue(m, events, k, l);
      ExecPrefix(m, events, l);
      LaunchChanges(At(m, events, l), events[l]);
    }
  }

  // A machine whose wait computation went wrong does nothing any more.
  lemma NotOverYet(m: Machine, events: seq<Event>, k: nat)
    requires Exec(m, events).Some? && k <= |events| && !Exec(m, events).value.phase.Undefined?
    ensures !At(m, events, k).phase.Undefined?
  {
    ExecPrefix(m, events, k);
    if k == |events| {
      assert events[..k] == events;
    }
  }

  // The start loop, from its beginning to its end.
  lemma LoopStartsDue(before: seq<Event>, m: Machine, events: seq<Event>, m': Machine, waiting: bool)
    requires Reaches(before, m) && m.phase == Starting(0, false) && OnePass(events)
    requires Reaches(before + events, m') && m'.phase == Starting(|m'.states|, waiting)
    ensures DueAreStarted(m, events)
  {
    ReachesIsExec(before, m);
    ReachesIsExec(before + events, m');
    ExecConcat(INITIAL, before, events);
    TurnsAreTracked(before, m, events);
    forall k | 0 <= k < |events| && events[k].Consider? ensures FairTurn(m, events, k) {
      TurnIsFair(before, m, events, k);
    }
  }

  // A whole pass, from its call to the unblocking of the signal.  Afterwards the flag says
  // whether some plugin that is to run has no process.
  lemma PassStartsDue(before: seq<Event>, m: Machine, events: seq<Event>, m': Machine)
    requires Reaches(before, m) && m.phase.Idle? && OnePass(events)
    requires events != [] && events[|events| - 1].Unblock? && Reaches(before + events, m')
    ensures DueAreStarted(m, events)
    ensures m'.shouldRun <==> !UpTo(m'.states, |m'.states|)
  {
    ReachesIsExec(before, m);
    ReachesIsExec(before + events, m');
    ExecConcat(INITIAL, before, events);
    var n := |events| - 1;
    ExecPrefix(m, events, n);
    TurnsAreTracked(before, m, events[..n]);
    RunsKeepSettings(m, events);
    ExecConcat(INITIAL, before, events[..n]);
    InvHolds(before + events[..n]);
    forall k | 0 <= k < |events| && events[k].Consider? ensures FairTurn(m, events, k) {
      TurnIsFair(before, m, events, k);
    }
  }
}
