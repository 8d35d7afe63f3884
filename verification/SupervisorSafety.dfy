/** What the supervisor's state machine guarantees over every run. */
module SupervisorSafety {
  import opened Settings
  import opened Backoff
  import opened Supervisor

  // Nothing wakes the supervisor, and nothing is about to.
  predicate AtRest(m: Machine) {
    m.phase.Idle? && !m.shouldRun && !m.pending
  }

  predicate AllRun(m: Machine) {
    forall i | 0 <= i < |m.states| ::
      m.states[i].autostart ==> m.states[i].pid != 0 && m.states[i].pid in m.live
  }

  // Whenever neither runOnce nor configReloaded is executing, the flag is down and no
  // signal is on its way, there is nothing left to do.  During a reload the first half
  // still holds.
  lemma NoLostWakeup(events: seq<Event>)
    requires Exec(INITIAL, events).Some?
    ensures
      var m := Exec(INITIAL, events).value;
      AtRest(m) ==> m.zombies == {} && (!m.reloading ==> AllRun(m))
  {
    InvHolds(events);
  }

  // ----- In the middle of a reload -----

  predicate InReload(events: seq<Event>) {
    forall i | 0 <= i < |events| :: !events[i].BeginReload? && !events[i].EndReload?
  }

  // Some pass over the records got as far as its last assignment.
  predicate Assigned(events: seq<Event>) {
    exists i | 0 <= i < |events| :: events[i].Assign?
  }

  // Before the first such assignment the machine only rests with the records the reload
  // left; after it, it only rests when everything runs.
  predicate ReloadInv(m: Machine, start: seq<Plugin>, done: bool) {
    && (m.phase.Leaving? ==> done)
    && (!done && (m.phase.Idle? || m.phase.Checked?) ==> m.states == start)
    && (done && m.phase.Idle? && !m.shouldRun ==> UpTo(m.states, |m.states|))
  }

  lemma ReloadStep(m: Machine, e: Event, start: seq<Plugin>, done: bool)
    requires WakeInv(m) && Enabled(m, e) && !e.BeginReload? && !e.EndReload?
    requires ReloadInv(m, start, done)
    ensures ReloadInv(Apply(m, e), start, done || e.Assign?)
  {
    match e {
      case Consider(t) =>
      case Launch(t, forked) =>
      case Reap(child, t) =>
      case _ =>
    }
  }

  lemma {:induction false} ReloadKeepsInv(before: seq<Event>, m: Machine, events: seq<Event>)
    requires Exec(INITIAL, before) == Some(m) && m.phase.Idle?
    requires Exec(m, events).Some? && InReload(events)
    ensures ReloadInv(Exec(m, events).value, m.states, Assigned(events))
  {
    if events != [] {
      var n := |events| - 1;
      var rest := events[..n];
      ReloadKeepsInv(before, m, rest);
      ExecConcat(INITIAL, before, rest);
      InvHolds(before + rest);
      ReloadStep(Exec(m, rest).value, events[n], m.states, Assigned(rest));
      AssignedSnoc(events);
    }
  }

  lemma AssignedSnoc(events: seq<Event>)
    requires events != []
    ensures Assigned(events) <==> Assigned(events[..|events| - 1]) || events[|events| - 1].Assign?
  {
    var rest := events[..|events| - 1];
    if Assigned(rest) {
      var i :| 0 <= i < |rest| && rest[i].Assign?;
      assert events[i].Assign?;
    }
    if Assigned(events) && !events[|events| - 1].Assign? {
      var i :| 0 <= i < |events| && events[i].Assign?;
      assert rest[i].Assign?;
    }
  }

  // At rest in the middle of a reload, every plugin that may start has a process if and
  // only if a pass was completed since the reload began, or they all had one to begin with.
  lemma AtRestInReload(before: seq<Event>, m: Machine, entries: seq<Entry>, events: seq<Event>)
    requires Exec(INITIAL, before) == Some(m) && Enabled(m, BeginReload(entries))
    requires Exec(Apply(m, BeginReload(entries)), events).Some? && InReload(events)
    ensures
      var start, end := Reconfigure(m.states, entries), Exec(Apply(m, BeginReload(entries)), events).value;
      AtRest(end) ==>
        end.zombies == {} && (AllRun(end) <==> Assigned(events) || UpTo(start, |start|))
  {
    var begun := before + [BeginReload(entries)];
    ExecSnoc(INITIAL, before, BeginReload(entries));
    ReloadKeepsInv(begun, Apply(m, BeginReload(entries)), events);
    ExecConcat(INITIAL, begun, events);
    InvHolds(begun + events);
  }

  const SAMPLE_PLUGIN := PluginConfig("p", "", "", false, "", map[])

  // The condition can fail: a record was added, but the flag is not up yet.
  lemma ReloadInProgressCanBeDown()
    ensures exists events ::
      && Exec(INITIAL, events).Some?
      && var m := Exec(INITIAL, events).value;
         AtRest(m) && m.reloading
         && |m.states| == 1 && m.states[0].autostart && m.states[0].pid == 0
  {
    var entry := Entry("p", SAMPLE_PLUGIN, "");
    var pass := IdlePass();
    ExecSnoc(INITIAL, pass, BeginReload([entry]));
    OneNewRecord(entry);
  }

  // A pass of a supervisor without plugins.
  lemma IdlePass() returns (e: seq<Event>)
    ensures Exec(INITIAL, e) == Some(INITIAL.(shouldRun := false))
  {
    e := [];
    ExecSnoc(INITIAL, e, Call);
    e := e + [Call];
    ExecSnoc(INITIAL, e, Block);
    e := e + [Block];
    ExecSnoc(INITIAL, e, ReapEnd);
    e := e + [ReapEnd];
    ExecSnoc(INITIAL, e, Assign);
    e := e + [Assign];
    ExecSnoc(INITIAL, e, Unblock);
    e := e + [Unblock];
  }

  lemma OneNewRecord(entry: Entry)
    ensures Reconfigure([], [entry]) == [Plugin(entry.key, entry.config, entry.network, true, 0, 0, 0, [])]
  {
    assert [entry][..0] == [];
    assert UpsertAll([], [entry]) == Upsert([], entry);
    assert [entry][0].key in Keys([entry]);
  }

  // Process ids name records uniquely and records name children uniquely, so wait4
  // never reports a stranger and a plugin is never started twice.
  lemma OneProcessPerPlugin(events: seq<Event>)
    requires Exec(INITIAL, events).Some?
    ensures
      var m := Exec(INITIAL, events).value;
      && (forall i, j | 0 <= i < |m.states| && 0 <= j < |m.states| ::
            m.states[i].pid != 0 && m.states[i].pid == m.states[j].pid ==> i == j)
      && (forall pid :: pid in m.live + m.zombies <==> pid != 0 && Owned(m.states, pid))
      && m.live !! m.zombies
      && (forall child | child in m.zombies :: IndexOfPid(m.states, child) < |m.states|)
      && (m.phase.Launching? ==> m.phase.chosen < |m.states| && m.states[m.phase.chosen].pid == 0)
  {
    InvHolds(events);
    var m := Exec(INITIAL, events).value;
    forall child | child in m.zombies ensures IndexOfPid(m.states, child) < |m.states| {
      assert Owned(m.states, child);
    }
  }

  // ----- Restart rate -----

  predicate NoReload(events: seq<Event>) {
    forall i | 0 <= i < |events| :: !events[i].BeginReload?
  }

  // The start attempts of record i during the given events.
  function Launches(m: Machine, events: seq<Event>, i: nat): seq<Start>
    requires Exec(m, events).Some?
  {
    if events == [] then []
    else
      var n := |events| - 1;
      var k := Exec(m, events[..n]).value;
      Launches(m, events[..n], i) + LaunchAt(k, events[n], i)
  }

  // Those that fall within a window of time.
  function StartsIn(s: seq<Start>, from: int, to: int): nat {
    if s == [] then 0
    else
      var n := |s| - 1;
      StartsIn(s[..n], from, to) + if from <= s[n].time <= to then 1 else 0
  }

  // Only a reload changes which plugins are to run and how they are configured.
  ghost predicate SameSettings(before: seq<Plugin>, after: seq<Plugin>) {
    && |before| == |after|
    && forall i | 0 <= i < |before| ::
         && after[i].key == before[i].key && after[i].autostart == before[i].autostart
         && after[i].config == before[i].config && after[i].network == before[i].network
  }

  // What a step other than a reload leaves alone.
  lemma StepKeepsSettings(m: Machine, e: Event)
    requires Enabled(m, e) && !e.BeginReload?
    ensures SameSettings(m.states, Apply(m, e).states)
  {
    match e {
      case Reap(child, t) =>
      case Consider(t) =>
      case Launch(t, forked) =>
      case _ =>
    }
  }

  lemma StepFrame(m: Machine, e: Event)
    requires Enabled(m, e) && !e.BeginReload?
    ensures SameSettings(m.states, Apply(m, e).states)
    ensures forall i | 0 <= i < |m.states| ::
      Apply(m, e).states[i].starts == m.states[i].starts + LaunchAt(m, e, i)
  {
    StepKeepsSettings(m, e);
    match e {
      case Reap(child, t) =>
      case Consider(t) =>
      case Launch(t, forked) =>
      case _ =>
    }
  }

  function LaunchAt(m: Machine, e: Event, i: nat): seq<Start>
    requires Enabled(m, e)
  {
    if e.Launch? && m.phase.chosen == i then [Start(e.time, m.states[i].failures)] else []
  }

  // A reload-free run extends the history of a record by exactly its start attempts.
  lemma {:induction false} LaunchesExtendHistory(m: Machine, events: seq<Event>, i: nat)
    requires Exec(m, events).Some? && NoReload(events) && i < |m.states|
    ensures |Exec(m, events).value.states| == |m.states|
    ensures Exec(m, events).value.states[i].starts == m.states[i].starts + Launches(m, events, i)
  {
    if events != [] {
      var n := |events| - 1;
      LaunchesExtendHistory(m, events[..n], i);
      StepFrame(Exec(m, events[..n]).value, events[n]);
    }
  }

  lemma SettingsBetweenReloads(before: seq<Event>, m: Machine, events: seq<Event>, m': Machine)
    requires Reaches(before, m) && Reaches(before + events, m') && NoReload(events)
    ensures SameSettings(m.states, m'.states)
  {
    ReachesIsExec(before, m);
    ReachesIsExec(before + events, m');
    ExecConcat(INITIAL, before, events);
    RunsKeepSettings(m, events);
  }

  // The attempts within a window lie between the first and the last of them.
  lemma {:induction false} WindowSpan(s: seq<Start>, from: int, to: int) returns (i: nat, j: nat)
    ensures StartsIn(s, from, to) > 0 ==>
      && i <= j < |s|
      && from <= s[i].time && s[j].time <= to
      && StartsIn(s, from, to) <= j - i + 1
  {
    i, j := 0, 0;
    if s != [] {
      var n := |s| - 1;
      i, j := WindowSpan(s[..n], from, to);
      if from <= s[n].time <= to {
        i, j := if StartsIn(s[..n], from, to) == 0 then n else i, n;
      }
    }
  }

  lemma PacedWindow(s: seq<Start>, from: int, length: nat)
    requires Paced(s)
    ensures StartsIn(s, from, from + length) <= 1 + (length + 1485) / MAX_WAIT_TIME
  {
    var a, b := WindowSpan(s, from, from + length);
    if StartsIn(s, from, from + length) > 0 {
      ShortfallBounds(s[b].failures);
      assert s[b].time - s[a].time >= MAX_WAIT_TIME * (b - a) - Shortfall(s[b].failures);
    }
  }

  lemma PacedSuffix(earlier: seq<Start>, s: seq<Start>)
    requires Paced(earlier + s)
    ensures Paced(s)
  {
    forall a, b | 0 <= a <= b < |s|
      ensures s[b].time - s[a].time >= MAX_WAIT_TIME * (b - a) - Shortfall(s[b].failures)
    {
      var k := |earlier|;
      assert (earlier + s)[k + a] == s[a] && (earlier + s)[k + b] == s[b];
    }
  }

  lemma LaunchesArePaced(m: Machine, events: seq<Event>, i: nat)
    requires Exec(m, events).Some? && PaceInv(Exec(m, events).value)
    requires NoReload(events) && i < |m.states|
    ensures Paced(Launches(m, events, i))
  {
    LaunchesExtendHistory(m, events, i);
    var end := Exec(m, events).value;
    assert Paced(end.states[i].starts);
    PacedSuffix(m.states[i].starts, Launches(m, events, i));
  }

  // Between reloads no plugin is started more often than once every MAX_WAIT_TIME
  // seconds, but for a fixed allowance of 1485 seconds.
  lemma RestartRate(before: seq<Event>, m: Machine, events: seq<Event>, i: nat, from: int, length: nat)
    requires Exec(INITIAL, before) == Some(m) && Exec(m, events).Some?
    requires NoReload(events) && i < |m.states|
    ensures StartsIn(Launches(m, events, i), from, from + length) <= 1 + (length + 1485) / MAX_WAIT_TIME
  {
    assert PaceInv(Exec(m, events).value) by {
      ExecConcat(INITIAL, before, events);
      InvHolds(before + events);
    }
    LaunchesArePaced(m, events, i);
    PacedWindow(Launches(m, events, i), from, length);
  }

  // The failure count cannot outgrow the int computation of the wait any sooner than
  // two hours after the first attempt.
  lemma OverflowTakesTwoHours(events: seq<Event>)
    requires Exec(INITIAL, events).Some?
    ensures
      var m := Exec(INITIAL, events).value;
      && (m.phase.Undefined? ==>
            exists i | 0 <= i < |m.states| :: m.states[i].pid == 0 && m.states[i].failures >= 30)
      && forall i | 0 <= i < |m.states| && m.states[i].failures >= 30 ::
           && |m.states[i].starts| > 0
           && var first := m.states[i].starts[0];
              && first.failures <= 1
              && m.now - first.time >= 7215 - TotalWait(first.failures)
  {
    InvHolds(events);
    var m := Exec(INITIAL, events).value;
    forall i | 0 <= i < |m.states| && m.states[i].failures >= 30
      ensures |m.states[i].starts| > 0 && m.states[i].starts[0].failures <= 1
      ensures m.now - m.states[i].starts[0].time >= 7215 - TotalWait(m.states[i].starts[0].failures)
    {
      var s := m.states[i].starts;
      assert Linked(m.states[i], m.now) && Climbing(s);
      var last := s[|s| - 1];
      TotalWaitBounds(last.failures);
    }
  }

  lemma {:induction false} RunsKeepSettings(m: Machine, events: seq<Event>)
    requires Exec(m, events).Some? && NoReload(events)
    ensures SameSettings(m.states, Exec(m, events).value.states)
  {
    if events != [] {
      var n := |events| - 1;
      RunsKeepSettings(m, events[..n]);
      StepFrame(Exec(m, events[..n]).value, events[n]);
    }
  }

  // ----- Reload -----

  // The records a configuration asks for: one per global plugin, and one per network for
  // the others.
  function NetworkEntries(p: PluginConfig, networks: seq<NetworkConfig>): seq<Entry> {
    seq(|networks|, i requires 0 <= i < |networks| => Entry(p.name + "!" + networks[i].name, p, networks[i].name))
  }

  function PluginEntries(p: PluginConfig, networks: seq<NetworkConfig>): seq<Entry> {
    if p.perNetwork then NetworkEntries(p, networks) else [Entry(p.name, p, "")]
  }

  function Entries(plugins: seq<PluginConfig>, networks: seq<NetworkConfig>): seq<Entry> {
    if plugins == [] then []
    else
      var n := |plugins| - 1;
      Entries(plugins[..n], networks) + PluginEntries(plugins[n], networks)
  }

  function AutostartKeys(states: seq<Plugin>): set<string> {
    set i | 0 <= i < |states| && states[i].autostart :: states[i].key
  }

  // A key is asked for if it names a global plugin, or a plugin and a network.
  ghost predicate Configured(plugins: seq<PluginConfig>, networks: seq<NetworkConfig>, key: string) {
    || (exists i | 0 <= i < |plugins| :: !plugins[i].perNetwork && plugins[i].name == key)
    || (exists i, j | 0 <= i < |plugins| && 0 <= j < |networks| ::
          plugins[i].perNetwork && plugins[i].name + "!" + networks[j].name == key)
  }

  lemma {:induction false} EntriesAreConfigured(plugins: seq<PluginConfig>, networks: seq<NetworkConfig>, key: string)
    ensures key in Keys(Entries(plugins, networks)) <==> Configured(plugins, networks, key)
  {
    if plugins != [] {
      var n := |plugins| - 1;
      EntriesAreConfigured(plugins[..n], networks, key);
      KeysOfConcat(Entries(plugins[..n], networks), PluginEntries(plugins[n], networks));
      ConfiguredByLast(plugins, networks, key);
    }
  }

  lemma KeysOfConcat(a: seq<Entry>, b: seq<Entry>)
    ensures Keys(a + b) == Keys(a) + Keys(b)
  {
    assert forall i | 0 <= i < |a| :: (a + b)[i] == a[i];
    assert forall i | 0 <= i < |b| :: (a + b)[|a| + i] == b[i];
    forall key | key in Keys(b) ensures key in Keys(a + b) {
      var i :| 0 <= i < |b| && b[i].key == key;
      assert (a + b)[|a| + i].key == key;
    }
    forall key | key in Keys(a) ensures key in Keys(a + b) {
      var i :| 0 <= i < |a| && a[i].key == key;
      assert (a + b)[i].key == key;
    }
  }

  lemma ConfiguredByLast(plugins: seq<PluginConfig>, networks: seq<NetworkConfig>, key: string)
    requires plugins != []
    ensures Configured(plugins, networks, key) <==>
      || Configured(plugins[..|plugins| - 1], networks, key)
      || key in Keys(PluginEntries(plugins[|plugins| - 1], networks))
  {
    var n := |plugins| - 1;
    var own := PluginEntries(plugins[n], networks);
    if key in Keys(own) {
      var i :| 0 <= i < |own| && own[i].key == key;
      assert plugins[n].perNetwork ==> plugins[n].name + "!" + networks[i].name == key;
    }
    if Configured(plugins, networks, key) && !Configured(plugins[..n], networks, key) {
      if !plugins[n].perNetwork {
        assert own[0].key == key;
      } else {
        var i, j :| 0 <= i < |plugins| && 0 <= j < |networks|
                    && plugins[i].perNetwork && plugins[i].name + "!" + networks[j].name == key;
        assert own[j].key == key;
      }
    }
  }

  // Record x is the one for a key: it may start with that configuration.  If there was a
  // record for the key before, this is the one, and it keeps its network.
  predicate Serves(before: seq<Plugin>, after: seq<Plugin>, x: nat, key: string, config: PluginConfig,
      network: string)
  {
    && x < |after| && after[x].key == key && after[x].autostart && after[x].config == config
    && if x < |before| then before[x].key == key && after[x].network == before[x].network
       else after[x].network == network && forall y | 0 <= y < |before| :: before[y].key != key
  }

  ghost predicate HasRecord(before: seq<Plugin>, after: seq<Plugin>, key: string, config: PluginConfig,
      network: string, reset: bool)
  {
    exists x: nat :: Serves(before, after, x, key, config, network) && (reset ==> after[x].failures == 0)
  }

  // A record for every global plugin, and for every network of the others; reset if there
  // is no failure on any of them.
  ghost predicate AllServed(before: seq<Plugin>, after: seq<Plugin>, plugins: seq<PluginConfig>,
      networks: seq<NetworkConfig>, reset: bool)
  {
    && (forall i | 0 <= i < |plugins| && !plugins[i].perNetwork ::
          HasRecord(before, after, plugins[i].name, plugins[i], "", reset))
    && (forall i, j | 0 <= i < |plugins| && 0 <= j < |networks| && plugins[i].perNetwork ::
          HasRecord(before, after, plugins[i].name + "!" + networks[j].name, plugins[i], networks[j].name, reset))
  }

  // The entry of every global plugin, and of every network of the others.
  lemma {:induction false} GlobalEntry(plugins: seq<PluginConfig>, networks: seq<NetworkConfig>, i: nat)
    requires i < |plugins| && !plugins[i].perNetwork
    ensures Entry(plugins[i].name, plugins[i], "") in Entries(plugins, networks)
  {
    var n := |plugins| - 1;
    if i < n {
      GlobalEntry(plugins[..n], networks, i);
    } else {
      assert PluginEntries(plugins[n], networks)[0] in PluginEntries(plugins[n], networks);
    }
  }

  lemma {:induction false} NetworkEntry(plugins: seq<PluginConfig>, networks: seq<NetworkConfig>, i: nat, j: nat)
    requires i < |plugins| && j < |networks| && plugins[i].perNetwork
    ensures Entry(plugins[i].name + "!" + networks[j].name, plugins[i], networks[j].name)
         in Entries(plugins, networks)
  {
    var n := |plugins| - 1;
    if i < n {
      NetworkEntry(plugins[..n], networks, i, j);
    } else {
      assert PluginEntries(plugins[n], networks)[j] in PluginEntries(plugins[n], networks);
    }
  }

  lemma {:induction false} AddedAreAskedFor(states: seq<Plugin>, entries: seq<Entry>, x: nat)
    requires |states| <= x < |UpsertAll(states, entries)|
    ensures UpsertAll(states, entries)[x].key in Keys(entries)
  {
    var n := |entries| - 1;
    var before := UpsertAll(states, entries[..n]);
    assert entries[n].key in Keys(entries);
    if x < |before| {
      AddedAreAskedFor(states, entries[..n], x);
      var k :| 0 <= k < n && entries[..n][k].key == before[x].key;
      assert entries[k].key == before[x].key;
    }
  }

  // Every entry has a record, without failures on it.
  lemma {:induction false} UpsertAllServes(states: seq<Plugin>, entries: seq<Entry>, k: nat) returns (x: nat)
    requires DistinctKeys(entries) && k < |entries|
    ensures
      var after, e := UpsertAll(states, entries), entries[k];
      Serves(states, after, x, e.key, e.config, e.network) && after[x].failures == 0
  {
    var n := |entries| - 1;
    var before, e := UpsertAll(states, entries[..n]), entries[n];
    UpsertAllKeepsProcesses(states, entries[..n]);
    if k == n {
      x := IndexOfKey(before, e.key);
      assert forall y | 0 <= y < |states| :: before[y].key == states[y].key;
      assert forall y | 0 <= y < n :: entries[..n][y].key != e.key;
      if |states| <= x < |before| {
        AddedAreAskedFor(states, entries[..n], x);
        assert false;
      }
    } else {
      x := UpsertAllServes(states, entries[..n], k);
      assert entries[k].key != entries[n].key;
    }
  }

  // A record that is not asked for only loses its autostart flag.
  lemma {:induction false} UpsertAllKeepsOthers(states: seq<Plugin>, entries: seq<Entry>, x: nat)
    requires x < |states| && states[x].key !in Keys(entries)
    ensures x < |UpsertAll(states, entries)| && UpsertAll(states, entries)[x] == states[x]
  {
    if entries != [] {
      var n := |entries| - 1;
      assert entries[n].key in Keys(entries);
      forall key | key in Keys(entries[..n]) ensures key in Keys(entries) {
        var i :| 0 <= i < n && entries[..n][i].key == key;
        assert entries[i].key == key;
      }
      UpsertAllKeepsOthers(states, entries[..n], x);
    }
  }

  lemma SameSettingsSameKeys(before: seq<Plugin>, after: seq<Plugin>)
    requires SameSettings(before, after)
    ensures AutostartKeys(before) == AutostartKeys(after)
  {
    forall key | key in AutostartKeys(before) ensures key in AutostartKeys(after) {
      var i :| 0 <= i < |before| && before[i].autostart && before[i].key == key;
      assert after[i].autostart && after[i].key == key;
    }
    forall key | key in AutostartKeys(after) ensures key in AutostartKeys(before) {
      var i :| 0 <= i < |after| && after[i].autostart && after[i].key == key;
      assert before[i].autostart && before[i].key == key;
    }
  }

  lemma EntryIsServed(states: seq<Plugin>, entries: seq<Entry>, e: Entry)
    requires DistinctKeys(entries) && e in entries
    ensures HasRecord(states, UpsertAll(states, entries), e.key, e.config, e.network, true)
    ensures HasRecord(states, Reconfigure(states, entries), e.key, e.config, e.network, true)
  {
    var k :| 0 <= k < |entries| && entries[k] == e;
    var x := UpsertAllServes(states, entries, k);
    assert e.key in Keys(entries);
    assert Serves(states, UpsertAll(states, entries), x, e.key, e.config, e.network);
    assert Serves(states, Reconfigure(states, entries), x, e.key, e.config, e.network);
  }

  lemma ConfiguredAreServed(states: seq<Plugin>, plugins: seq<PluginConfig>, networks: seq<NetworkConfig>)
    requires DistinctKeys(Entries(plugins, networks))
    ensures AllServed(states, UpsertAll(states, Entries(plugins, networks)), plugins, networks, true)
    ensures AllServed(states, Reconfigure(states, Entries(plugins, networks)), plugins, networks, true)
  {
    var entries := Entries(plugins, networks);
    forall e | e in entries
      ensures HasRecord(states, UpsertAll(states, entries), e.key, e.config, e.network, true)
      ensures HasRecord(states, Reconfigure(states, entries), e.key, e.config, e.network, true)
    {
      EntryIsServed(states, entries, e);
    }
    forall i | 0 <= i < |plugins| && !plugins[i].perNetwork
      ensures Entry(plugins[i].name, plugins[i], "") in entries
    {
      GlobalEntry(plugins, networks, i);
    }
    forall i, j | 0 <= i < |plugins| && 0 <= j < |networks| && plugins[i].perNetwork
      ensures Entry(plugins[i].name + "!" + networks[j].name, plugins[i], networks[j].name) in entries
    {
      NetworkEntry(plugins, networks, i, j);
    }
  }

  // A reload ends in exactly the configured set, whatever the records were before: every
  // configured plugin has its record, with its configuration and network and no failures,
  // the others may not start any more, and every process stays with its record.
  lemma ReloadIsExact(states: seq<Plugin>, plugins: seq<PluginConfig>, networks: seq<NetworkConfig>)
    requires DistinctKeys(Entries(plugins, networks))
    ensures
      var after := Reconfigure(states, Entries(plugins, networks));
      && (forall key :: key in AutostartKeys(after) <==> Configured(plugins, networks, key))
      && KeepsProcesses(states, after)
      && AllServed(states, after, plugins, networks, true)
      && (forall x | 0 <= x < |states| && !Configured(plugins, networks, states[x].key) ::
            after[x] == states[x].(autostart := false))
  {
    var entries := Entries(plugins, networks);
    ReconfigureKeepsProcesses(states, entries);
    ConfiguredAreServed(states, plugins, networks);
    forall key ensures key in AutostartKeys(Reconfigure(states, entries)) <==> Configured(plugins, networks, key) {
      KeysAreConfigured(states, plugins, networks, key);
    }
    forall x | 0 <= x < |states| && !Configured(plugins, networks, states[x].key)
      ensures Reconfigure(states, entries)[x] == states[x].(autostart := false)
    {
      EntriesAreConfigured(plugins, networks, states[x].key);
      UpsertAllKeepsOthers(states, entries, x);
    }
  }

  lemma KeysAreConfigured(states: seq<Plugin>, plugins: seq<PluginConfig>, networks: seq<NetworkConfig>, key: string)
    requires DistinctKeys(Entries(plugins, networks))
    ensures
      key in AutostartKeys(Reconfigure(states, Entries(plugins, networks))) <==> Configured(plugins, networks, key)
  {
    var entries := Entries(plugins, networks);
    EntriesAreConfigured(plugins, networks, key);
    if key in Keys(entries) {
      var k :| 0 <= k < |entries| && entries[k].key == key;
      var x := UpsertAllServes(states, entries, k);
      assert Reconfigure(states, entries)[x].autostart && Reconfigure(states, entries)[x].key == key;
    }
  }

  // What a reload gave every configured plugin stays until the next one.
  lemma ServedStaysServed(before: seq<Plugin>, after: seq<Plugin>, later: seq<Plugin>, plugins: seq<PluginConfig>,
      networks: seq<NetworkConfig>)
    requires AllServed(before, after, plugins, networks, true) && SameSettings(after, later)
    ensures AllServed(before, later, plugins, networks, false)
  {
    forall key, config, network | HasRecord(before, after, key, config, network, true)
      ensures HasRecord(before, later, key, config, network, false)
    {
      var x: nat :| Serves(before, after, x, key, config, network) && (true ==> after[x].failures == 0);
      assert Serves(before, later, x, key, config, network);
    }
  }
}
