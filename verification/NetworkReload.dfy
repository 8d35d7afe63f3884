/** How the bot's networks follow the configuration (the loops of DaZeus::loadConfig in
    src/dazeus.cpp). */
module NetworkReload {
  import opened Settings

  // What can be seen of a network: its configuration and whether it was told to connect.
  datatype Status = Status(config: NetworkConfig, connected: bool)

  type Statuses = map<string, Status>

  // ----- What a reload comes to -----

  function Upsert(v: Statuses, c: NetworkConfig): Statuses {
    v[c.name := if c.name in v then v[c.name].(config := c) else Status(c, c.autoConnect)]
  }

  function UpsertAll(v: Statuses, cs: seq<NetworkConfig>): Statuses {
    if cs == [] then v else Upsert(UpsertAll(v, cs[..|cs| - 1]), cs[|cs| - 1])
  }

  function Names(cs: seq<NetworkConfig>): set<string> {
    set c | c in cs :: c.name
  }

  function Only(v: Statuses, names: set<string>): Statuses {
    map name | name in v && name in names :: v[name]
  }

  function Reloaded(v: Statuses, cs: seq<NetworkConfig>): Statuses {
    Only(UpsertAll(v, cs), Names(cs))
  }

  function LastNamed(cs: seq<NetworkConfig>, name: string): (c: NetworkConfig)
    requires name in Names(cs)
    ensures c in cs && c.name == name
  {
    var n := |cs| - 1;
    if cs[n].name == name then cs[n]
    else
      assert cs == cs[..n] + [cs[n]];
      LastNamed(cs[..n], name)
  }

  function FirstNamed(cs: seq<NetworkConfig>, name: string): (c: NetworkConfig)
    requires name in Names(cs)
    ensures c in cs && c.name == name
  {
    if cs[0].name == name then cs[0] else FirstNamed(cs[1..], name)
  }

  lemma {:induction false} FirstNamedOfPrefix(cs: seq<NetworkConfig>, n: nat, name: string)
    requires n <= |cs| && name in Names(cs[..n])
    ensures name in Names(cs) && FirstNamed(cs[..n], name) == FirstNamed(cs, name)
    decreases n
  {
    assert forall c | c in cs[..n] :: c in cs;
    if cs[0].name != name {
      assert cs[..n][1..] == cs[1..][..n - 1];
      FirstNamedOfPrefix(cs[1..], n - 1, name);
    }
  }

  lemma {:induction false} UpsertAllAt(v: Statuses, cs: seq<NetworkConfig>, name: string)
    ensures name in UpsertAll(v, cs) <==> name in v || name in Names(cs)
    ensures name in v && name !in Names(cs) ==> UpsertAll(v, cs)[name] == v[name]
    ensures name in Names(cs) ==>
      && UpsertAll(v, cs)[name].config == LastNamed(cs, name)
      && UpsertAll(v, cs)[name].connected == if name in v then v[name].connected else FirstNamed(cs, name).autoConnect
  {
    if cs != [] {
      var n := |cs| - 1;
      UpsertAllAt(v, cs[..n], name);
      assert cs == cs[..n] + [cs[n]];
      if name in Names(cs[..n]) {
        FirstNamedOfPrefix(cs, n, name);
      } else if name == cs[n].name {
        NewNameIsFirst(cs, n);
      }
    }
  }

  lemma {:induction false} NewNameIsFirst(cs: seq<NetworkConfig>, n: nat)
    requires n < |cs| && cs[n].name !in Names(cs[..n])
    ensures cs[n].name in Names(cs) && FirstNamed(cs, cs[n].name) == cs[n]
    decreases n
  {
    assert cs[n] in cs;
    if n > 0 {
      assert cs[0] in cs[..n];
      assert forall c | c in cs[1..][..n - 1] :: c in cs[..n];
      NewNameIsFirst(cs[1..], n - 1);
    }
  }

  // A reload ends with exactly the configured networks, each with the last configuration of
  // its name.  Those that were there stay as connected as they were; a new one was told to
  // connect if the first configuration of its name asks for it.
  lemma ReloadIsExact(v: Statuses, cs: seq<NetworkConfig>)
    ensures Reloaded(v, cs).Keys == Names(cs)
    ensures forall name | name in Names(cs) ::
      Reloaded(v, cs)[name].config == LastNamed(cs, name)
      && Reloaded(v, cs)[name].connected == if name in v then v[name].connected else FirstNamed(cs, name).autoConnect
  {
    forall name {
      UpsertAllAt(v, cs, name);
    }
  }

  // So reloading the same configuration again changes nothing.
  lemma ReloadAgain(v: Statuses, cs: seq<NetworkConfig>)
    ensures Reloaded(Reloaded(v, cs), cs) == Reloaded(v, cs)
  {
    ReloadIsExact(v, cs);
    ReloadIsExact(Reloaded(v, cs), cs);
    var once, twice := Reloaded(v, cs), Reloaded(Reloaded(v, cs), cs);
    forall name | name in Names(cs) ensures twice[name] == once[name] {
      assert name in once;
    }
  }

  // ----- The objects -----

  ghost function Kept(networks: map<string, Network>, names: set<string>): map<string, Network> {
    map name | name in networks && name in names :: networks[name]
  }

  lemma KeptStep(all: map<string, Network>, left: set<string>, names: set<string>, name: string)
    requires name in left && left <= all.Keys
    ensures Kept(all, left - {name} + names)
         == if name in names then Kept(all, left + names) else Kept(all, left + names) - {name}
  {
    assert name in names ==> left - {name} + names == left + names;
  }

  lemma OnlyStep(v: Statuses, left: set<string>, names: set<string>, name: string)
    requires name in left
    ensures Only(v, left - {name} + names)
         == if name in names then Only(v, left + names) else Only(v, left + names) - {name}
  {
    assert name in names ==> left - {name} + names == left + names;
  }

  class Network {
    var config: NetworkConfig
    var connected: bool

    constructor (config: NetworkConfig)
      ensures this.config == config && !connected
    {
      this.config := config;
      connected := false;
    }

    ghost function View(): Status
      reads this
    {
      Status(config, connected)
    }

    method AutoConnectEnabled() returns (enabled: bool)
      ensures enabled == config.autoConnect
    {
      enabled := config.autoConnect;
    }

    method ConnectToNetwork()
      modifies this`connected
      ensures connected
    {
      connected := true;
    }

    method DisconnectFromNetwork()
      modifies this`connected
      ensures !connected
    {
      connected := false;
    }

    method ResetConfig(config: NetworkConfig)
      modifies this`config
      ensures this.config == config
    {
      this.config := config;
    }
  }

  class DaZeus {
    var networks: map<string, Network>

    constructor ()
      ensures networks == map[] && Apart()
    {
      networks := map[];
    }

    ghost predicate Apart()
      reads this
    {
      forall a, b | a in networks && b in networks && a != b :: networks[a] != networks[b]
    }

    ghost function View(): Statuses
      reads this, networks.Values
    {
      map name | name in networks :: networks[name].View()
    }

    // The first loop: what is configured is there, and objects that were there stay.
    method AddConfigured(configs: seq<NetworkConfig>)
      requires Apart()
      modifies this, networks.Values
      ensures Apart() && View() == UpsertAll(old(View()), configs)
      ensures forall name | name in old(networks) :: name in networks && networks[name] == old(networks[name])
      ensures forall name | name in networks && name !in old(networks) :: fresh(networks[name])
    {
      var i := 0;
      while i < |configs|
        invariant i <= |configs|
        invariant Apart() && View() == UpsertAll(old(View()), configs[..i])
        invariant forall name | name in old(networks) :: name in networks && networks[name] == old(networks[name])
        invariant forall name | name in networks && name !in old(networks) :: fresh(networks[name])
      {
        AddOne(configs[i]);
        assert configs[..i + 1][..i] == configs[..i];
        i := i + 1;
      }
      assert configs[..i] == configs;
    }

    method AddOne(config: NetworkConfig)
      requires Apart()
      modifies this, networks.Values
      ensures Apart() && View() == Upsert(old(View()), config)
      ensures networks.Keys == old(networks).Keys + {config.name}
      ensures forall name | name in old(networks) :: networks[name] == old(networks[name])
      ensures config.name !in old(networks) ==> fresh(networks[config.name])
    {
      if config.name !in networks {
        var net := new Network(config);
        networks := networks[config.name := net];
        var enabled := net.AutoConnectEnabled();
        if enabled {
          net.ConnectToNetwork();
        }
      } else {
        networks[config.name].ResetConfig(config);
      }
    }

    // The second loop: what is not configured any more is disconnected and forgotten.
    method RemoveGone(configs: seq<NetworkConfig>)
      requires Apart()
      modifies this, networks.Values
      ensures Apart() && networks == Kept(old(networks), Names(configs))
      ensures View() == Only(old(View()), Names(configs))
      ensures forall name | name in old(networks) && name !in networks :: !old(networks)[name].connected
    {
      ghost var all, names := networks, Names(configs);
      var left := networks.Keys;
      while left != {}
        invariant left <= networks.Keys
        invariant networks == Kept(all, left + names)
        invariant View() == Only(old(View()), left + names)
        invariant forall name | name in all && name !in networks :: !all[name].connected
        decreases left
      {
        var name :| name in left;
        Visit(name, networks[name], configs, all);
        KeptStep(all, left, names, name);
        OnlyStep(old(View()), left, names, name);
        left := left - {name};
      }
      assert {} + names == names;
    }

    // One turn of it.
    method Visit(name: string, net: Network, configs: seq<NetworkConfig>, ghost all: map<string, Network>)
      requires Apart() && name in networks && networks[name] == net
      requires forall n | n in networks :: n in all && all[n] == networks[n]
      requires forall n | n in all && n !in networks :: !all[n].connected
      modifies this, net`connected
      ensures networks == if name in Names(configs) then old(networks) else old(networks) - {name}
      ensures View() == if name in Names(configs) then old(View()) else old(View()) - {name}
      ensures forall n | n in all && n !in networks :: !all[n].connected
    {
      var found := IsConfigured(name, configs);
      if !found {
        networks := networks - {name};
        net.DisconnectFromNetwork();
      }
    }

    static method IsConfigured(name: string, configs: seq<NetworkConfig>) returns (found: bool)
      ensures found <==> name in Names(configs)
    {
      found := false;
      var i := 0;
      while i < |configs|
        invariant i <= |configs|
        invariant forall j | 0 <= j < i :: configs[j].name != name
      {
        if configs[i].name == name {
          found := true;
          break;
        }
        i := i + 1;
      }
    }

    // Both loops: exactly the configured networks, the survivors being the objects they were.
    method LoadNetworks(configs: seq<NetworkConfig>)
      requires Apart()
      modifies this, networks.Values
      ensures Apart() && networks.Keys == Names(configs)
      ensures View() == Reloaded(old(View()), configs)
      ensures forall name | name in networks ::
        if name in old(networks) then networks[name] == old(networks)[name] else fresh(networks[name])
      ensures forall name | name in old(networks) && name !in networks :: !old(networks)[name].connected
    {
      ghost var before := View();
      AddConfigured(configs);
      RemoveGone(configs);
      ReloadIsExact(before, configs);
      assert View().Keys == networks.Keys;
    }
  }
}
