/** Every configuration with trimmed values can be written as a file that is read back as
    that configuration (src/config.cpp). */
module ConfigRoundTrip {
  import opened ConfigDocument
  import opened ConfigParse
  import opened ConfigReader
  import opened ConfigFile
  import opened Settings

  // ----- What can be written -----

  // The library leaves these words alone, and a network starts without servers.
  predicate Ordinary(lib: Library) {
    && (forall word | word in {"true", "network", "global"} :: lib.lower(lib.trim(word)) == word)
    && lib.lower(lib.trim("false")) !in {"true", "yes", "1"}
    && lib.network.servers == []
  }

  predicate Trimmed(lib: Library, text: string) {
    lib.trim(text) == text
  }

  predicate WritableSocket(lib: Library, c: SocketConfig) {
    Trimmed(lib, c.kind) && Trimmed(lib, c.host) && Trimmed(lib, c.path) && 0 <= c.port <= 65535
  }

  predicate WritableDatabase(lib: Library, c: DatabaseConfig) {
    && Trimmed(lib, c.kind) && Trimmed(lib, c.hostname) && 0 <= c.port <= 65535
    && Trimmed(lib, c.username) && Trimmed(lib, c.password)
    && Trimmed(lib, c.filename) && Trimmed(lib, c.database) && Trimmed(lib, c.options)
  }

  predicate WritableGlobal(lib: Library, c: GlobalConfig) {
    && Trimmed(lib, c.nickname) && Trimmed(lib, c.username) && Trimmed(lib, c.fullname)
    && Trimmed(lib, c.pluginDirectory) && Trimmed(lib, c.highlight)
  }

  predicate WritableNetwork(lib: Library, c: NetworkConfig) {
    && c.displayName == c.name
    && Trimmed(lib, c.nickName) && Trimmed(lib, c.userName) && Trimmed(lib, c.fullName) && Trimmed(lib, c.password)
    && forall s | s in c.servers :: Trimmed(lib, s.host)
  }

  predicate WritablePlugin(lib: Library, c: PluginConfig) {
    && c.name != ""
    && Trimmed(lib, c.path) && Trimmed(lib, c.executable) && Trimmed(lib, c.parameters)
    && forall k | k in c.variables :: Trimmed(lib, k) && Trimmed(lib, c.variables[k])
  }

  predicate Writable(lib: Library, c: Configuration) {
    && WritableGlobal(lib, c.global)
    && (forall s | s in c.sockets :: WritableSocket(lib, s))
    && c.database.Some? && WritableDatabase(lib, c.database.value)
    && (forall n | n in c.networks :: WritableNetwork(lib, n))
    && (forall p | p in c.plugins :: WritablePlugin(lib, p))
  }

  // ----- Records as settings -----

  function Text(name: string, text: string): Setting {
    Setting(name, text, 0, [])
  }

  function Number(name: string, value: int): Setting {
    Setting(name, "", value, [])
  }

  function Flag(name: string, value: bool): Setting {
    Setting(name, if value then "true" else "false", 0, [])
  }

  predicate Distinct(ss: seq<Setting>) {
    forall i, j | 0 <= i < j < |ss| :: ss[i].name != ss[j].name
  }

  // After whatever was written before, the settings of a record count.
  lemma {:induction false} TextAt(lib: Library, before: seq<Setting>, ss: seq<Setting>, k: nat, default: string)
    requires k < |ss| && Distinct(ss)
    ensures LastText(lib, before + ss, ss[k].name, default) == lib.trim(ss[k].text)
  {
    var n := |ss| - 1;
    assert (before + ss)[..|before + ss| - 1] == before + ss[..n];
    if k < n {
      TextAt(lib, before, ss[..n], k, default);
    }
  }

  lemma {:induction false} FlagAt(lib: Library, ss: seq<Setting>, k: nat, default: bool)
    requires k < |ss| && Distinct(ss)
    ensures LastFlag(lib, ss, ss[k].name, default) == IsTrue(lib, ss[k].text)
  {
    if k < |ss| - 1 {
      FlagAt(lib, ss[..|ss| - 1], k, default);
    }
  }

  lemma {:induction false} ValueAt(ss: seq<Setting>, k: nat, default: int)
    requires k < |ss| && Distinct(ss)
    ensures LastValue(ss, ss[k].name, default) == ss[k].value
  {
    if k < |ss| - 1 {
      ValueAt(ss[..|ss| - 1], k, default);
    }
  }

  lemma TextIn(lib: Library, ss: seq<Setting>, k: nat, name: string, default: string)
    requires k < |ss| && Distinct(ss) && ss[k].name == name
    ensures LastText(lib, ss, name, default) == lib.trim(ss[k].text)
  {
    assert [] + ss == ss;
    TextAt(lib, [], ss, k, default);
  }

  function SocketSettings(c: SocketConfig): seq<Setting> {
    [Text("type", c.kind), Text("host", c.host), Number("port", c.port), Text("path", c.path)]
  }

  lemma SocketNamesDiffer(c: SocketConfig)
    ensures Distinct(SocketSettings(c))
  {
  }

  lemma SocketIsRead(lib: Library, c: SocketConfig)
    requires WritableSocket(lib, c)
    ensures SocketOf(lib, SocketSettings(c)) == c && forall s | s in SocketSettings(c) :: SocketTakes(s)
  {
    var ss := SocketSettings(c);
    SocketNamesDiffer(c);
    TextIn(lib, ss, 0, "type", "");
    TextIn(lib, ss, 1, "host", "");
    ValueAt(ss, 2, 0);
    TextIn(lib, ss, 3, "path", "");
  }

  function DatabaseSettings(c: DatabaseConfig): seq<Setting> {
    [ Text("type", c.kind), Text("host", c.hostname), Number("port", c.port), Text("username", c.username),
      Text("password", c.password), Text("filename", c.filename), Text("database", c.database),
      Text("options", c.options) ]
  }

  lemma DatabaseNamesDiffer(c: DatabaseConfig)
    ensures Distinct(DatabaseSettings(c))
  {
  }

  lemma DatabaseIsRead(lib: Library, c: DatabaseConfig)
    requires WritableDatabase(lib, c)
    ensures DatabaseOf(lib, DatabaseSettings(c)) == c && forall s | s in DatabaseSettings(c) :: DatabaseTakes(s)
  {
    var ss := DatabaseSettings(c);
    DatabaseNamesDiffer(c);
    TextIn(lib, ss, 0, "type", "");
    TextIn(lib, ss, 1, "host", "127.0.0.1");
    ValueAt(ss, 2, 27017);
    TextIn(lib, ss, 3, "username", "");
    TextIn(lib, ss, 4, "password", "");
    TextIn(lib, ss, 5, "filename", "");
    TextIn(lib, ss, 6, "database", "dazeus");
    TextIn(lib, ss, 7, "options", "");
  }

  function ServerSettings(c: ServerConfig): seq<Setting> {
    [ Text("host", c.host), Number("port", c.port), Number("priority", c.priority), Flag("ssl", c.ssl),
      Flag("sslverify", c.sslVerify) ]
  }

  lemma ServerNamesDiffer(c: ServerConfig)
    ensures Distinct(ServerSettings(c))
  {
  }

  lemma ServerIsRead(lib: Library, c: ServerConfig)
    requires Ordinary(lib) && Trimmed(lib, c.host)
    ensures ServerOf(lib, ServerSettings(c)) == c && forall s | s in ServerSettings(c) :: ServerTakes(s)
  {
    var ss := ServerSettings(c);
    ServerNamesDiffer(c);
    TextIn(lib, ss, 0, "host", "");
    ValueAt(ss, 1, lib.server.port);
    ValueAt(ss, 2, lib.server.priority);
    FlagAt(lib, ss, 3, lib.server.ssl);
    FlagAt(lib, ss, 4, lib.server.sslVerify);
  }

  function GlobalSettings(c: GlobalConfig): seq<Setting> {
    [ Text("nickname", c.nickname), Text("username", c.username), Text("fullname", c.fullname),
      Text("plugindirectory", c.pluginDirectory), Text("highlight", c.highlight) ]
  }

  lemma GlobalNamesDiffer(c: GlobalConfig)
    ensures Distinct(GlobalSettings(c))
  {
  }

  lemma GlobalIsRead(lib: Library, c: GlobalConfig)
    requires WritableGlobal(lib, c)
    ensures GlobalOf(lib, GlobalSettings(c)) == c && forall s | s in GlobalSettings(c) :: GlobalTakes(s)
  {
    var ss := GlobalSettings(c);
    GlobalNamesDiffer(c);
    TextIn(lib, ss, 0, "nickname", "DaZeus");
    TextIn(lib, ss, 1, "username", "DaZeus");
    TextIn(lib, ss, 2, "fullname", "DaZeus IRC bot");
    TextIn(lib, ss, 3, "plugindirectory", "plugins");
    TextIn(lib, ss, 4, "highlight", "}");
  }

  // ----- Networks -----

  function NetworkSettings(c: NetworkConfig): seq<Setting> {
    [ Text("nickname", c.nickName), Text("username", c.userName), Text("fullname", c.fullName),
      Text("password", c.password), Flag("autoconnect", c.autoConnect) ]
  }

  lemma {:induction false} WriteOwn(lib: Library, own: seq<Setting>) returns (parts: seq<Part>)
    requires forall s | s in own :: NetworkTakes(s)
    ensures OwnOf(parts) == own && ServersOf(lib, parts) == [] && forall part | part in parts :: GoodPart(part)
  {
    if own == [] {
      parts := [];
    } else {
      var n := |own| - 1;
      var before := WriteOwn(lib, own[..n]);
      parts := before + [Own(own[n])];
      assert parts[..|before|] == before;
      assert own == own[..n] + [own[n]];
    }
  }

  lemma PartsSnoc(lib: Library, parts: seq<Part>, ss: seq<Setting>)
    requires forall part | part in parts :: GoodPart(part)
    requires forall s | s in ss :: ServerTakes(s)
    ensures OwnOf(parts + [Server(ss)]) == OwnOf(parts)
    ensures ServersOf(lib, parts + [Server(ss)]) == ServersOf(lib, parts) + [ServerOf(lib, ss)]
    ensures forall part | part in parts + [Server(ss)] :: GoodPart(part)
  {
    assert (parts + [Server(ss)])[..|parts|] == parts;
    assert OwnOf(parts) + [] == OwnOf(parts);
  }

  lemma ServerPart(lib: Library, parts: seq<Part>, c: ServerConfig)
    requires forall part | part in parts :: GoodPart(part)
    requires Ordinary(lib) && Trimmed(lib, c.host)
    ensures
      var all := parts + [Server(ServerSettings(c))];
      OwnOf(all) == OwnOf(parts) && ServersOf(lib, all) == ServersOf(lib, parts) + [c]
      && forall part | part in all :: GoodPart(part)
  {
    ServerIsRead(lib, c);
    PartsSnoc(lib, parts, ServerSettings(c));
  }

  lemma {:induction false} WriteParts(lib: Library, own: seq<Setting>, servers: seq<ServerConfig>)
      returns (parts: seq<Part>)
    requires Ordinary(lib) && (forall s | s in own :: NetworkTakes(s))
    requires forall s | s in servers :: Trimmed(lib, s.host)
    ensures OwnOf(parts) == own && ServersOf(lib, parts) == servers && forall part | part in parts :: GoodPart(part)
  {
    if servers == [] {
      parts := WriteOwn(lib, own);
    } else {
      var n := |servers| - 1;
      var before := WriteParts(lib, own, servers[..n]);
      ServerPart(lib, before, servers[n]);
      parts := before + [Server(ServerSettings(servers[n]))];
      assert servers == servers[..n] + [servers[n]];
    }
  }

  lemma NetworkNamesDiffer(c: NetworkConfig)
    ensures Distinct(NetworkSettings(c))
  {
  }

  lemma OwnSettingsAreRead(lib: Library, g: GlobalConfig, c: NetworkConfig)
    requires Ordinary(lib) && WritableNetwork(lib, c)
    ensures
      var ss := NetworkSettings(c);
      && LastText(lib, ss, "nickname", g.nickname) == c.nickName
      && LastText(lib, ss, "username", g.username) == c.userName
      && LastText(lib, ss, "fullname", g.fullname) == c.fullName
      && LastText(lib, ss, "password", lib.network.password) == c.password
      && LastFlag(lib, ss, "autoconnect", lib.network.autoConnect) == c.autoConnect
      && forall s | s in ss :: NetworkTakes(s)
  {
    var ss := NetworkSettings(c);
    NetworkNamesDiffer(c);
    TextIn(lib, ss, 0, "nickname", g.nickname);
    TextIn(lib, ss, 1, "username", g.username);
    TextIn(lib, ss, 2, "fullname", g.fullname);
    TextIn(lib, ss, 3, "password", lib.network.password);
    FlagAt(lib, ss, 4, lib.network.autoConnect);
  }

  lemma NameIsRead(name: string)
    ensures NameIn(name + ">") == name
  {
  }

  lemma NetworkIsRead(lib: Library, g: GlobalConfig, c: NetworkConfig) returns (b: Block)
    requires Ordinary(lib) && WritableNetwork(lib, c)
    ensures b.Network? && NetworkOf(lib, g, b.arg, b.parts) == c && GoodBlock(lib, b)
  {
    OwnSettingsAreRead(lib, g, c);
    var parts := WriteParts(lib, NetworkSettings(c), c.servers);
    b := Network(c.name + ">", parts);
    NameIsRead(c.name);
    assert lib.network.servers + c.servers == c.servers;
  }

  // ----- Plugins -----

  lemma {:induction false} VariablesAreRead(lib: Library, m: map<string, string>) returns (ss: seq<Setting>)
    requires forall k | k in m :: Trimmed(lib, k) && Trimmed(lib, m[k])
    ensures Variables(lib, ss) == m && forall s | s in ss :: s.name == "var" && |s.list| == 2
    decreases m.Keys
  {
    if m == map[] {
      ss := [];
    } else {
      var k :| k in m;
      var before := VariablesAreRead(lib, m - {k});
      var s := Setting("var", "", 0, [k, m[k]]);
      ss := before + [s];
      assert ss[..|before|] == before;
      assert (m - {k})[k := m[k]] == m;
    }
  }

  lemma {:induction false} VariablesOnly(lib: Library, ss: seq<Setting>, others: seq<Setting>)
    requires forall s | s in others :: s.name != "var"
    ensures Variables(lib, ss + others) == Variables(lib, ss)
  {
    if others == [] {
      assert ss + others == ss;
    } else {
      var n := |others| - 1;
      VariablesOnly(lib, ss, others[..n]);
      assert (ss + others)[..|ss + others| - 1] == ss + others[..n];
    }
  }

  function PluginSettings(c: PluginConfig): seq<Setting> {
    [ Text("path", c.path), Text("executable", c.executable),
      Text("scope", if c.perNetwork then "network" else "global"), Text("parameters", c.parameters) ]
  }

  lemma PluginIsRead(lib: Library, c: PluginConfig) returns (b: Block)
    requires Ordinary(lib) && WritablePlugin(lib, c)
    ensures b.Plugin? && PluginOf(lib, b.arg, b.settings) == c && GoodBlock(lib, b)
  {
    var vars := VariablesAreRead(lib, c.variables);
    var own := PluginSettings(c);
    b := Plugin(c.name + ">", vars + own);
    VariablesOnly(lib, vars, own);
    PluginTextsAreRead(lib, c, vars);
    ScopeIsRead(lib, c, vars);
    NameIsRead(c.name);
  }

  lemma PluginTextsAreRead(lib: Library, c: PluginConfig, vars: seq<Setting>)
    requires WritablePlugin(lib, c)
    ensures
      var ss := vars + PluginSettings(c);
      && LastText(lib, ss, "path", "") == c.path
      && LastText(lib, ss, "executable", "") == c.executable
      && LastText(lib, ss, "parameters", "") == c.parameters
  {
    var own := PluginSettings(c);
    TextAt(lib, vars, own, 0, "");
    TextAt(lib, vars, own, 1, "");
    TextAt(lib, vars, own, 3, "");
  }

  lemma ScopeIsRead(lib: Library, c: PluginConfig, vars: seq<Setting>)
    requires Ordinary(lib) && forall s | s in vars :: s.name == "var"
    ensures PerNetwork(lib, vars + PluginSettings(c)) <==> c.perNetwork
  {
    var scope := PluginSettings(c)[2];
    assert scope in vars + PluginSettings(c);
    assert forall s | s in vars + PluginSettings(c) :: s.name == "scope" ==> s == scope;
  }

  // ----- Whole files -----

  lemma LastAppended<T>(a: seq<T>, b: seq<T>)
    requires b != []
    ensures a + b[..|b| - 1] + [b[|b| - 1]] == a + b
  {
  }

  lemma AddBlock(lib: Library, items: seq<Item>, b: Block)
    requires Good(lib, Document(items, Outside)) && GoodBlock(lib, b) && (b.Database? ==> !AnyDatabase(items))
    ensures Good(lib, Document(items + [Closed(b)], Outside))
    ensures Meaning(lib, items + [Closed(b)]) == Added(lib, Meaning(lib, items), b)
    ensures AnyDatabase(items + [Closed(b)]) <==> AnyDatabase(items) || b.Database?
  {
    AddingKeepsGood(lib, items, Outside, Closed(b));
    ClosedItem(lib, items, b);
    AnyDatabaseSnoc(items, Closed(b));
  }

  lemma AddSocket(lib: Library, items: seq<Item>, c: SocketConfig) returns (all: seq<Item>)
    requires Good(lib, Document(items, Outside)) && WritableSocket(lib, c)
    ensures Good(lib, Document(all, Outside)) && (AnyDatabase(all) <==> AnyDatabase(items))
    ensures Meaning(lib, all) == Meaning(lib, items).(sockets := Meaning(lib, items).sockets + [c])
  {
    SocketIsRead(lib, c);
    AddBlock(lib, items, Socket(SocketSettings(c)));
    all := items + [Closed(Socket(SocketSettings(c)))];
  }

  lemma AddDatabase(lib: Library, items: seq<Item>, c: DatabaseConfig) returns (all: seq<Item>)
    requires Good(lib, Document(items, Outside)) && !AnyDatabase(items) && WritableDatabase(lib, c)
    ensures Good(lib, Document(all, Outside))
    ensures Meaning(lib, all) == Meaning(lib, items).(database := Some(c))
  {
    DatabaseIsRead(lib, c);
    AddBlock(lib, items, Database(DatabaseSettings(c)));
    all := items + [Closed(Database(DatabaseSettings(c)))];
  }

  lemma AddNetwork(lib: Library, items: seq<Item>, c: NetworkConfig) returns (all: seq<Item>)
    requires Ordinary(lib) && Good(lib, Document(items, Outside)) && WritableNetwork(lib, c)
    ensures Good(lib, Document(all, Outside)) && (AnyDatabase(all) <==> AnyDatabase(items))
    ensures Meaning(lib, all) == Meaning(lib, items).(networks := Meaning(lib, items).networks + [c])
  {
    var b := NetworkIsRead(lib, Meaning(lib, items).global, c);
    AddBlock(lib, items, b);
    all := items + [Closed(b)];
  }

  lemma AddPlugin(lib: Library, items: seq<Item>, c: PluginConfig) returns (all: seq<Item>)
    requires Ordinary(lib) && Good(lib, Document(items, Outside)) && WritablePlugin(lib, c)
    ensures Good(lib, Document(all, Outside)) && (AnyDatabase(all) <==> AnyDatabase(items))
    ensures Meaning(lib, all) == Meaning(lib, items).(plugins := Meaning(lib, items).plugins + [c])
  {
    var b := PluginIsRead(lib, c);
    AddBlock(lib, items, b);
    all := items + [Closed(b)];
  }

  lemma AddGlobal(lib: Library, items: seq<Item>, s: Setting) returns (all: seq<Item>)
    requires Good(lib, Document(items, Outside)) && !AnyDatabase(items) && GlobalTakes(s)
    ensures Good(lib, Document(all, Outside)) && !AnyDatabase(all) && GlobalsOf(all) == GlobalsOf(items) + [s]
    ensures Meaning(lib, all) == Meaning(lib, items).(global := GlobalOf(lib, GlobalsOf(items) + [s]))
  {
    all := items + [Global(s)];
    AddingKeepsGood(lib, items, Outside, Global(s));
    GlobalItem(lib, items, s);
    AnyDatabaseSnoc(items, Global(s));
    assert all[..|items|] == items;
  }

  lemma {:induction false} WriteGlobals(lib: Library, ss: seq<Setting>) returns (items: seq<Item>)
    requires forall s | s in ss :: GlobalTakes(s)
    ensures Good(lib, Document(items, Outside)) && !AnyDatabase(items) && GlobalsOf(items) == ss
    ensures Meaning(lib, items) == Start(lib).(global := GlobalOf(lib, ss))
  {
    if ss == [] {
      items := [];
    } else {
      var n := |ss| - 1;
      var before := WriteGlobals(lib, ss[..n]);
      items := AddGlobal(lib, before, ss[n]);
      LastAppended([], ss);
    }
  }

  lemma {:induction false} WriteSockets(lib: Library, items: seq<Item>, cs: seq<SocketConfig>) returns (all: seq<Item>)
    requires Good(lib, Document(items, Outside)) && forall c | c in cs :: WritableSocket(lib, c)
    ensures Good(lib, Document(all, Outside)) && (AnyDatabase(all) <==> AnyDatabase(items))
    ensures Meaning(lib, all) == Meaning(lib, items).(sockets := Meaning(lib, items).sockets + cs)
  {
    if cs == [] {
      all := items;
    } else {
      var n := |cs| - 1;
      var before := WriteSockets(lib, items, cs[..n]);
      all := AddSocket(lib, before, cs[n]);
      LastAppended(Meaning(lib, items).sockets, cs);
    }
  }

  lemma {:induction false} WriteNetworks(lib: Library, items: seq<Item>, cs: seq<NetworkConfig>)
      returns (all: seq<Item>)
    requires Ordinary(lib) && Good(lib, Document(items, Outside)) && forall c | c in cs :: WritableNetwork(lib, c)
    ensures Good(lib, Document(all, Outside)) && (AnyDatabase(all) <==> AnyDatabase(items))
    ensures Meaning(lib, all) == Meaning(lib, items).(networks := Meaning(lib, items).networks + cs)
  {
    if cs == [] {
      all := items;
    } else {
      var n := |cs| - 1;
      var before := WriteNetworks(lib, items, cs[..n]);
      all := AddNetwork(lib, before, cs[n]);
      LastAppended(Meaning(lib, items).networks, cs);
    }
  }

  lemma {:induction false} WritePlugins(lib: Library, items: seq<Item>, cs: seq<PluginConfig>) returns (all: seq<Item>)
    requires Ordinary(lib) && Good(lib, Document(items, Outside)) && forall c | c in cs :: WritablePlugin(lib, c)
    ensures Good(lib, Document(all, Outside)) && (AnyDatabase(all) <==> AnyDatabase(items))
    ensures Meaning(lib, all) == Meaning(lib, items).(plugins := Meaning(lib, items).plugins + cs)
  {
    if cs == [] {
      all := items;
    } else {
      var n := |cs| - 1;
      var before := WritePlugins(lib, items, cs[..n]);
      all := AddPlugin(lib, before, cs[n]);
      LastAppended(Meaning(lib, items).plugins, cs);
    }
  }

  // Every such configuration has a document that is accepted and means it; by the contract
  // of Read, its events are read back as that configuration.
  lemma ConfigurationRoundTrip(lib: Library, c: Configuration) returns (d: Document)
    requires Ordinary(lib) && Writable(lib, c)
    ensures Good(lib, d) && Finished(d) && Result(lib, d) == c
    ensures Parse(lib, Events(d)) == Some(d)
  {
    GlobalIsRead(lib, c.global);
    var items := WriteGlobals(lib, GlobalSettings(c.global));
    items := WriteSockets(lib, items, c.sockets);
    items := AddDatabase(lib, items, c.database.value);
    items := WriteNetworks(lib, items, c.networks);
    items := WritePlugins(lib, items, c.plugins);
    d := Document(items, Outside);
    assert [] + c.sockets == c.sockets && [] + c.networks == c.networks && [] + c.plugins == c.plugins;
    PrintedIsParsed(lib, d);
  }
}
