/** The configuration reader in its own form (src/config.cpp): callbacks that fill records
    in progress.  The object always holds exactly the meaning of a well-formed beginning of
    a document, and a callback reports an error exactly if there is no such document. */
module ConfigReader {
  import opened ConfigDocument
  import opened ConfigParse
  import opened Settings

  datatype Section = ROOT | SOCKET | DATABASE | NETWORK | SERVER | PLUGIN

  // Everything the reader holds in the middle of a file.
  datatype State = State(
    section: Section,
    done: Configuration,
    socket: Option<SocketConfig>,
    network: Option<NetworkConfig>,
    server: Option<ServerConfig>,
    plugin: Option<PluginConfig>)

  function SectionOf(place: Place): Section {
    match place
    case Outside => ROOT
    case Within(b) => SectionOfBlock(b)
    case InServer(_, _, _) => SERVER
  }

  function SectionOfBlock(b: Block): Section {
    match b
    case Socket(_) => SOCKET
    case Database(_) => DATABASE
    case Network(_, _) => NETWORK
    case Plugin(_, _) => PLUGIN
  }

  // The meaning of a document that has not ended.
  function StateOf(lib: Library, d: Document): State {
    var c := Meaning(lib, d.items);
    match d.place
    case Outside => AtRoot(c)
    case Within(b) => InBlock(lib, c, b)
    case InServer(arg, parts, ss) =>
      State(SERVER, c, None, Some(NetworkOf(lib, c.global, arg, parts)), Some(ServerOf(lib, ss)), None)
  }

  function AtRoot(c: Configuration): State {
    State(ROOT, c, None, None, None, None)
  }

  function InBlock(lib: Library, c: Configuration, b: Block): State {
    match b
    case Socket(ss) => State(SOCKET, c, Some(SocketOf(lib, ss)), None, None, None)
    case Database(ss) => State(DATABASE, c.(database := Some(DatabaseOf(lib, ss))), None, None, None, None)
    case Network(arg, parts) => State(NETWORK, c, None, Some(NetworkOf(lib, c.global, arg, parts)), None, None)
    case Plugin(arg, ss) => State(PLUGIN, c, None, None, None, Some(PluginOf(lib, arg, ss)))
  }

  // ----- One more setting -----

  lemma TextSnoc(lib: Library, ss: seq<Setting>, s: Setting, name: string, default: string)
    ensures LastText(lib, ss + [s], name, default)
         == if s.name == name then lib.trim(s.text) else LastText(lib, ss, name, default)
  {
    assert (ss + [s])[..|ss|] == ss;
  }

  lemma ValueSnoc(ss: seq<Setting>, s: Setting, name: string, default: int)
    ensures LastValue(ss + [s], name, default) == if s.name == name then s.value else LastValue(ss, name, default)
  {
    assert (ss + [s])[..|ss|] == ss;
  }

  lemma FlagSnoc(lib: Library, ss: seq<Setting>, s: Setting, name: string, default: bool)
    ensures LastFlag(lib, ss + [s], name, default)
         == if s.name == name then IsTrue(lib, s.text) else LastFlag(lib, ss, name, default)
  {
    assert (ss + [s])[..|ss|] == ss;
  }

  lemma SocketSnoc(lib: Library, ss: seq<Setting>, s: Setting)
    ensures
      var c, t := SocketOf(lib, ss), lib.trim(s.text);
      SocketOf(lib, ss + [s]) == SocketConfig(
        if s.name == "type" then t else c.kind,
        if s.name == "host" then t else c.host,
        if s.name == "port" then s.value else c.port,
        if s.name == "path" then t else c.path)
  {
    TextSnoc(lib, ss, s, "type", "");
    TextSnoc(lib, ss, s, "host", "");
    ValueSnoc(ss, s, "port", 0);
    TextSnoc(lib, ss, s, "path", "");
  }

  lemma DatabaseSnoc(lib: Library, ss: seq<Setting>, s: Setting)
    ensures
      var c, t := DatabaseOf(lib, ss), lib.trim(s.text);
      DatabaseOf(lib, ss + [s]) == DatabaseConfig(
        if s.name == "type" then t else c.kind,
        if s.name == "host" then t else c.hostname,
        if s.name == "port" then s.value % 65536 else c.port,
        if s.name == "username" then t else c.username,
        if s.name == "password" then t else c.password,
        if s.name == "filename" then t else c.filename,
        if s.name == "database" then t else c.database,
        if s.name == "options" then t else c.options)
  {
    TextSnoc(lib, ss, s, "type", "");
    TextSnoc(lib, ss, s, "host", "127.0.0.1");
    ValueSnoc(ss, s, "port", 27017);
    TextSnoc(lib, ss, s, "username", "");
    TextSnoc(lib, ss, s, "password", "");
    TextSnoc(lib, ss, s, "filename", "");
    TextSnoc(lib, ss, s, "database", "dazeus");
    TextSnoc(lib, ss, s, "options", "");
  }

  lemma ServerSnoc(lib: Library, ss: seq<Setting>, s: Setting)
    ensures
      var c := ServerOf(lib, ss);
      ServerOf(lib, ss + [s]) == ServerConfig(
        if s.name == "host" then lib.trim(s.text) else c.host,
        if s.name == "port" then s.value else c.port,
        if s.name == "priority" then s.value else c.priority,
        if s.name == "ssl" then IsTrue(lib, s.text) else c.ssl,
        if s.name == "sslverify" then IsTrue(lib, s.text) else c.sslVerify)
  {
    TextSnoc(lib, ss, s, "host", "");
    ValueSnoc(ss, s, "port", lib.server.port);
    ValueSnoc(ss, s, "priority", lib.server.priority);
    FlagSnoc(lib, ss, s, "ssl", lib.server.ssl);
    FlagSnoc(lib, ss, s, "sslverify", lib.server.sslVerify);
  }

  lemma PluginSnoc(lib: Library, arg: string, ss: seq<Setting>, s: Setting)
    ensures
      var c, t := PluginOf(lib, arg, ss), lib.trim(s.text);
      PluginOf(lib, arg, ss + [s]) == PluginConfig(
        c.name,
        if s.name == "path" then t else c.path,
        if s.name == "executable" then t else c.executable,
        c.perNetwork || (s.name == "scope" && lib.lower(t) == "network"),
        if s.name == "parameters" then t else c.parameters,
        if s.name == "var" && |s.list| == 2 then c.variables[lib.trim(s.list[0]) := lib.trim(s.list[1])]
        else c.variables)
  {
    TextSnoc(lib, ss, s, "path", "");
    TextSnoc(lib, ss, s, "executable", "");
    TextSnoc(lib, ss, s, "parameters", "");
    assert (ss + [s])[..|ss|] == ss;
    ScopeSnoc(lib, ss, s);
  }

  lemma ScopeSnoc(lib: Library, ss: seq<Setting>, s: Setting)
    ensures PerNetwork(lib, ss + [s]) <==>
      PerNetwork(lib, ss) || (s.name == "scope" && lib.lower(lib.trim(s.text)) == "network")
  {
    assert s in ss + [s];
    assert forall x :: x in ss + [s] <==> x in ss || x == s;
  }

  lemma OwnSnoc(lib: Library, g: GlobalConfig, arg: string, parts: seq<Part>, s: Setting)
    ensures
      var c, t := NetworkOf(lib, g, arg, parts), lib.trim(s.text);
      NetworkOf(lib, g, arg, parts + [Own(s)]) == NetworkConfig(
        c.name,
        c.displayName,
        if s.name == "nickname" then t else c.nickName,
        if s.name == "username" then t else c.userName,
        if s.name == "fullname" then t else c.fullName,
        if s.name == "password" then t else c.password,
        if s.name == "autoconnect" then IsTrue(lib, s.text) else c.autoConnect,
        c.servers)
  {
    var own := OwnOf(parts);
    assert (parts + [Own(s)])[..|parts|] == parts;
    assert OwnOf(parts + [Own(s)]) == own + [s];
    TextSnoc(lib, own, s, "nickname", g.nickname);
    TextSnoc(lib, own, s, "username", g.username);
    TextSnoc(lib, own, s, "fullname", g.fullname);
    TextSnoc(lib, own, s, "password", lib.network.password);
    FlagSnoc(lib, own, s, "autoconnect", lib.network.autoConnect);
    assert ServersOf(lib, parts + [Own(s)]) == ServersOf(lib, parts) + [] == ServersOf(lib, parts);
  }

  lemma ServerPartSnoc(lib: Library, g: GlobalConfig, arg: string, parts: seq<Part>, ss: seq<Setting>)
    ensures
      var c := NetworkOf(lib, g, arg, parts);
      NetworkOf(lib, g, arg, parts + [Server(ss)]) == c.(servers := c.servers + [ServerOf(lib, ss)])
  {
    assert (parts + [Server(ss)])[..|parts|] == parts;
    assert OwnOf(parts + [Server(ss)]) == OwnOf(parts) + [] == OwnOf(parts);
    assert lib.network.servers + (ServersOf(lib, parts) + [ServerOf(lib, ss)])
        == lib.network.servers + ServersOf(lib, parts) + [ServerOf(lib, ss)];
  }

  lemma StraySnoc(lib: Library, g: GlobalConfig, arg: string, parts: seq<Part>, name: string, a: string)
    ensures NetworkOf(lib, g, arg, parts + [Stray(name, a)]) == NetworkOf(lib, g, arg, parts)
  {
    assert (parts + [Stray(name, a)])[..|parts|] == parts;
    assert OwnOf(parts + [Stray(name, a)]) == OwnOf(parts) + [] == OwnOf(parts);
    assert ServersOf(lib, parts + [Stray(name, a)]) == ServersOf(lib, parts) + [] == ServersOf(lib, parts);
  }

  lemma GlobalSnoc(lib: Library, ss: seq<Setting>, s: Setting)
    ensures
      var c, t := GlobalOf(lib, ss), lib.trim(s.text);
      GlobalOf(lib, ss + [s]) == GlobalConfig(
        if s.name == "nickname" then t else c.nickname,
        if s.name == "username" then t else c.username,
        if s.name == "fullname" then t else c.fullname,
        if s.name == "plugindirectory" then t else c.pluginDirectory,
        if s.name == "highlight" then t else c.highlight)
  {
    TextSnoc(lib, ss, s, "nickname", "DaZeus");
    TextSnoc(lib, ss, s, "username", "DaZeus");
    TextSnoc(lib, ss, s, "fullname", "DaZeus IRC bot");
    TextSnoc(lib, ss, s, "plugindirectory", "plugins");
    TextSnoc(lib, ss, s, "highlight", "}");
  }

  lemma GlobalItem(lib: Library, items: seq<Item>, s: Setting)
    ensures Meaning(lib, items + [Global(s)]) == Meaning(lib, items).(global := GlobalOf(lib, GlobalsOf(items) + [s]))
  {
    assert (items + [Global(s)])[..|items|] == items;
  }

  lemma ClosedItem(lib: Library, items: seq<Item>, b: Block)
    ensures Meaning(lib, items + [Closed(b)]) == Added(lib, Meaning(lib, items), b)
  {
    assert (items + [Closed(b)])[..|items|] == items;
  }

  class ConfigReaderState {
    const lib: Library
    var currentSection: Section
    var sockets: seq<SocketConfig>
    var networks: seq<NetworkConfig>
    var plugins: seq<PluginConfig>
    var globalProgress: GlobalConfig
    var socketProgress: Option<SocketConfig>
    var databaseProgress: Option<DatabaseConfig>
    var networkProgress: Option<NetworkConfig>
    var serverProgress: Option<ServerConfig>
    var pluginProgress: Option<PluginConfig>
    var error: string
    ghost var document: Document

    ghost function View(): State
      reads this
    {
      var done := Configuration(globalProgress, sockets, databaseProgress, networks, plugins);
      State(currentSection, done, socketProgress, networkProgress, serverProgress, pluginProgress)
    }

    ghost predicate Valid()
      reads this
    {
      Good(lib, document) && View() == StateOf(lib, document)
    }

    // A record is in progress exactly in its section: what the callbacks assert, and more.
    lemma ProgressMatchesSection()
      requires Valid()
      ensures socketProgress.Some? <==> currentSection == SOCKET
      ensures networkProgress.Some? <==> currentSection in {NETWORK, SERVER}
      ensures serverProgress.Some? <==> currentSection == SERVER
      ensures pluginProgress.Some? <==> currentSection == PLUGIN
      ensures databaseProgress.Some? <==> currentSection == DATABASE || AnyDatabase(document.items)
      ensures currentSection == SectionOf(document.place)
    {
      MeaningHasDatabase(lib, document.items);
      assert View() == StateOf(lib, document);
    }

    constructor (lib: Library)
      ensures Valid() && document == EMPTY && this.lib == lib && error == ""
    {
      this.lib := lib;
      currentSection := ROOT;
      sockets, networks, plugins := [], [], [];
      globalProgress := GlobalConfig("DaZeus", "DaZeus", "DaZeus IRC bot", "plugins", "}");
      socketProgress, databaseProgress, networkProgress, serverProgress, pluginProgress := None, None, None, None, None;
      error := "";
      document := EMPTY;
    }

    // ----- sect_open -----

    method SectOpen(name: string, arg: string) returns (error: Option<string>)
      requires Valid() && Given(Open(name, arg))
      modifies this
      ensures Valid() && this.error == old(this.error)
      ensures
        match Opened(old(document), name, arg)
        case Some(d) => error.None? && document == d
        case None => error.Some? && error.value != "" && document == old(document)
    {
      ProgressMatchesSection();
      ghost var d := Opened(document, name, arg);
      if currentSection == ROOT {
        assert socketProgress.None? && networkProgress.None? && serverProgress.None?;
        error := OpenInRoot(name, arg);
      } else if currentSection == NETWORK {
        assert networkProgress.Some? && serverProgress.None?;
        error := OpenInNetwork(name, arg);
      } else {
        error := Some("Logic error");
      }
      if error.None? {
        ExtendKeepsGood(lib, document, Open(name, arg), d.value);
        document := d.value;
      }
    }

    method OpenInRoot(name: string, arg: string) returns (error: Option<string>)
      requires View() == StateOf(lib, document) && document.place.Outside? && Given(Open(name, arg))
      modifies this`currentSection, this`socketProgress, this`databaseProgress
      modifies this`networkProgress, this`pluginProgress
      ensures
        match Opened(document, name, arg)
        case Some(d) => error.None? && View() == StateOf(lib, d)
        case None => error.Some? && error.value != "" && View() == old(View())
    {
      error := None;
      ghost var c := Meaning(lib, document.items);
      MeaningHasDatabase(lib, document.items);
      if name == "<socket>" {
        BeginSocket(c);
      } else if name == "<database>" {
        if databaseProgress.Some? {
          return Some("More than one Database block defined in configuration file.");
        }
        BeginDatabase(c);
      } else if name == "<network" {
        BeginNetwork(arg, c);
      } else if name == "<plugin" {
        var pluginname := arg[..|arg| - 1];
        if |pluginname| == 0 {
          return Some("All plugins must have a name in their <Plugin> tag.");
        }
        BeginPlugin(arg, c);
      } else {
        error := Some("Logic error");
      }
    }

    method BeginSocket(ghost c: Configuration)
      requires View() == AtRoot(c)
      modifies this`currentSection, this`socketProgress
      ensures View() == InBlock(lib, c, Socket([]))
    {
      currentSection := SOCKET;
      socketProgress := Some(SocketConfig("", "", 0, ""));
    }

    method BeginDatabase(ghost c: Configuration)
      requires View() == AtRoot(c)
      modifies this`currentSection, this`databaseProgress
      ensures View() == InBlock(lib, c, Database([]))
    {
      currentSection := DATABASE;
      databaseProgress := Some(DatabaseConfig("", "127.0.0.1", 27017, "", "", "", "dazeus", ""));
    }

    method BeginNetwork(arg: string, ghost c: Configuration)
      requires View() == AtRoot(c) && arg != ""
      modifies this`currentSection, this`networkProgress
      ensures View() == InBlock(lib, c, Network(arg, []))
    {
      var networkname := arg[..|arg| - 1];
      currentSection := NETWORK;
      networkProgress := Some(lib.network.(
        name := networkname,
        displayName := networkname,
        nickName := globalProgress.nickname,
        userName := globalProgress.username,
        fullName := globalProgress.fullname));
      assert lib.network.servers + [] == lib.network.servers;
    }

    method BeginPlugin(arg: string, ghost c: Configuration)
      requires View() == AtRoot(c) && arg != ""
      modifies this`currentSection, this`pluginProgress
      ensures View() == InBlock(lib, c, Plugin(arg, []))
    {
      var pluginname := arg[..|arg| - 1];
      currentSection := PLUGIN;
      pluginProgress := Some(PluginConfig(pluginname, "", "", false, "", map[]));
    }

    // Sections other than a server are not opened here, and not complained about either.
    method OpenInNetwork(name: string, arg: string) returns (error: Option<string>)
      requires View() == StateOf(lib, document) && document.place.Within? && document.place.block.Network?
      modifies this`currentSection, this`serverProgress
      ensures error.None? && Opened(document, name, arg).Some?
      ensures View() == StateOf(lib, Opened(document, name, arg).value)
    {
      error := None;
      if name == "<server>" {
        currentSection := SERVER;
        serverProgress := Some(lib.server.(host := ""));
      } else {
        StraySnoc(lib, globalProgress, document.place.block.arg, document.place.block.parts, name, arg);
      }
    }

    // ----- sect_close -----

    method SectClose(name: string) returns (error: Option<string>)
      requires Valid()
      modifies this
      ensures Valid() && this.error == old(this.error)
      ensures
        match EndOf(old(document), name)
        case Some(d) => error.None? && document == d
        case None => error.Some? && error.value != "" && document == old(document)
    {
      ProgressMatchesSection();
      ghost var d := EndOf(document, name);
      if currentSection == ROOT {
        error := Some("Logic error");
      } else if currentSection == SERVER {
        error := CloseServer(name);
      } else {
        error := CloseBlock(name);
      }
      if error.None? {
        ExtendKeepsGood(lib, document, Close(name), d.value);
        document := d.value;
      }
    }

    method CloseServer(name: string) returns (error: Option<string>)
      requires View() == StateOf(lib, document) && document.place.InServer?
      modifies this`currentSection, this`networkProgress, this`serverProgress
      ensures
        match EndOf(document, name)
        case Some(d) => error.None? && View() == StateOf(lib, d)
        case None => error.Some? && error.value != "" && View() == old(View())
    {
      error := None;
      if name == "</server>" {
        var network := networkProgress.value;
        networkProgress := Some(network.(servers := network.servers + [serverProgress.value]));
        serverProgress := None;
        currentSection := NETWORK;
        ServerPartSnoc(lib, globalProgress, document.place.arg, document.place.parts, document.place.settings);
      } else {
        error := Some("Logic error");
      }
    }

    method CloseBlock(name: string) returns (error: Option<string>)
      requires View() == StateOf(lib, document) && document.place.Within?
      modifies this`currentSection, this`sockets, this`networks, this`plugins
      modifies this`socketProgress, this`networkProgress, this`pluginProgress
      ensures
        match EndOf(document, name)
        case Some(d) => error.None? && View() == StateOf(lib, d)
        case None => error.Some? && error.value != "" && View() == old(View())
    {
      error := None;
      ghost var c, b := Meaning(lib, document.items), document.place.block;
      ClosedItem(lib, document.items, b);
      if currentSection == SOCKET && name == "</socket>" {
        CloseSocket(c, b.settings);
      } else if currentSection == DATABASE && name == "</database>" {
        CloseDatabase(c, b.settings);
      } else if currentSection == NETWORK && name == "</network>" {
        CloseNetwork(c, b.arg, b.parts);
      } else if currentSection == PLUGIN && name == "</plugin>" {
        ClosePlugin(c, b.arg, b.settings);
      } else {
        error := Some("Logic error");
      }
    }

    method CloseSocket(ghost c: Configuration, ghost ss: seq<Setting>)
      requires View() == InBlock(lib, c, Socket(ss))
      modifies this`currentSection, this`sockets, this`socketProgress
      ensures View() == AtRoot(Added(lib, c, Socket(ss)))
    {
      sockets := sockets + [socketProgress.value];
      socketProgress := None;
      currentSection := ROOT;
    }

    method CloseDatabase(ghost c: Configuration, ghost ss: seq<Setting>)
      requires View() == InBlock(lib, c, Database(ss))
      modifies this`currentSection
      ensures View() == AtRoot(Added(lib, c, Database(ss)))
    {
      currentSection := ROOT;
    }

    method CloseNetwork(ghost c: Configuration, ghost arg: string, ghost parts: seq<Part>)
      requires View() == InBlock(lib, c, Network(arg, parts))
      modifies this`currentSection, this`networks, this`networkProgress
      ensures View() == AtRoot(Added(lib, c, Network(arg, parts)))
    {
      networks := networks + [networkProgress.value];
      networkProgress := None;
      currentSection := ROOT;
    }

    method ClosePlugin(ghost c: Configuration, ghost arg: string, ghost ss: seq<Setting>)
      requires View() == InBlock(lib, c, Plugin(arg, ss))
      modifies this`currentSection, this`plugins, this`pluginProgress
      ensures View() == AtRoot(Added(lib, c, Plugin(arg, ss)))
    {
      plugins := plugins + [pluginProgress.value];
      pluginProgress := None;
      currentSection := ROOT;
    }

    // ----- option -----

    method SetOption(s: Setting) returns (error: Option<string>)
      requires Valid()
      modifies this
      ensures Valid()
      ensures
        match WithSetting(lib, old(document), s)
        case Some(d) => error.None? && document == d && this.error == old(this.error)
        case None => error.Some? && error.value != "" && document == old(document)
    {
      ProgressMatchesSection();
      ghost var d, items := WithSetting(lib, document, s), document.items;
      match currentSection {
        case ROOT => error := RootOption(s);
        case SOCKET => error := SocketOption(s, items, document.place.block.settings);
        case DATABASE => error := DatabaseOption(s, items, document.place.block.settings);
        case NETWORK => error := NetworkOption(s, items, document.place.block.arg, document.place.block.parts);
        case SERVER =>
          error := ServerOption(s, items, document.place.arg, document.place.parts, document.place.settings);
        case PLUGIN => error := PluginOption(s, items, document.place.block.arg, document.place.block.settings);
      }
      if error.None? {
        ExtendKeepsGood(lib, document, Set(s), d.value);
        document := d.value;
      }
    }

    method Invalid(message: string) returns (error: Option<string>)
      modifies this`error
      ensures error.Some? && error.value != ""
    {
      this.error := message;
      error := Some("Configuration file contains errors");
    }

    method RootOption(s: Setting) returns (error: Option<string>)
      requires View() == StateOf(lib, document) && document.place.Outside?
      modifies this`globalProgress, this`error
      ensures error.None? <==>
        s.name in {"nickname", "username", "fullname", "plugindirectory", "highlight"}
      ensures error.None? ==>
        View() == StateOf(lib, Document(document.items + [Global(s)], Outside)) && this.error == old(this.error)
      ensures error.Some? ==> error.value != "" && View() == old(View())
    {
      error := None;
      var g, text := globalProgress, lib.trim(s.text);
      MeaningIsGlobal(lib, document.items);
      GlobalItem(lib, document.items, s);
      GlobalSnoc(lib, GlobalsOf(document.items), s);
      if s.name == "nickname" {
        globalProgress := g.(nickname := text);
      } else if s.name == "username" {
        globalProgress := g.(username := text);
      } else if s.name == "fullname" {
        globalProgress := g.(fullname := text);
      } else if s.name == "plugindirectory" {
        globalProgress := g.(pluginDirectory := text);
      } else if s.name == "highlight" {
        globalProgress := g.(highlight := text);
      } else {
        error := Invalid("Invalid option name in root context: " + s.name);
      }
    }

    method SocketOption(s: Setting, ghost items: seq<Item>, ghost ss: seq<Setting>) returns (error: Option<string>)
      requires View() == StateOf(lib, Document(items, Within(Socket(ss))))
      modifies this`socketProgress, this`error
      ensures error.None? <==>
        s.name in {"type", "path", "host"} || (s.name == "port" && 0 <= s.value <= 65535)
      ensures error.None? ==>
        View() == StateOf(lib, Document(items, Within(Socket(ss + [s])))) && this.error == old(this.error)
      ensures error.Some? ==> error.value != "" && View() == old(View())
    {
      error := None;
      var sc, text := socketProgress.value, lib.trim(s.text);
      SocketSnoc(lib, ss, s);
      if s.name == "type" {
        socketProgress := Some(sc.(kind := text));
      } else if s.name == "path" {
        socketProgress := Some(sc.(path := text));
      } else if s.name == "host" {
        socketProgress := Some(sc.(host := text));
      } else if s.name == "port" {
        if s.value > 65535 || s.value < 0 {
          error := Some("Invalid value for 'port'");
        } else {
          socketProgress := Some(sc.(port := s.value));
        }
      } else {
        error := Invalid("Invalid option name in socket context: " + s.name);
      }
      assert error.None? ==> socketProgress == Some(SocketOf(lib, ss + [s]));
    }

    method DatabaseOption(s: Setting, ghost items: seq<Item>, ghost ss: seq<Setting>) returns (error: Option<string>)
      requires View() == StateOf(lib, Document(items, Within(Database(ss))))
      modifies this`databaseProgress, this`error
      ensures error.None? <==>
        s.name in {"type", "host", "port", "username", "password", "filename", "database", "options"}
      ensures error.None? ==>
        View() == StateOf(lib, Document(items, Within(Database(ss + [s])))) && this.error == old(this.error)
      ensures error.Some? ==> error.value != "" && View() == old(View())
    {
      error := None;
      var dc, text := databaseProgress.value, lib.trim(s.text);
      DatabaseSnoc(lib, ss, s);
      if s.name == "type" {
        databaseProgress := Some(dc.(kind := text));
      } else if s.name == "host" {
        databaseProgress := Some(dc.(hostname := text));
      } else if s.name == "port" {
        databaseProgress := Some(dc.(port := s.value % 65536));  // a uint16_t
      } else if s.name == "username" {
        databaseProgress := Some(dc.(username := text));
      } else if s.name == "password" {
        databaseProgress := Some(dc.(password := text));
      } else if s.name == "filename" {
        databaseProgress := Some(dc.(filename := text));
      } else if s.name == "database" {
        databaseProgress := Some(dc.(database := text));
      } else if s.name == "options" {
        databaseProgress := Some(dc.(options := text));
      } else {
        error := Invalid("Invalid option name in database context: " + s.name);
      }
    }

    method BoolIsTrue(text: string) returns (isTrue: bool)
      ensures isTrue <==> IsTrue(lib, text)
    {
      var s := lib.lower(lib.trim(text));
      isTrue := s == "true" || s == "yes" || s == "1";
    }

    method NetworkOption(s: Setting, ghost items: seq<Item>, ghost arg: string, ghost parts: seq<Part>)
        returns (error: Option<string>)
      requires View() == StateOf(lib, Document(items, Within(Network(arg, parts))))
      modifies this`networkProgress, this`error
      ensures error.None? <==>
        s.name in {"autoconnect", "nickname", "username", "fullname", "password"}
      ensures error.None? ==>
        View() == StateOf(lib, Document(items, Within(Network(arg, parts + [Own(s)])))) && this.error == old(this.error)
      ensures error.Some? ==> error.value != "" && View() == old(View())
    {
      error := None;
      var nc, text := networkProgress.value, lib.trim(s.text);
      OwnSnoc(lib, globalProgress, arg, parts, s);
      if s.name == "autoconnect" {
        var isTrue := BoolIsTrue(s.text);
        networkProgress := Some(nc.(autoConnect := isTrue));
      } else if s.name == "nickname" {
        networkProgress := Some(nc.(nickName := text));
      } else if s.name == "username" {
        networkProgress := Some(nc.(userName := text));
      } else if s.name == "fullname" {
        networkProgress := Some(nc.(fullName := text));
      } else if s.name == "password" {
        networkProgress := Some(nc.(password := text));
      } else {
        error := Invalid("Invalid option name in network context: " + s.name);
      }
    }

    method ServerOption(s: Setting, ghost items: seq<Item>, ghost arg: string, ghost parts: seq<Part>,
        ghost ss: seq<Setting>) returns (error: Option<string>)
      requires View() == StateOf(lib, Document(items, InServer(arg, parts, ss)))
      modifies this`serverProgress, this`error
      ensures error.None? <==>
        s.name in {"host", "port", "priority", "ssl", "sslverify"}
      ensures error.None? ==>
        View() == StateOf(lib, Document(items, InServer(arg, parts, ss + [s]))) && this.error == old(this.error)
      ensures error.Some? ==> error.value != "" && View() == old(View())
    {
      error := None;
      var sc := serverProgress.value;
      ServerSnoc(lib, ss, s);
      if s.name == "host" {
        serverProgress := Some(sc.(host := lib.trim(s.text)));
      } else if s.name == "port" {
        serverProgress := Some(sc.(port := s.value));
      } else if s.name == "priority" {
        serverProgress := Some(sc.(priority := s.value));
      } else if s.name == "ssl" {
        var isTrue := BoolIsTrue(s.text);
        serverProgress := Some(sc.(ssl := isTrue));
      } else if s.name == "sslverify" {
        var isTrue := BoolIsTrue(s.text);
        serverProgress := Some(sc.(sslVerify := isTrue));
      } else {
        error := Invalid("Invalid option name in server context: " + s.name);
      }
    }

    method PluginOption(s: Setting, ghost items: seq<Item>, ghost arg: string, ghost ss: seq<Setting>)
        returns (error: Option<string>)
      requires View() == StateOf(lib, Document(items, Within(Plugin(arg, ss))))
      modifies this`pluginProgress, this`error
      ensures error.None? <==>
        || s.name in {"path", "executable", "parameters"}
        || (s.name == "scope" && lib.lower(lib.trim(s.text)) in {"network", "global"})
        || (s.name == "var" && |s.list| == 2)
      ensures error.None? ==>
        View() == StateOf(lib, Document(items, Within(Plugin(arg, ss + [s])))) && this.error == old(this.error)
      ensures error.Some? ==> error.value != "" && View() == old(View())
    {
      error := None;
      var pc, text := pluginProgress.value, lib.trim(s.text);
      PluginSnoc(lib, arg, ss, s);
      if s.name == "path" {
        pluginProgress := Some(pc.(path := text));
      } else if s.name == "executable" {
        pluginProgress := Some(pc.(executable := text));
      } else if s.name == "scope" {
        var scope := lib.lower(text);
        if scope == "network" {
          pluginProgress := Some(pc.(perNetwork := true));
        } else if scope != "global" {
          error := Invalid("Invalid value for Scope for plugin " + pc.name);
        }
      } else if s.name == "parameters" {
        pluginProgress := Some(pc.(parameters := text));
      } else if s.name == "var" {
        if |s.list| != 2 {
          error := Invalid("Invalid amount of parameters to Var in plugin context");
        } else {
          pluginProgress := Some(pc.(variables := pc.variables[lib.trim(s.list[0]) := lib.trim(s.list[1])]));
        }
      } else {
        error := Invalid("Invalid option name in plugin context: " + s.name);
      }
    }
  }
}
