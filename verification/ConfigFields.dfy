/** Where every field of the configuration records comes from: the last setting of its name
    in the section, or else what the record starts with (src/config.cpp, src/config.h). */
module ConfigFields {
  import opened ConfigDocument
  import opened Settings

  // The setting at k is the last one of its name.
  predicate IsLast(ss: seq<Setting>, name: string, k: nat)
    requires k < |ss|
  {
    ss[k].name == name && forall j | k < j < |ss| :: ss[j].name != name
  }

  predicate NotSet(ss: seq<Setting>, name: string) {
    forall k | 0 <= k < |ss| :: ss[k].name != name
  }

  predicate TextFrom(lib: Library, ss: seq<Setting>, name: string, default: string, field: string) {
    && (NotSet(ss, name) ==> field == default)
    && forall k | 0 <= k < |ss| && IsLast(ss, name, k) :: field == lib.trim(ss[k].text)
  }

  predicate ValueFrom(ss: seq<Setting>, name: string, default: int, field: int) {
    && (NotSet(ss, name) ==> field == default)
    && forall k | 0 <= k < |ss| && IsLast(ss, name, k) :: field == ss[k].value
  }

  predicate FlagFrom(lib: Library, ss: seq<Setting>, name: string, default: bool, field: bool) {
    && (NotSet(ss, name) ==> field == default)
    && forall k | 0 <= k < |ss| && IsLast(ss, name, k) ::
         field <==> lib.lower(lib.trim(ss[k].text)) in {"true", "yes", "1"}
  }

  lemma {:induction false} TextIsLast(lib: Library, ss: seq<Setting>, name: string, default: string)
    ensures TextFrom(lib, ss, name, default, LastText(lib, ss, name, default))
  {
    if ss != [] && ss[|ss| - 1].name != name {
      var n := |ss| - 1;
      TextIsLast(lib, ss[..n], name, default);
      forall k | 0 <= k < |ss| && IsLast(ss, name, k)
        ensures LastText(lib, ss, name, default) == lib.trim(ss[k].text)
      {
        assert IsLast(ss[..n], name, k);
      }
      if NotSet(ss, name) {
        assert NotSet(ss[..n], name);
      }
    }
  }

  lemma {:induction false} ValueIsLast(ss: seq<Setting>, name: string, default: int)
    ensures ValueFrom(ss, name, default, LastValue(ss, name, default))
  {
    if ss != [] && ss[|ss| - 1].name != name {
      var n := |ss| - 1;
      ValueIsLast(ss[..n], name, default);
      forall k | 0 <= k < |ss| && IsLast(ss, name, k) ensures LastValue(ss, name, default) == ss[k].value {
        assert IsLast(ss[..n], name, k);
      }
      if NotSet(ss, name) {
        assert NotSet(ss[..n], name);
      }
    }
  }

  lemma {:induction false} FlagIsLast(lib: Library, ss: seq<Setting>, name: string, default: bool)
    ensures FlagFrom(lib, ss, name, default, LastFlag(lib, ss, name, default))
  {
    if ss != [] && ss[|ss| - 1].name != name {
      var n := |ss| - 1;
      FlagIsLast(lib, ss[..n], name, default);
      forall k | 0 <= k < |ss| && IsLast(ss, name, k)
        ensures LastFlag(lib, ss, name, default) <==> lib.lower(lib.trim(ss[k].text)) in {"true", "yes", "1"}
      {
        assert IsLast(ss[..n], name, k);
      }
      if NotSet(ss, name) {
        assert NotSet(ss[..n], name);
      }
    }
  }

  // ----- The records -----

  predicate GlobalFrom(lib: Library, ss: seq<Setting>, c: GlobalConfig) {
    && TextFrom(lib, ss, "nickname", "DaZeus", c.nickname)
    && TextFrom(lib, ss, "username", "DaZeus", c.username)
    && TextFrom(lib, ss, "fullname", "DaZeus IRC bot", c.fullname)
    && TextFrom(lib, ss, "plugindirectory", "plugins", c.pluginDirectory)
    && TextFrom(lib, ss, "highlight", "}", c.highlight)
  }

  lemma GlobalFields(lib: Library, ss: seq<Setting>)
    ensures GlobalFrom(lib, ss, GlobalOf(lib, ss))
  {
    TextIsLast(lib, ss, "nickname", "DaZeus");
    TextIsLast(lib, ss, "username", "DaZeus");
    TextIsLast(lib, ss, "fullname", "DaZeus IRC bot");
    TextIsLast(lib, ss, "plugindirectory", "plugins");
    TextIsLast(lib, ss, "highlight", "}");
  }

  lemma SocketFields(lib: Library, ss: seq<Setting>)
    ensures
      var c := SocketOf(lib, ss);
      && TextFrom(lib, ss, "type", "", c.kind) && TextFrom(lib, ss, "host", "", c.host)
      && ValueFrom(ss, "port", 0, c.port) && TextFrom(lib, ss, "path", "", c.path)
  {
    TextIsLast(lib, ss, "type", "");
    TextIsLast(lib, ss, "host", "");
    ValueIsLast(ss, "port", 0);
    TextIsLast(lib, ss, "path", "");
  }

  // The port of a database is what is left of it in 16 bits.
  ghost predicate ShortFrom(ss: seq<Setting>, name: string, default: int, field: int) {
    exists whole :: ValueFrom(ss, name, default, whole) && field == whole % 65536
  }

  lemma DatabaseFields(lib: Library, ss: seq<Setting>)
    ensures
      var c := DatabaseOf(lib, ss);
      && TextFrom(lib, ss, "type", "", c.kind) && TextFrom(lib, ss, "host", "127.0.0.1", c.hostname)
      && ShortFrom(ss, "port", 27017, c.port)
      && TextFrom(lib, ss, "username", "", c.username) && TextFrom(lib, ss, "password", "", c.password)
      && TextFrom(lib, ss, "filename", "", c.filename) && TextFrom(lib, ss, "database", "dazeus", c.database)
      && TextFrom(lib, ss, "options", "", c.options)
  {
    TextIsLast(lib, ss, "type", "");
    TextIsLast(lib, ss, "host", "127.0.0.1");
    ValueIsLast(ss, "port", 27017);
    TextIsLast(lib, ss, "username", "");
    TextIsLast(lib, ss, "password", "");
    TextIsLast(lib, ss, "filename", "");
    TextIsLast(lib, ss, "database", "dazeus");
    TextIsLast(lib, ss, "options", "");
  }

  lemma ServerFields(lib: Library, ss: seq<Setting>)
    ensures
      var c := ServerOf(lib, ss);
      && TextFrom(lib, ss, "host", "", c.host)
      && ValueFrom(ss, "port", lib.server.port, c.port) && ValueFrom(ss, "priority", lib.server.priority, c.priority)
      && FlagFrom(lib, ss, "ssl", lib.server.ssl, c.ssl)
      && FlagFrom(lib, ss, "sslverify", lib.server.sslVerify, c.sslVerify)
  {
    TextIsLast(lib, ss, "host", "");
    ValueIsLast(ss, "port", lib.server.port);
    ValueIsLast(ss, "priority", lib.server.priority);
    FlagIsLast(lib, ss, "ssl", lib.server.ssl);
    FlagIsLast(lib, ss, "sslverify", lib.server.sslVerify);
  }

  // A network has its own settings, and for the rest the global ones of its moment.
  predicate NetworkFrom(lib: Library, g: GlobalConfig, arg: string, own: seq<Setting>, c: NetworkConfig) {
    && (arg != "" ==> c.name == c.displayName == arg[..|arg| - 1])
    && TextFrom(lib, own, "nickname", g.nickname, c.nickName)
    && TextFrom(lib, own, "username", g.username, c.userName)
    && TextFrom(lib, own, "fullname", g.fullname, c.fullName)
    && TextFrom(lib, own, "password", lib.network.password, c.password)
    && FlagFrom(lib, own, "autoconnect", lib.network.autoConnect, c.autoConnect)
  }

  lemma NetworkFields(lib: Library, g: GlobalConfig, arg: string, parts: seq<Part>)
    ensures NetworkFrom(lib, g, arg, OwnOf(parts), NetworkOf(lib, g, arg, parts))
  {
    var own := OwnOf(parts);
    TextIsLast(lib, own, "nickname", g.nickname);
    TextIsLast(lib, own, "username", g.username);
    TextIsLast(lib, own, "fullname", g.fullname);
    TextIsLast(lib, own, "password", lib.network.password);
    FlagIsLast(lib, own, "autoconnect", lib.network.autoConnect);
  }

  // ----- Plugins -----

  // The setting at k is the last one for a variable.
  predicate IsLastVar(lib: Library, ss: seq<Setting>, variable: string, k: nat)
    requires k < |ss|
  {
    Assigns(lib, ss[k], variable) && forall j | k < j < |ss| :: !Assigns(lib, ss[j], variable)
  }

  predicate Assigns(lib: Library, s: Setting, variable: string) {
    s.name == "var" && |s.list| == 2 && lib.trim(s.list[0]) == variable
  }

  predicate VariableFrom(lib: Library, ss: seq<Setting>, variable: string, variables: map<string, string>) {
    && (variable in variables <==> exists k | 0 <= k < |ss| :: Assigns(lib, ss[k], variable))
    && forall k | 0 <= k < |ss| && IsLastVar(lib, ss, variable, k) ::
         variable in variables && variables[variable] == lib.trim(ss[k].list[1])
  }

  lemma {:induction false} VariableIsSet(lib: Library, ss: seq<Setting>, variable: string)
    ensures variable in Variables(lib, ss) <==> exists k | 0 <= k < |ss| :: Assigns(lib, ss[k], variable)
  {
    if ss != [] {
      var n := |ss| - 1;
      VariableIsSet(lib, ss[..n], variable);
      if k :| 0 <= k < n && Assigns(lib, ss[k], variable) {
        assert Assigns(lib, ss[..n][k], variable);
      }
      if k :| 0 <= k < n && Assigns(lib, ss[..n][k], variable) {
        assert Assigns(lib, ss[k], variable);
      }
    }
  }

  lemma {:induction false} VariableHasLast(lib: Library, ss: seq<Setting>, variable: string, k: nat)
    requires k < |ss| && IsLastVar(lib, ss, variable, k)
    ensures variable in Variables(lib, ss) && Variables(lib, ss)[variable] == lib.trim(ss[k].list[1])
  {
    var n := |ss| - 1;
    if k < n {
      assert IsLastVar(lib, ss[..n], variable, k);
      VariableHasLast(lib, ss[..n], variable, k);
      assert !Assigns(lib, ss[n], variable);
    }
  }

  lemma VariableIsLast(lib: Library, ss: seq<Setting>, variable: string)
    ensures VariableFrom(lib, ss, variable, Variables(lib, ss))
  {
    VariableIsSet(lib, ss, variable);
    forall k | 0 <= k < |ss| && IsLastVar(lib, ss, variable, k)
      ensures variable in Variables(lib, ss) && Variables(lib, ss)[variable] == lib.trim(ss[k].list[1])
    {
      VariableHasLast(lib, ss, variable, k);
    }
  }

  // A plugin has the network scope if it was ever given it.
  predicate ScopeFrom(lib: Library, ss: seq<Setting>, perNetwork: bool) {
    perNetwork <==>
      exists k | 0 <= k < |ss| :: ss[k].name == "scope" && lib.lower(lib.trim(ss[k].text)) == "network"
  }

  lemma PluginFields(lib: Library, arg: string, ss: seq<Setting>)
    requires arg != ""
    ensures
      var c := PluginOf(lib, arg, ss);
      && c.name == arg[..|arg| - 1]
      && TextFrom(lib, ss, "path", "", c.path) && TextFrom(lib, ss, "executable", "", c.executable)
      && TextFrom(lib, ss, "parameters", "", c.parameters)
      && ScopeFrom(lib, ss, c.perNetwork)
      && forall variable :: VariableFrom(lib, ss, variable, c.variables)
  {
    TextIsLast(lib, ss, "path", "");
    TextIsLast(lib, ss, "executable", "");
    TextIsLast(lib, ss, "parameters", "");
    if k :| 0 <= k < |ss| && ss[k].name == "scope" && lib.lower(lib.trim(ss[k].text)) == "network" {
      assert ss[k] in ss;
    }
    forall variable ensures VariableFrom(lib, ss, variable, Variables(lib, ss)) {
      VariableIsLast(lib, ss, variable);
    }
  }
}
