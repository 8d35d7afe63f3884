/** Configuration files as documents: what can be written in one, the parser events it comes
    as, and what it means (src/config.cpp, src/config.h). */
module ConfigDocument {
  import opened Settings

  datatype GlobalConfig = GlobalConfig(
    nickname: string,
    username: string,
    fullname: string,
    pluginDirectory: string,
    highlight: string)

  datatype SocketConfig = SocketConfig(kind: string, host: string, port: int, path: string)

  datatype DatabaseConfig = DatabaseConfig(
    kind: string,
    hostname: string,
    port: int,
    username: string,
    password: string,
    filename: string,
    database: string,
    options: string)

  // What comes from the IRC library: two functions on strings, and how its records start.
  datatype Library = Library(
    trim: string -> string,
    lower: string -> string,
    network: NetworkConfig,
    server: ServerConfig)

  // ----- Documents -----

  // One option, with its argument as text, as a number and as a list.
  datatype Setting = Setting(name: string, text: string, value: int, list: seq<string>)

  datatype Part =
    | Own(setting: Setting)
    | Server(settings: seq<Setting>)
    | Stray(name: string, arg: string)

  // The argument of a section keeps the bracket that closes its tag.
  datatype Block =
    | Socket(settings: seq<Setting>)
    | Database(settings: seq<Setting>)
    | Network(arg: string, parts: seq<Part>)
    | Plugin(arg: string, settings: seq<Setting>)

  datatype Item = Global(setting: Setting) | Closed(block: Block)

  datatype Place =
    | Outside
    | Within(block: Block)
    | InServer(arg: string, parts: seq<Part>, settings: seq<Setting>)

  // The beginning of a document, up to some event.
  datatype Document = Document(items: seq<Item>, place: Place)

  const EMPTY := Document([], Outside)

  // ----- The events of a document -----

  datatype Event = Open(name: string, arg: string) | Close(name: string) | Set(setting: Setting)

  // Only the two sections with a name have an argument, and it has at least the bracket.
  predicate Given(e: Event) {
    e.Open? ==> (e.arg != "" <==> e.name in {"<network", "<plugin"})
  }

  function Sets(ss: seq<Setting>): seq<Event> {
    seq(|ss|, i requires 0 <= i < |ss| => Set(ss[i]))
  }

  function OfPart(part: Part): seq<Event> {
    match part
    case Own(s) => [Set(s)]
    case Server(ss) => [Open("<server>", "")] + Sets(ss) + [Close("</server>")]
    case Stray(name, arg) => [Open(name, arg)]
  }

  function OfParts(parts: seq<Part>): seq<Event> {
    if parts == [] then [] else OfParts(parts[..|parts| - 1]) + OfPart(parts[|parts| - 1])
  }

  function Begun(b: Block): seq<Event> {
    match b
    case Socket(ss) => [Open("<socket>", "")] + Sets(ss)
    case Database(ss) => [Open("<database>", "")] + Sets(ss)
    case Network(arg, parts) => [Open("<network", arg)] + OfParts(parts)
    case Plugin(arg, ss) => [Open("<plugin", arg)] + Sets(ss)
  }

  function Ending(b: Block): string {
    match b
    case Socket(_) => "</socket>"
    case Database(_) => "</database>"
    case Network(_, _) => "</network>"
    case Plugin(_, _) => "</plugin>"
  }

  function OfItem(item: Item): seq<Event> {
    match item
    case Global(s) => [Set(s)]
    case Closed(b) => Begun(b) + [Close(Ending(b))]
  }

  function OfItems(items: seq<Item>): seq<Event> {
    if items == [] then [] else OfItems(items[..|items| - 1]) + OfItem(items[|items| - 1])
  }

  function OfPlace(place: Place): seq<Event> {
    match place
    case Outside => []
    case Within(b) => Begun(b)
    case InServer(arg, parts, ss) => Begun(Network(arg, parts)) + [Open("<server>", "")] + Sets(ss)
  }

  function Events(d: Document): seq<Event> {
    OfItems(d.items) + OfPlace(d.place)
  }

  // ----- Which documents are accepted -----

  predicate GlobalTakes(s: Setting) {
    s.name in {"nickname", "username", "fullname", "plugindirectory", "highlight"}
  }

  predicate SocketTakes(s: Setting) {
    s.name in {"type", "path", "host"} || (s.name == "port" && 0 <= s.value <= 65535)
  }

  predicate DatabaseTakes(s: Setting) {
    s.name in {"type", "host", "port", "username", "password", "filename", "database", "options"}
  }

  predicate NetworkTakes(s: Setting) {
    s.name in {"autoconnect", "nickname", "username", "fullname", "password"}
  }

  predicate ServerTakes(s: Setting) {
    s.name in {"host", "port", "priority", "ssl", "sslverify"}
  }

  predicate PluginTakes(lib: Library, s: Setting) {
    || s.name in {"path", "executable", "parameters"}
    || (s.name == "scope" && lib.lower(lib.trim(s.text)) in {"network", "global"})
    || (s.name == "var" && |s.list| == 2)
  }

  predicate GoodPart(part: Part) {
    match part
    case Own(s) => NetworkTakes(s)
    case Server(ss) => forall s | s in ss :: ServerTakes(s)
    case Stray(name, arg) => name != "<server>" && Given(Open(name, arg))
  }

  // A section's name: its argument without the bracket.
  function NameIn(arg: string): string {
    if arg == "" then "" else arg[..|arg| - 1]
  }

  predicate GoodBlock(lib: Library, b: Block) {
    match b
    case Socket(ss) => forall s | s in ss :: SocketTakes(s)
    case Database(ss) => forall s | s in ss :: DatabaseTakes(s)
    case Network(arg, parts) => arg != "" && forall part | part in parts :: GoodPart(part)
    case Plugin(arg, ss) => NameIn(arg) != "" && forall s | s in ss :: PluginTakes(lib, s)
  }

  predicate GoodItem(lib: Library, item: Item) {
    match item
    case Global(s) => GlobalTakes(s)
    case Closed(b) => GoodBlock(lib, b)
  }

  predicate GoodPlace(lib: Library, place: Place) {
    match place
    case Outside => true
    case Within(b) => GoodBlock(lib, b)
    case InServer(arg, parts, ss) => GoodBlock(lib, Network(arg, parts)) && forall s | s in ss :: ServerTakes(s)
  }

  // At most one database.
  predicate OneDatabase(d: Document) {
    && (forall i, j | 0 <= i < j < |d.items| :: !(HasDatabase(d.items[i]) && HasDatabase(d.items[j])))
    && (d.place.Within? && d.place.block.Database? ==> !AnyDatabase(d.items))
  }

  predicate HasDatabase(item: Item) {
    item.Closed? && item.block.Database?
  }

  predicate Good(lib: Library, d: Document) {
    && (forall item | item in d.items :: GoodItem(lib, item))
    && GoodPlace(lib, d.place)
    && OneDatabase(d)
  }

  // ----- What documents mean -----

  // The last setting of a name counts.
  function LastText(lib: Library, ss: seq<Setting>, name: string, default: string): string {
    if ss == [] then default
    else if ss[|ss| - 1].name == name then lib.trim(ss[|ss| - 1].text)
    else LastText(lib, ss[..|ss| - 1], name, default)
  }

  function LastValue(ss: seq<Setting>, name: string, default: int): int {
    if ss == [] then default
    else if ss[|ss| - 1].name == name then ss[|ss| - 1].value
    else LastValue(ss[..|ss| - 1], name, default)
  }

  predicate IsTrue(lib: Library, text: string) {
    lib.lower(lib.trim(text)) in {"true", "yes", "1"}
  }

  function LastFlag(lib: Library, ss: seq<Setting>, name: string, default: bool): bool {
    if ss == [] then default
    else if ss[|ss| - 1].name == name then IsTrue(lib, ss[|ss| - 1].text)
    else LastFlag(lib, ss[..|ss| - 1], name, default)
  }

  function GlobalOf(lib: Library, ss: seq<Setting>): GlobalConfig {
    GlobalConfig(
      LastText(lib, ss, "nickname", "DaZeus"),
      LastText(lib, ss, "username", "DaZeus"),
      LastText(lib, ss, "fullname", "DaZeus IRC bot"),
      LastText(lib, ss, "plugindirectory", "plugins"),
      LastText(lib, ss, "highlight", "}"))
  }

  function SocketOf(lib: Library, ss: seq<Setting>): SocketConfig {
    SocketConfig(
      LastText(lib, ss, "type", ""),
      LastText(lib, ss, "host", ""),
      LastValue(ss, "port", 0),
      LastText(lib, ss, "path", ""))
  }

  // The port of a database is kept in 16 bits, whatever was written.
  function DatabaseOf(lib: Library, ss: seq<Setting>): DatabaseConfig {
    DatabaseConfig(
      LastText(lib, ss, "type", ""),
      LastText(lib, ss, "host", "127.0.0.1"),
      LastValue(ss, "port", 27017) % 65536,
      LastText(lib, ss, "username", ""),
      LastText(lib, ss, "password", ""),
      LastText(lib, ss, "filename", ""),
      LastText(lib, ss, "database", "dazeus"),
      LastText(lib, ss, "options", ""))
  }

  function ServerOf(lib: Library, ss: seq<Setting>): ServerConfig {
    ServerConfig(
      LastText(lib, ss, "host", ""),
      LastValue(ss, "port", lib.server.port),
      LastValue(ss, "priority", lib.server.priority),
      LastFlag(lib, ss, "ssl", lib.server.ssl),
      LastFlag(lib, ss, "sslverify", lib.server.sslVerify))
  }

  // A plugin that was ever given the network scope keeps it.
  predicate PerNetwork(lib: Library, ss: seq<Setting>) {
    exists s | s in ss :: s.name == "scope" && lib.lower(lib.trim(s.text)) == "network"
  }

  function Variables(lib: Library, ss: seq<Setting>): map<string, string> {
    if ss == [] then map[]
    else
      var before, s := Variables(lib, ss[..|ss| - 1]), ss[|ss| - 1];
      if s.name == "var" && |s.list| == 2 then before[lib.trim(s.list[0]) := lib.trim(s.list[1])] else before
  }

  function PluginOf(lib: Library, arg: string, ss: seq<Setting>): PluginConfig {
    PluginConfig(
      NameIn(arg),
      LastText(lib, ss, "path", ""),
      LastText(lib, ss, "executable", ""),
      PerNetwork(lib, ss),
      LastText(lib, ss, "parameters", ""),
      Variables(lib, ss))
  }

  function OwnOf(parts: seq<Part>): seq<Setting> {
    if parts == [] then []
    else
      var n := |parts| - 1;
      OwnOf(parts[..n]) + if parts[n].Own? then [parts[n].setting] else []
  }

  function ServersOf(lib: Library, parts: seq<Part>): seq<ServerConfig> {
    if parts == [] then []
    else
      var n := |parts| - 1;
      ServersOf(lib, parts[..n]) + if parts[n].Server? then [ServerOf(lib, parts[n].settings)] else []
  }

  // A network starts from the global settings as they stood when it was opened.
  function NetworkOf(lib: Library, g: GlobalConfig, arg: string, parts: seq<Part>): NetworkConfig {
    var own := OwnOf(parts);
    NetworkConfig(
      NameIn(arg),
      NameIn(arg),
      LastText(lib, own, "nickname", g.nickname),
      LastText(lib, own, "username", g.username),
      LastText(lib, own, "fullname", g.fullname),
      LastText(lib, own, "password", lib.network.password),
      LastFlag(lib, own, "autoconnect", lib.network.autoConnect),
      lib.network.servers + ServersOf(lib, parts))
  }

  function GlobalsOf(items: seq<Item>): seq<Setting> {
    if items == [] then []
    else
      var n := |items| - 1;
      GlobalsOf(items[..n]) + if items[n].Global? then [items[n].setting] else []
  }

  // What has been read of a file.
  datatype Configuration = Configuration(
    global: GlobalConfig,
    sockets: seq<SocketConfig>,
    database: Option<DatabaseConfig>,
    networks: seq<NetworkConfig>,
    plugins: seq<PluginConfig>)

  function Start(lib: Library): Configuration {
    Configuration(GlobalOf(lib, []), [], None, [], [])
  }

  function Added(lib: Library, c: Configuration, b: Block): Configuration {
    match b
    case Socket(ss) => c.(sockets := c.sockets + [SocketOf(lib, ss)])
    case Database(ss) => c.(database := Some(DatabaseOf(lib, ss)))
    case Network(arg, parts) => c.(networks := c.networks + [NetworkOf(lib, c.global, arg, parts)])
    case Plugin(arg, ss) => c.(plugins := c.plugins + [PluginOf(lib, arg, ss)])
  }

  function Meaning(lib: Library, items: seq<Item>): Configuration {
    if items == [] then Start(lib)
    else
      var n := |items| - 1;
      var c := Meaning(lib, items[..n]);
      match items[n]
      case Global(s) => c.(global := GlobalOf(lib, GlobalsOf(items)))
      case Closed(b) => Added(lib, c, b)
  }

  lemma {:induction false} MeaningIsGlobal(lib: Library, items: seq<Item>)
    ensures Meaning(lib, items).global == GlobalOf(lib, GlobalsOf(items))
  {
    if items != [] {
      var n := |items| - 1;
      MeaningIsGlobal(lib, items[..n]);
      assert items[n].Closed? ==> GlobalsOf(items) == GlobalsOf(items[..n]) + [] == GlobalsOf(items[..n]);
    }
  }

  predicate AnyDatabase(items: seq<Item>) {
    exists i | 0 <= i < |items| :: HasDatabase(items[i])
  }

  lemma AnyDatabaseSnoc(items: seq<Item>, item: Item)
    ensures AnyDatabase(items + [item]) <==> AnyDatabase(items) || HasDatabase(item)
  {
    if AnyDatabase(items) {
      var i :| 0 <= i < |items| && HasDatabase(items[i]);
      assert (items + [item])[i] == items[i];
    } else if HasDatabase(item) {
      assert (items + [item])[|items|] == item;
    }
  }

  lemma {:induction false} MeaningHasDatabase(lib: Library, items: seq<Item>)
    ensures Meaning(lib, items).database.Some? <==> AnyDatabase(items)
  {
    if items != [] {
      var n := |items| - 1;
      MeaningHasDatabase(lib, items[..n]);
      assert items == items[..n] + [items[n]];
      AnyDatabaseSnoc(items[..n], items[n]);
    }
  }
}
