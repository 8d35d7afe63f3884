/** Reading a whole file (ConfigReader::read in src/config.cpp), and what that says about
    configurations: every one that can be meant can be written and is read back. */
module ConfigFile {
  import opened ConfigDocument
  import opened ConfigParse
  import opened ConfigReader
  import opened ConfigFields
  import opened Settings

  datatype Outcome = Done | Threw(message: string) | Crashed

  // A file may end outside of any section; ending inside the database is not noticed.
  predicate Finished(d: Document) {
    d.place.Outside? || (d.place.Within? && d.place.block.Database?)
  }

  function Result(lib: Library, d: Document): Configuration {
    StateOf(lib, d).done
  }

  class ConfigFile {
    const lib: Library
    var configuration: Option<Configuration>
    var isRead: bool

    constructor (lib: Library)
      ensures this.lib == lib && configuration.None? && !isRead
    {
      this.lib, configuration, isRead := lib, None, false;
    }

    // What the file parser does with each event, up to the first error.
    method Replay(state: ConfigReaderState, events: seq<Event>) returns (ok: bool)
      requires state.Valid() && state.document == EMPTY && state.error == ""
      requires forall e | e in events :: Given(e)
      modifies state
      ensures state.Valid()
      ensures ok <==> Parse(state.lib, events).Some?
      ensures ok ==> state.document == Parse(state.lib, events).value && state.error == ""
      ensures !ok ==> state.error != ""
    {
      var i := 0;
      while i < |events|
        invariant i <= |events| && state.Valid() && state.error == ""
        invariant Parse(state.lib, events[..i]) == Some(state.document)
      {
        var error := Callback(state, events[i]);
        ParseNext(state.lib, events, i);
        if error.Some? {
          ParseStops(state.lib, events, i + 1);
          ErrorHandler(state, error.value);
          return false;
        }
        i := i + 1;
      }
      assert events[..i] == events;
      return true;
    }

    method Callback(state: ConfigReaderState, e: Event) returns (error: Option<string>)
      requires state.Valid() && Given(e)
      modifies state
      ensures state.Valid()
      ensures error.Some? ==> error.value != ""
      ensures error.None? ==> state.error == old(state.error)
      ensures Extend(state.lib, old(state.document), e) == if error.None? then Some(state.document) else None
    {
      match e {
        case Open(name, arg) => error := state.SectOpen(name, arg);
        case Close(name) => error := state.SectClose(name);
        case Set(s) => error := state.SetOption(s);
      }
    }

    method ErrorHandler(state: ConfigReaderState, message: string)
      requires state.Valid() && message != ""
      modifies state`error
      ensures state.Valid() && state.error != ""
    {
      state.error := if |state.error| == 0 then message else state.error + "\n" + message;
    }

    // Reading succeeds exactly on the events of a good document that is finished and has a
    // database, and gives its meaning.
    method Read(events: seq<Event>) returns (outcome: Outcome)
      requires forall e | e in events :: Given(e)
      modifies this
      ensures forall d | Good(lib, d) && Events(d) == events ::
        && (outcome.Threw? <==> Result(lib, d).database.None?)
        && (outcome.Done? <==> Result(lib, d).database.Some? && Finished(d))
        && (outcome.Done? ==> isRead && configuration == Some(Result(lib, d)))
      ensures (forall d | Good(lib, d) :: Events(d) != events) ==> outcome.Threw?
      ensures !outcome.Done? ==> !isRead && configuration == old(configuration)
    {
      isRead := false;
      var state := new ConfigReaderState(lib);
      var ok := Replay(state, events);
      ReadUniquely(lib, events);
      if !ok {
        return Threw(state.error);
      }
      state.ProgressMatchesSection();
      if state.databaseProgress.None? {
        return Threw("No Database block defined in config file.");
      }
      if state.socketProgress.Some? || state.networkProgress.Some? || state.serverProgress.Some?
         || state.pluginProgress.Some? {
        return Crashed;
      }
      configuration := Some(Configuration(state.globalProgress, state.sockets, state.databaseProgress,
                                          state.networks, state.plugins));
      isRead := true;
      return Done;
    }
  }

  lemma ParseNext(lib: Library, events: seq<Event>, i: nat)
    requires i < |events| && Parse(lib, events[..i]).Some?
    ensures Parse(lib, events[..i + 1]) == Extend(lib, Parse(lib, events[..i]).value, events[i])
  {
    assert events[..i + 1][..i] == events[..i];
  }

  // What no document begins with stays so.
  lemma {:induction false} ParseStops(lib: Library, events: seq<Event>, i: nat)
    requires i <= |events| && Parse(lib, events[..i]).None?
    ensures Parse(lib, events).None?
    decreases |events| - i
  {
    if i == |events| {
      assert events[..i] == events;
    } else {
      assert events[..i + 1][..i] == events[..i];
      ParseStops(lib, events, i + 1);
    }
  }

  lemma ReadUniquely(lib: Library, events: seq<Event>)
    requires forall e | e in events :: Given(e)
    ensures forall d :: Good(lib, d) && Events(d) == events <==> Parse(lib, events) == Some(d)
  {
    forall d ensures Good(lib, d) && Events(d) == events <==> Parse(lib, events) == Some(d) {
      ReadExactly(lib, events, d);
    }
  }

  // ----- Inheritance -----

  // What follows a network does not change it.
  lemma {:induction false} NetworkStays(lib: Library, before: seq<Item>, arg: string, parts: seq<Part>,
      after: seq<Item>)
    ensures
      var k := |Meaning(lib, before).networks|;
      var networks := Meaning(lib, before + [Closed(Network(arg, parts))] + after).networks;
      k < |networks| && networks[k] == NetworkOf(lib, GlobalOf(lib, GlobalsOf(before)), arg, parts)
  {
    var block := before + [Closed(Network(arg, parts))];
    if after == [] {
      assert block + after == block;
      ClosedItem(lib, before, Network(arg, parts));
      MeaningIsGlobal(lib, before);
    } else {
      var n := |after| - 1;
      NetworkStays(lib, before, arg, parts, after[..n]);
      assert block + after == block + after[..n] + [after[n]];
      match after[n] {
        case Global(s) => GlobalItem(lib, block + after[..n], s);
        case Closed(b) => ClosedItem(lib, block + after[..n], b);
      }
    }
  }

  // A network has its own settings, and for the rest the global ones of what stands before
  // it, whatever follows.
  lemma NetworkInherits(lib: Library, before: seq<Item>, arg: string, parts: seq<Part>, after: seq<Item>)
      returns (g: GlobalConfig)
    ensures GlobalFrom(lib, GlobalsOf(before), g)
    ensures
      var k := |Meaning(lib, before).networks|;
      var networks := Meaning(lib, before + [Closed(Network(arg, parts))] + after).networks;
      k < |networks| && NetworkFrom(lib, g, arg, OwnOf(parts), networks[k])
  {
    g := GlobalOf(lib, GlobalsOf(before));
    NetworkStays(lib, before, arg, parts, after);
    NetworkFields(lib, g, arg, parts);
    GlobalFields(lib, GlobalsOf(before));
  }
}
