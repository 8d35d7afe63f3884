/** Reading parser events back as a document: the events that are accepted are exactly those
    of the documents that may be written, and each is read as the document it came from. */
module ConfigParse {
  import opened Common
  import opened ConfigDocument
  import opened Settings

  // The document after one more event, None if no document goes on that way.
  function Extend(lib: Library, d: Document, e: Event): Option<Document> {
    match e
    case Open(name, arg) => Opened(d, name, arg)
    case Close(name) => EndOf(d, name)
    case Set(s) => WithSetting(lib, d, s)
  }

  function Opened(d: Document, name: string, arg: string): Option<Document> {
    match d.place
    case Outside =>
      if name == "<socket>" then Some(d.(place := Within(Socket([]))))
      else if name == "<database>" then
        if AnyDatabase(d.items) then None else Some(d.(place := Within(Database([]))))
      else if name == "<network" then Some(d.(place := Within(Network(arg, []))))
      else if name == "<plugin" && NameIn(arg) != "" then Some(d.(place := Within(Plugin(arg, []))))
      else None
    case Within(b) =>
      if !b.Network? then None
      else if name == "<server>" then Some(d.(place := InServer(b.arg, b.parts, [])))
      else Some(d.(place := Within(b.(parts := b.parts + [Stray(name, arg)]))))
    case InServer(_, _, _) => None
  }

  function EndOf(d: Document, name: string): Option<Document> {
    match d.place
    case Outside => None
    case Within(b) => if name == Ending(b) then Some(Document(d.items + [Closed(b)], Outside)) else None
    case InServer(arg, parts, ss) =>
      if name == "</server>" then Some(d.(place := Within(Network(arg, parts + [Server(ss)])))) else None
  }

  function WithSetting(lib: Library, d: Document, s: Setting): Option<Document> {
    match d.place
    case Outside => if GlobalTakes(s) then Some(d.(items := d.items + [Global(s)])) else None
    case Within(b) => (
      match b
      case Socket(ss) => if SocketTakes(s) then Some(d.(place := Within(Socket(ss + [s])))) else None
      case Database(ss) => if DatabaseTakes(s) then Some(d.(place := Within(Database(ss + [s])))) else None
      case Network(arg, parts) =>
        if NetworkTakes(s) then Some(d.(place := Within(Network(arg, parts + [Own(s)])))) else None
      case Plugin(arg, ss) => if PluginTakes(lib, s) then Some(d.(place := Within(Plugin(arg, ss + [s])))) else None)
    case InServer(arg, parts, ss) =>
      if ServerTakes(s) then Some(d.(place := InServer(arg, parts, ss + [s]))) else None
  }

  function Parse(lib: Library, events: seq<Event>): Option<Document> {
    if events == [] then Some(EMPTY)
    else
      match Parse(lib, events[..|events| - 1])
      case None => None
      case Some(d) => Extend(lib, d, events[|events| - 1])
  }

  // Small facts about appending.
  lemma SetsSnoc(ss: seq<Setting>, s: Setting)
    ensures Sets(ss + [s]) == Sets(ss) + [Set(s)]
  {
  }

  lemma OfPartsSnoc(parts: seq<Part>, part: Part)
    ensures OfParts(parts + [part]) == OfParts(parts) + OfPart(part)
  {
    assert (parts + [part])[..|parts|] == parts;
  }

  lemma OfItemsSnoc(items: seq<Item>, item: Item)
    ensures OfItems(items + [item]) == OfItems(items) + OfItem(item)
  {
    assert (items + [item])[..|items|] == items;
  }

  // ----- What is read is a document with those events -----

  lemma SetInBlock(lib: Library, d: Document, s: Setting, d': Document)
    requires d.place.Within? && WithSetting(lib, d, s) == Some(d')
    ensures d'.items == d.items && OfPlace(d'.place) == OfPlace(d.place) + [Set(s)]
  {
    match d.place.block {
      case Socket(ss) => SetsSnoc(ss, s);
      case Database(ss) => SetsSnoc(ss, s);
      case Network(arg, parts) => OfPartsSnoc(parts, Own(s));
      case Plugin(arg, ss) => SetsSnoc(ss, s);
    }
  }

  lemma SetInServer(lib: Library, d: Document, s: Setting, d': Document)
    requires d.place.InServer? && WithSetting(lib, d, s) == Some(d')
    ensures d'.items == d.items && OfPlace(d'.place) == OfPlace(d.place) + [Set(s)]
  {
    SetsSnoc(d.place.settings, s);
  }

  lemma OpenInPlace(d: Document, name: string, arg: string, d': Document)
    requires Opened(d, name, arg) == Some(d') && Given(Open(name, arg))
    ensures d'.items == d.items && OfPlace(d'.place) == OfPlace(d.place) + [Open(name, arg)]
  {
    if d.place.Within? && name != "<server>" {
      OfPartsSnoc(d.place.block.parts, Stray(name, arg));
    }
  }

  lemma ServerInNetwork(a: seq<Event>, b: seq<Event>, c: seq<Event>, d: seq<Event>, e: seq<Event>)
    ensures a + (b + (c + d + e)) == a + b + c + d + e
  {
  }

  lemma EndOfServer(d: Document, name: string, d': Document)
    requires d.place.InServer? && EndOf(d, name) == Some(d')
    ensures d'.items == d.items && OfPlace(d'.place) == OfPlace(d.place) + [Close(name)]
  {
    var arg, parts, ss := d.place.arg, d.place.parts, d.place.settings;
    OfPartsSnoc(parts, Server(ss));
    ServerInNetwork([Open("<network", arg)], OfParts(parts), [Open("<server>", "")], Sets(ss), [Close(name)]);
  }

  // What follows within the same item.
  lemma GoesOn(items: seq<Item>, place: Place, place': Place, e: Event)
    requires OfPlace(place') == OfPlace(place) + [e]
    ensures Events(Document(items, place')) == Events(Document(items, place)) + [e]
  {
    Regroup(OfItems(items), OfPlace(place), [e]);
  }

  // The end of an item.
  lemma ItemEnds(items: seq<Item>, place: Place, item: Item, e: Event)
    requires OfItem(item) == OfPlace(place) + [e]
    ensures Events(Document(items + [item], Outside)) == Events(Document(items, place)) + [e]
  {
    OfItemsSnoc(items, item);
    Regroup(OfItems(items), OfPlace(place), [e]);
    assert OfItems(items + [item]) + [] == OfItems(items + [item]);
  }

  lemma ExtendPrints(lib: Library, d: Document, e: Event, d': Document)
    requires Extend(lib, d, e) == Some(d') && Given(e)
    ensures Events(d') == Events(d) + [e]
  {
    match e {
      case Open(name, arg) =>
        OpenInPlace(d, name, arg, d');
        GoesOn(d.items, d.place, d'.place, e);
      case Close(name) =>
        if d.place.Within? {
          ItemEnds(d.items, d.place, Closed(d.place.block), e);
        } else {
          EndOfServer(d, name, d');
          GoesOn(d.items, d.place, d'.place, e);
        }
      case Set(s) =>
        if d.place.Outside? {
          ItemEnds(d.items, d.place, Global(s), e);
        } else {
          if d.place.Within? {
            SetInBlock(lib, d, s, d');
          } else {
            SetInServer(lib, d, s, d');
          }
          GoesOn(d.items, d.place, d'.place, e);
        }
    }
  }

  lemma AddingKeepsGood(lib: Library, items: seq<Item>, place: Place, item: Item)
    requires Good(lib, Document(items, place)) && GoodItem(lib, item) && (HasDatabase(item) ==> !AnyDatabase(items))
    ensures Good(lib, Document(items + [item], Outside))
  {
    var all := items + [item];
    forall i, j | 0 <= i < j < |all| ensures !(HasDatabase(all[i]) && HasDatabase(all[j])) {
      assert all[i] == items[i];
    }
  }

  lemma ExtendKeepsGood(lib: Library, d: Document, e: Event, d': Document)
    requires Good(lib, d) && Given(e) && Extend(lib, d, e) == Some(d')
    ensures Good(lib, d')
  {
    match e {
      case Close(name) =>
        if d.place.Within? {
          AddingKeepsGood(lib, d.items, d.place, Closed(d.place.block));
        }
      case Set(s) =>
        if d.place.Outside? {
          AddingKeepsGood(lib, d.items, d.place, Global(s));
        }
      case Open(name, arg) =>
    }
  }

  // ----- A document is read from its events -----

  function Last<T>(s: seq<T>): T
    requires s != []
  {
    s[|s| - 1]
  }

  function Init<T>(s: seq<T>): seq<T>
    requires s != []
  {
    s[..|s| - 1]
  }

  // The document before its last event, and that event.
  function BeforeItem(d: Document): (Document, Event)
    requires d.place.Outside? && d.items != []
  {
    match Last(d.items)
    case Global(s) => (Document(Init(d.items), Outside), Set(s))
    case Closed(b) => (Document(Init(d.items), Within(b)), Close(Ending(b)))
  }

  function BeforeSetting(d: Document, ss: seq<Setting>, back: Place, opening: Event, shorter: Place):
      (Document, Event)
  {
    if ss == [] then (d.(place := back), opening) else (d.(place := shorter), Set(Last(ss)))
  }

  function Shorter(ss: seq<Setting>): seq<Setting> {
    if ss == [] then [] else Init(ss)
  }

  function BeforePart(d: Document, arg: string, parts: seq<Part>): (Document, Event) {
    if parts == [] then (d.(place := Outside), Open("<network", arg))
    else
      match Last(parts)
      case Own(s) => (d.(place := Within(Network(arg, Init(parts)))), Set(s))
      case Server(ss) => (d.(place := InServer(arg, Init(parts), ss)), Close("</server>"))
      case Stray(name, a) => (d.(place := Within(Network(arg, Init(parts)))), Open(name, a))
  }

  function Before(d: Document): (Document, Event)
    requires d != EMPTY
  {
    match d.place
    case Outside => BeforeItem(d)
    case Within(b) => (
      match b
      case Socket(ss) => BeforeSetting(d, ss, Outside, Open("<socket>", ""), Within(Socket(Shorter(ss))))
      case Database(ss) => BeforeSetting(d, ss, Outside, Open("<database>", ""), Within(Database(Shorter(ss))))
      case Network(arg, parts) => BeforePart(d, arg, parts)
      case Plugin(arg, ss) => BeforeSetting(d, ss, Outside, Open("<plugin", arg), Within(Plugin(arg, Shorter(ss)))))
    case InServer(arg, parts, ss) =>
      BeforeSetting(d, ss, Within(Network(arg, parts)), Open("<server>", ""), InServer(arg, parts, Shorter(ss)))
  }

  lemma SnocLast<T>(s: seq<T>)
    requires s != []
    ensures Init(s) + [Last(s)] == s && Last(s) in s && forall x | x in Init(s) :: x in s
  {
  }

  lemma BeforeItemIsBefore(lib: Library, d: Document)
    requires Good(lib, d) && d.place.Outside? && d.items != []
    ensures Good(lib, BeforeItem(d).0) && Given(BeforeItem(d).1)
    ensures Extend(lib, BeforeItem(d).0, BeforeItem(d).1) == Some(d)
  {
    SnocLast(d.items);
    var before := BeforeItem(d).0;
    forall i, j | 0 <= i < j < |before.items|
      ensures !(HasDatabase(before.items[i]) && HasDatabase(before.items[j]))
    {
      assert before.items[i] == d.items[i] && before.items[j] == d.items[j];
    }
    forall i | 0 <= i < |before.items| ensures HasDatabase(Last(d.items)) ==> !HasDatabase(before.items[i]) {
      assert before.items[i] == d.items[i];
    }
  }

  lemma BeforePartIsBefore(lib: Library, d: Document, arg: string, parts: seq<Part>)
    requires Good(lib, d) && d.place == Within(Network(arg, parts))
    ensures Good(lib, BeforePart(d, arg, parts).0) && Given(BeforePart(d, arg, parts).1)
    ensures Extend(lib, BeforePart(d, arg, parts).0, BeforePart(d, arg, parts).1) == Some(d)
  {
    if parts != [] {
      SnocLast(parts);
    }
  }

  lemma BeforeIsBefore(lib: Library, d: Document)
    requires Good(lib, d) && d != EMPTY
    ensures Good(lib, Before(d).0) && Given(Before(d).1)
    ensures Extend(lib, Before(d).0, Before(d).1) == Some(d)
  {
    match d.place {
      case Outside => BeforeItemIsBefore(lib, d);
      case Within(b) =>
        match b {
          case Socket(ss) => if ss != [] { SnocLast(ss); }
          case Database(ss) => if ss != [] { SnocLast(ss); }
          case Network(arg, parts) => BeforePartIsBefore(lib, d, arg, parts);
          case Plugin(arg, ss) => if ss != [] { SnocLast(ss); }
        }
      case InServer(arg, parts, ss) => if ss != [] { SnocLast(ss); }
    }
  }

  lemma {:induction false} PrintedIsParsed(lib: Library, d: Document)
    requires Good(lib, d)
    ensures Parse(lib, Events(d)) == Some(d) && forall e | e in Events(d) :: Given(e)
    decreases |Events(d)|
  {
    if d != EMPTY {
      var (before, e) := Before(d);
      BeforeIsBefore(lib, d);
      ExtendPrints(lib, before, e, d);
      PrintedIsParsed(lib, before);
      assert (Events(before) + [e])[..|Events(before)|] == Events(before);
    }
  }

  lemma LastEventRead(lib: Library, events: seq<Event>, d: Document) returns (before: Document)
    requires events != [] && Parse(lib, events) == Some(d)
    ensures Parse(lib, Init(events)) == Some(before) && Extend(lib, before, Last(events)) == Some(d)
  {
    before := Parse(lib, Init(events)).value;
  }

  lemma EmptyIsGood(lib: Library)
    ensures Good(lib, EMPTY) && Events(EMPTY) == []
  {
  }

  lemma {:induction false} ParsedIsPrinted(lib: Library, events: seq<Event>, d: Document)
    requires Parse(lib, events) == Some(d) && forall i | 0 <= i < |events| :: Given(events[i])
    ensures Good(lib, d) && Events(d) == events
  {
    if events == [] {
      EmptyIsGood(lib);
    } else {
      var before := LastEventRead(lib, events, d);
      ParsedIsPrinted(lib, Init(events), before);
      ExtendPrints(lib, before, Last(events), d);
      ExtendKeepsGood(lib, before, Last(events), d);
      SnocLast(events);
    }
  }

  // Events are read as a document if and only if it is a good one and these are its events.
  lemma ReadExactly(lib: Library, events: seq<Event>, d: Document)
    ensures Parse(lib, events) == Some(d) && (forall e | e in events :: Given(e)) <==>
      Good(lib, d) && Events(d) == events
  {
    if Parse(lib, events) == Some(d) && forall e | e in events :: Given(e) {
      ParsedIsPrinted(lib, events, d);
    } else if Good(lib, d) && Events(d) == events {
      PrintedIsParsed(lib, d);
    }
  }

  // A callback that finds no continuation is right: no good document goes on that way.
  lemma NoContinuation(lib: Library, d: Document, e: Event)
    requires Good(lib, d) && Given(e)
    ensures Extend(lib, d, e).None? <==> forall d' | Good(lib, d') :: Events(d') != Events(d) + [e]
  {
    var events := Events(d) + [e];
    PrintedIsParsed(lib, d);
    assert events[..|events| - 1] == Events(d);
    forall d' | Good(lib, d') && Events(d') == events ensures Extend(lib, d, e) == Some(d') {
      PrintedIsParsed(lib, d');
    }
    if Extend(lib, d, e).Some? {
      var d' := Extend(lib, d, e).value;
      ExtendPrints(lib, d, e, d');
      ExtendKeepsGood(lib, d, e, d');
    }
  }
}
