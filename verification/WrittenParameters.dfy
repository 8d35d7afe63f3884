/** Parameters options as they are written, and the arguments start_plugin
    (src/pluginmonitor.cpp) makes of them.  A quoted part ends its argument, and whatever
    stands directly before it belongs to it. */
module WrittenParameters {
  import opened Common
  import opened Parameters

  // One element of an unquoted run.
  datatype Bit = Char(c: char) | SocketHere | NetworkHere

  predicate White(c: char) {
    c == ' ' || c as int in {9, 10, 11, 12, 13}  // tab, line feed, vertical tab, form feed, carriage return
  }

  predicate IsMark(c: char) {
    c == '\'' || c == '"'
  }

  // A percent sign is only itself if what follows does not make it a placeholder.
  predicate GoodRun(run: seq<Bit>) {
    && (forall b | b in run && b.Char? :: !White(b.c) && !IsMark(b.c))
    && forall i | 0 <= i < |run| - 1 :: run[i] == Char('%') ==> run[i + 1] != Char('s') && run[i + 1] != Char('n')
  }

  function BitText(b: Bit): string {
    match b
    case Char(c) => [c]
    case SocketHere => "%s"
    case NetworkHere => "%n"
  }

  function BitValue(b: Bit, socket: string, network: string): string {
    match b
    case Char(c) => [c]
    case SocketHere => socket
    case NetworkHere => network
  }

  function RunText(run: seq<Bit>): string {
    if run == [] then "" else BitText(run[0]) + RunText(run[1..])
  }

  function RunValue(run: seq<Bit>, socket: string, network: string): string {
    if run == [] then "" else BitValue(run[0], socket, network) + RunValue(run[1..], socket, network)
  }

  // A run that white space ends, or one that goes on in quotes; at the end of the option
  // either may be left open.
  datatype Item = Spaced(run: seq<Bit>, space: char) | Quoted(run: seq<Bit>, mark: char, body: string)
  datatype Ending = Bare(run: seq<Bit>) | Unclosed(run: seq<Bit>, mark: char, body: string)

  predicate GoodItem(item: Item) {
    && GoodRun(item.run)
    && match item
       case Spaced(_, space) => White(space)
       case Quoted(_, mark, body) => IsMark(mark) && mark !in body
  }

  predicate GoodEnding(e: Ending) {
    GoodRun(e.run) && (e.Unclosed? ==> IsMark(e.mark) && e.mark !in e.body)
  }

  function ItemTail(item: Item): string {
    match item
    case Spaced(_, space) => [space]
    case Quoted(_, mark, body) => [mark] + (body + [mark])
  }

  function Text(items: seq<Item>, e: Ending): string {
    if items == [] then RunText(e.run) + (if e.Unclosed? then [e.mark] + e.body else "")
    else RunText(items[0].run) + (ItemTail(items[0]) + Text(items[1..], e))
  }

  // A quoted part always makes an argument, anything else only if there is some text.
  function ItemValues(item: Item, socket: string, network: string): seq<string> {
    var value := RunValue(item.run, socket, network);
    match item
    case Spaced(_, _) => if value == "" then [] else [value]
    case Quoted(_, _, body) => [value + body]
  }

  function Values(items: seq<Item>, e: Ending, socket: string, network: string): seq<string> {
    if items == [] then
      var value := RunValue(e.run, socket, network) + if e.Unclosed? then e.body else "";
      if value == "" then [] else [value]
    else
      ItemValues(items[0], socket, network) + Values(items[1..], e, socket, network)
  }

  // ----- Scanning what is written -----

  // What may follow a run: nothing that would make a percent sign a placeholder.
  predicate MayFollow(rest: string) {
    rest == "" || White(rest[0]) || IsMark(rest[0])
  }

  lemma ScanBit(s: Scan, b: Bit, rest: string, socket: string, network: string)
    requires s.quote == Unquoted && (b.Char? ==> !White(b.c) && !IsMark(b.c))
    requires b == Char('%') && rest != "" ==> rest[0] != 's' && rest[0] != 'n'
    ensures Scanned(s, BitText(b) + rest, socket, network)
         == Scanned(s.(current := s.current + BitValue(b, socket, network)), rest, socket, network)
  {
    var text := BitText(b) + rest;
    if b.Char? {
      assert text[1..] == rest;
    } else {
      assert text[2..] == rest;
    }
  }

  lemma {:induction false} ScanRun(s: Scan, run: seq<Bit>, rest: string, socket: string, network: string)
    requires s.quote == Unquoted && GoodRun(run) && MayFollow(rest)
    ensures Scanned(s, RunText(run) + rest, socket, network)
         == Scanned(s.(current := s.current + RunValue(run, socket, network)), rest, socket, network)
    decreases |run|
  {
    if run == [] {
      assert "" + rest == rest && s.current + "" == s.current;
    } else {
      var b, others := run[0], run[1..];
      assert others != [] ==> RunText(others)[0] == BitText(others[0])[0];
      ScanBit(s, b, RunText(others) + rest, socket, network);
      Regroup(BitText(b), RunText(others), rest);
      Regroup(s.current, BitValue(b, socket, network), RunValue(others, socket, network));
      RestIsGood(run);
      ScanRun(s.(current := s.current + BitValue(b, socket, network)), others, rest, socket, network);
    }
  }

  lemma RestIsGood(run: seq<Bit>)
    requires GoodRun(run) && run != []
    ensures GoodRun(run[1..])
  {
    var others := run[1..];
    forall i | 0 <= i < |others| - 1
      ensures others[i] == Char('%') ==> others[i + 1] != Char('s') && others[i + 1] != Char('n')
    {
      assert others[i] == run[i + 1] && others[i + 1] == run[i + 2];
    }
  }

  lemma ScanMark(s: Scan, mark: char, rest: string, socket: string, network: string)
    requires s.quote == Unquoted && IsMark(mark)
    ensures Scanned(s, [mark] + rest, socket, network)
         == Scanned(s.(quote := if mark == '\'' then Single else Double), rest, socket, network)
  {
    assert ([mark] + rest)[1..] == rest;
  }

  lemma ScanTail(s: Scan, item: Item, rest: string, socket: string, network: string)
    requires s.quote == Unquoted && GoodItem(item)
    requires s.current == RunValue(item.run, socket, network)
    ensures Scanned(s, ItemTail(item) + rest, socket, network)
         == Scanned(Scan(s.arguments + ItemValues(item, socket, network), "", Unquoted), rest, socket, network)
  {
    match item {
      case Spaced(_, space) =>
        assert ([space] + rest)[1..] == rest;
        assert s.arguments + [] == s.arguments;
      case Quoted(_, mark, body) =>
        var open := s.(quote := if mark == '\'' then Single else Double);
        ScanMark(s, mark, body + ([mark] + rest), socket, network);
        ScanQuotedBody(open, body, [mark] + rest, socket, network);
        assert ([mark] + rest)[1..] == rest;
        assert [mark] + (body + [mark]) + rest == [mark] + (body + ([mark] + rest));
    }
  }

  lemma ScanEnding(arguments: seq<string>, e: Ending, socket: string, network: string)
    requires GoodEnding(e)
    ensures Flushed(Scanned(Scan(arguments, "", Unquoted), Text([], e), socket, network)).arguments
         == arguments + Values([], e, socket, network)
  {
    var s := Scan(arguments, "", Unquoted);
    var value := RunValue(e.run, socket, network);
    var tail := if e.Unclosed? then [e.mark] + e.body else "";
    ScanRun(s, e.run, tail, socket, network);
    assert "" + value == value && value + "" == value && arguments + [] == arguments;
    if e.Unclosed? {
      var open := Scan(arguments, value, if e.mark == '\'' then Single else Double);
      ScanMark(s.(current := value), e.mark, e.body, socket, network);
      ScanQuotedBody(open, e.body, "", socket, network);
      assert e.body + "" == e.body;
    }
  }

  lemma {:induction false} ScanItems(arguments: seq<string>, items: seq<Item>, e: Ending, socket: string,
      network: string)
    requires GoodEnding(e) && forall item | item in items :: GoodItem(item)
    ensures Flushed(Scanned(Scan(arguments, "", Unquoted), Text(items, e), socket, network)).arguments
         == arguments + Values(items, e, socket, network)
    decreases |items|
  {
    if items == [] {
      ScanEnding(arguments, e, socket, network);
    } else {
      var item, rest := items[0], Text(items[1..], e);
      var s, value := Scan(arguments, "", Unquoted), RunValue(item.run, socket, network);
      assert item in items && (ItemTail(item) + rest)[0] == ItemTail(item)[0];
      ScanRun(s, item.run, ItemTail(item) + rest, socket, network);
      assert "" + value == value;
      ScanTail(s.(current := value), item, rest, socket, network);
      ScanItems(arguments + ItemValues(item, socket, network), items[1..], e, socket, network);
      Regroup(arguments, ItemValues(item, socket, network), Values(items[1..], e, socket, network));
    }
  }

  // Whatever is written, and whatever the values, the arguments are what the parts stand for.
  lemma WrittenIsRead(items: seq<Item>, e: Ending, socket: string, network: string)
    requires GoodEnding(e) && forall item | item in items :: GoodItem(item)
    ensures Arguments(Text(items, e), socket, network) == Values(items, e, socket, network)
  {
    ScanItems([], items, e, socket, network);
    assert [] + Values(items, e, socket, network) == Values(items, e, socket, network);
  }

  // ----- Every option is written so -----

  predicate Good(items: seq<Item>, e: Ending) {
    GoodEnding(e) && forall item | item in items :: GoodItem(item)
  }

  function FirstRun(items: seq<Item>, e: Ending): seq<Bit> {
    if items == [] then e.run else items[0].run
  }

  // One more element in front of the first run.
  function Led(b: Bit, items: seq<Item>, e: Ending): (r: (seq<Item>, Ending)) {
    if items == [] then ([], e.(run := [b] + e.run))
    else ([items[0].(run := [b] + items[0].run)] + items[1..], e)
  }

  lemma LongerRun(b: Bit, run: seq<Bit>)
    requires GoodRun(run) && (b.Char? ==> !White(b.c) && !IsMark(b.c))
    requires b == Char('%') && run != [] ==> run[0] != Char('s') && run[0] != Char('n')
    ensures GoodRun([b] + run) && RunText([b] + run) == BitText(b) + RunText(run)
  {
    assert ([b] + run)[1..] == run;
  }

  lemma LedIsGood(b: Bit, items: seq<Item>, e: Ending)
    requires Good(items, e) && (b.Char? ==> !White(b.c) && !IsMark(b.c))
    requires
      var run := FirstRun(items, e);
      b == Char('%') && run != [] ==> run[0] != Char('s') && run[0] != Char('n')
    ensures Good(Led(b, items, e).0, Led(b, items, e).1)
    ensures Text(Led(b, items, e).0, Led(b, items, e).1) == BitText(b) + Text(items, e)
  {
    var run := FirstRun(items, e);
    assert items != [] ==> items[0] in items;
    LongerRun(b, run);
    if items == [] {
      Regroup(BitText(b), RunText(run), if e.Unclosed? then [e.mark] + e.body else "");
    } else {
      assert ([items[0].(run := [b] + run)] + items[1..])[1..] == items[1..];
      Regroup(BitText(b), RunText(run), ItemTail(items[0]) + Text(items[1..], e));
    }
  }

  lemma FirstChar(items: seq<Item>, e: Ending)
    requires FirstRun(items, e) != [] && FirstRun(items, e)[0].Char?
    ensures Text(items, e) != "" && Text(items, e)[0] == FirstRun(items, e)[0].c
  {
  }

  lemma {:induction false} FindMark(text: string, mark: char) returns (k: nat)
    ensures k <= |text| && mark !in text[..k] && (k < |text| ==> text[k] == mark)
  {
    k := 0;
    if text != "" && text[0] != mark {
      var n := FindMark(text[1..], mark);
      k := n + 1;
      assert text[..k] == [text[0]] + text[1..][..n];
    }
  }

  lemma InFront(item: Item, items: seq<Item>, e: Ending)
    requires Good(items, e) && GoodItem(item) && item.run == []
    ensures Good([item] + items, e) && Text([item] + items, e) == ItemTail(item) + Text(items, e)
  {
    assert ([item] + items)[1..] == items;
  }

  // So what is read from an option is determined for every option there is.
  lemma {:induction false} EveryTextIsWritten(text: string) returns (items: seq<Item>, e: Ending)
    ensures Good(items, e) && Text(items, e) == text
    decreases |text|
  {
    if text == "" {
      return [], Bare([]);
    }
    var c := text[0];
    assert text == [c] + text[1..];
    if IsMark(c) {
      items, e := QuotedIsWritten(text);
    } else if White(c) {
      items, e := EveryTextIsWritten(text[1..]);
      InFront(Spaced([], c), items, e);
      items := [Spaced([], c)] + items;
    } else if c == '%' && |text| > 1 && (text[1] == 's' || text[1] == 'n') {
      var b := if text[1] == 's' then SocketHere else NetworkHere;
      items, e := EveryTextIsWritten(text[2..]);
      LedIsGood(b, items, e);
      assert text == BitText(b) + text[2..];
      var led := Led(b, items, e);
      items, e := led.0, led.1;
    } else {
      items, e := EveryTextIsWritten(text[1..]);
      if FirstRun(items, e) != [] && FirstRun(items, e)[0].Char? {
        FirstChar(items, e);
      }
      LedIsGood(Char(c), items, e);
      var led := Led(Char(c), items, e);
      items, e := led.0, led.1;
    }
  }

  lemma {:induction false} QuotedIsWritten(text: string) returns (items: seq<Item>, e: Ending)
    requires text != "" && IsMark(text[0])
    ensures Good(items, e) && Text(items, e) == text
    decreases |text|, 0
  {
    var mark, rest := text[0], text[1..];
    var k := FindMark(rest, mark);
    if k == |rest| {
      assert rest[..k] == rest && text == [mark] + rest;
      items, e := [], Unclosed([], mark, rest);
      assert "" + ([mark] + rest) == [mark] + rest;
    } else {
      items, e := EveryTextIsWritten(rest[k + 1..]);
      var item := Quoted([], mark, rest[..k]);
      InFront(item, items, e);
      items := [item] + items;
      assert text == [mark] + (rest[..k] + [mark]) + rest[k + 1..];
    }
  }
}
