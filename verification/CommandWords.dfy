/** Command lines as people write them, and what messageReceived (src/plugincomm.cpp) reads
    from them.  A word is a list of pieces, and words are separated by spaces. */
module CommandWords {
  import opened Common
  import opened CommandLine

  // One character of a quoted stretch or of a word: as it is, or after a backslash.
  datatype Mark = Plain(c: char) | Escaped(c: char)

  datatype Piece = Bare(mark: Mark) | Quoted(marks: seq<Mark>)

  // What needs no backslash: inside quotes anything but a quote and a backslash, outside
  // not even a space.
  predicate GoodMark(m: Mark) {
    m.Plain? ==> m.c != '"' && m.c != '\\'
  }

  predicate GoodPiece(p: Piece) {
    match p
    case Bare(m) => GoodMark(m) && (m.Plain? ==> m.c != ' ')
    case Quoted(marks) => forall m | m in marks :: GoodMark(m)
  }

  predicate Good(word: seq<Piece>) {
    forall p | p in word :: GoodPiece(p)
  }

  function MarkText(m: Mark): string {
    if m.Plain? then [m.c] else ['\\', m.c]
  }

  function MarksText(marks: seq<Mark>): string {
    if marks == [] then "" else MarkText(marks[0]) + MarksText(marks[1..])
  }

  function PieceText(p: Piece): string {
    match p
    case Bare(m) => MarkText(m)
    case Quoted(marks) => "\"" + (MarksText(marks) + "\"")
  }

  function WordText(word: seq<Piece>): string {
    if word == [] then "" else PieceText(word[0]) + WordText(word[1..])
  }

  // What a word stands for: its characters, in order.
  function Chars(marks: seq<Mark>): string {
    seq(|marks|, i requires 0 <= i < |marks| => marks[i].c)
  }

  function PieceValue(p: Piece): string {
    match p
    case Bare(m) => [m.c]
    case Quoted(marks) => Chars(marks)
  }

  function WordValue(word: seq<Piece>): string {
    if word == [] then "" else PieceValue(word[0]) + WordValue(word[1..])
  }

  predicate HasQuotes(word: seq<Piece>) {
    exists i | 0 <= i < |word| :: word[i].Quoted?
  }

  // A word and the spaces after it, at least one; and what stands at the end, where a quoted
  // stretch may be left open and a backslash may have nothing after it.
  datatype Item = Item(word: seq<Piece>, spaces: nat)
  datatype Ending = Ending(word: seq<Piece>, open: bool, marks: seq<Mark>, dangling: bool)

  function Spaces(n: nat): string {
    seq(n, i => ' ')
  }

  predicate GoodLine(items: seq<Item>, e: Ending) {
    && (forall item | item in items :: Good(item.word) && item.spaces > 0)
    && Good(e.word) && (forall m | m in e.marks :: GoodMark(m)) && (!e.open ==> e.marks == [])
  }

  function Dangling(e: Ending): string {
    if e.dangling then "\\" else ""
  }

  function OpenText(e: Ending): string {
    if e.open then "\"" + (MarksText(e.marks) + Dangling(e)) else Dangling(e)
  }

  function Line(items: seq<Item>, e: Ending): string {
    if items == [] then WordText(e.word) + OpenText(e)
    else WordText(items[0].word) + (Spaces(items[0].spaces) + Line(items[1..], e))
  }

  // A word is kept if and only if it stands for some text or has quotes.
  function Kept(value: string, quotes: bool): seq<string> {
    if value != "" || quotes then [value] else []
  }

  function Values(items: seq<Item>, e: Ending): seq<string> {
    if items == [] then Kept(WordValue(e.word) + Chars(e.marks), HasQuotes(e.word) || e.open)
    else Kept(WordValue(items[0].word), HasQuotes(items[0].word)) + Values(items[1..], e)
  }

  // ----- Scanning what is written -----

  predicate Between(s: Scan) {
    !s.inQuote && !s.inEscape
  }

  // A text that takes the scan of a word from one state to another.
  predicate Leads(s: Scan, text: string, t: Scan, rest: string) {
    && Scanned(s, text + rest) == Scanned(t, rest)
    && WordEnd(s, text + rest) == |text| + WordEnd(t, rest)
  }

  lemma LeadsOn(s: Scan, a: string, t: Scan, b: string, u: Scan, rest: string)
    requires Leads(s, a, t, b + rest) && Leads(t, b, u, rest)
    ensures Leads(s, a + b, u, rest)
  {
    Regroup(a, b, rest);
  }

  lemma ScanMark(s: Scan, m: Mark, rest: string)
    requires !s.inEscape && GoodMark(m) && (s.inQuote || m != Plain(' '))
    ensures Leads(s, MarkText(m), s.(word := s.word + [m.c]), rest)
  {
    var text := MarkText(m) + rest;
    if m.Plain? {
      assert text[1..] == rest;
    } else {
      assert text[1..][1..] == rest;
    }
  }

  lemma {:induction false} ScanMarks(s: Scan, marks: seq<Mark>, rest: string)
    requires s.inQuote && !s.inEscape && forall m | m in marks :: GoodMark(m)
    ensures Leads(s, MarksText(marks), s.(word := s.word + Chars(marks)), rest)
    decreases |marks|
  {
    if marks == [] {
      assert "" + rest == rest && s.word + Chars(marks) == s.word;
    } else {
      var t := s.(word := s.word + [marks[0].c]);
      ScanMark(s, marks[0], MarksText(marks[1..]) + rest);
      ScanMarks(t, marks[1..], rest);
      LeadsOn(s, MarkText(marks[0]), t, MarksText(marks[1..]), t.(word := t.word + Chars(marks[1..])), rest);
      assert s.word + [marks[0].c] + Chars(marks[1..]) == s.word + Chars(marks);
    }
  }

  lemma ScanQuote(s: Scan, rest: string)
    requires !s.inEscape
    ensures Leads(s, "\"", s.(inQuote := !s.inQuote, hadQuotes := true), rest)
  {
    assert ("\"" + rest)[1..] == rest;
  }

  lemma ScanPiece(s: Scan, p: Piece, rest: string)
    requires Between(s) && GoodPiece(p)
    ensures Leads(s, PieceText(p), s.(word := s.word + PieceValue(p), hadQuotes := s.hadQuotes || p.Quoted?), rest)
  {
    match p {
      case Bare(m) => ScanMark(s, m, rest);
      case Quoted(marks) =>
        var open := s.(inQuote := true, hadQuotes := true);
        var read := open.(word := s.word + Chars(marks));
        ScanQuote(s, MarksText(marks) + "\"" + rest);
        ScanMarks(open, marks, "\"" + rest);
        ScanQuote(read, rest);
        LeadsOn(open, MarksText(marks), read, "\"", read.(inQuote := false), rest);
        LeadsOn(s, "\"", open, MarksText(marks) + "\"", read.(inQuote := false), rest);
    }
  }

  lemma {:induction false} ScanWord(s: Scan, word: seq<Piece>, rest: string)
    requires Between(s) && Good(word)
    ensures
      Leads(s, WordText(word), s.(word := s.word + WordValue(word), hadQuotes := s.hadQuotes || HasQuotes(word)), rest)
    decreases |word|
  {
    if word == [] {
      assert "" + rest == rest && s.word + "" == s.word;
    } else {
      var t := s.(word := s.word + PieceValue(word[0]), hadQuotes := s.hadQuotes || word[0].Quoted?);
      ScanPiece(s, word[0], WordText(word[1..]) + rest);
      ScanWord(t, word[1..], rest);
      QuotesInRest(word);
      Regroup(s.word, PieceValue(word[0]), WordValue(word[1..]));
      LeadsOn(s, PieceText(word[0]), t, WordText(word[1..]),
        s.(word := s.word + WordValue(word), hadQuotes := s.hadQuotes || HasQuotes(word)), rest);
    }
  }

  lemma QuotesInRest(word: seq<Piece>)
    requires word != []
    ensures HasQuotes(word) <==> word[0].Quoted? || HasQuotes(word[1..])
  {
    if HasQuotes(word) && !word[0].Quoted? {
      var i :| 0 <= i < |word| && word[i].Quoted?;
      assert word[1..][i - 1].Quoted?;
    }
  }

  // Spaces end a word, however many they are.
  lemma {:induction false} ScanSpaces(s: Scan, n: nat, rest: string)
    requires Between(s) && n > 0
    ensures Scanned(s, Spaces(n) + rest) == Scanned(Fresh(Finish(s)), rest)
    ensures WordEnd(s, Spaces(n) + rest) == 0
    decreases n
  {
    var text := Spaces(n) + rest;
    assert text[1..] == Spaces(n - 1) + rest;
    if n == 1 {
      assert text[1..] == rest;
    } else {
      ScanSpaces(Fresh(Finish(s)), n - 1, rest);
    }
  }

  // The state after a word that began with the given arguments.
  function WordRead(args: seq<string>, word: seq<Piece>): Scan {
    Scan(args, WordValue(word), false, HasQuotes(word), false)
  }

  lemma ScanNewWord(args: seq<string>, word: seq<Piece>, rest: string)
    requires Good(word)
    ensures Leads(Fresh(args), WordText(word), WordRead(args, word), rest)
    ensures Finish(WordRead(args, word)) == args + Kept(WordValue(word), HasQuotes(word))
  {
    ScanWord(Fresh(args), word, rest);
    assert "" + WordValue(word) == WordValue(word) && args + [] == args;
  }

  lemma ScanDangling(s: Scan, e: Ending)
    requires !s.inEscape
    ensures WordEnd(s, Dangling(e)) == |Dangling(e)|
    ensures Scanned(s, Dangling(e)) == s.(inEscape := e.dangling)
  {
    if e.dangling {
      assert "\\"[1..] == "";
      assert Step(s, '\\') == s.(inEscape := true);
    }
  }

  lemma ScanOpen(s: Scan, e: Ending)
    requires Between(s) && GoodLine([], e)
    ensures WordEnd(s, OpenText(e)) == |OpenText(e)|
    ensures
      var t := Scanned(s, OpenText(e));
      t.args == s.args && t.word == s.word + Chars(e.marks) && t.hadQuotes == (s.hadQuotes || e.open)
  {
    if e.open {
      var open := s.(inQuote := true, hadQuotes := true);
      var read := open.(word := s.word + Chars(e.marks));
      ScanQuote(s, MarksText(e.marks) + Dangling(e));
      ScanMarks(open, e.marks, Dangling(e));
      ScanDangling(read, e);
    } else {
      assert s.word + Chars(e.marks) == s.word;
      ScanDangling(s, e);
    }
  }

  lemma ScanEnding(args: seq<string>, e: Ending)
    requires GoodLine([], e)
    ensures Finish(Scanned(Fresh(args), Line([], e))) == args + Values([], e)
    ensures WordEnd(Fresh(args), Line([], e)) == |Line([], e)|
  {
    ScanNewWord(args, e.word, OpenText(e));
    ScanOpen(WordRead(args, e.word), e);
    assert args + [] == args;
  }

  lemma {:induction false} ScanLine(args: seq<string>, items: seq<Item>, e: Ending)
    requires GoodLine(items, e)
    ensures Finish(Scanned(Fresh(args), Line(items, e))) == args + Values(items, e)
    decreases |items|
  {
    if items == [] {
      ScanEnding(args, e);
    } else {
      var item, rest := items[0], Line(items[1..], e);
      assert item in items;
      ScanNewWord(args, item.word, Spaces(item.spaces) + rest);
      ScanSpaces(WordRead(args, item.word), item.spaces, rest);
      ScanLine(Finish(WordRead(args, item.word)), items[1..], e);
      Regroup(args, Kept(WordValue(item.word), HasQuotes(item.word)), Values(items[1..], e));
    }
  }

  // Words written with any pieces, separated and surrounded by any number of spaces, are
  // read as exactly the texts of their pieces.
  lemma WrittenIsRead(items: seq<Item>, e: Ending)
    requires GoodLine(items, e)
    ensures Words(Line(items, e)) == Values(items, e)
  {
    ScanLine([], items, e);
    assert [] + Values(items, e) == Values(items, e);
  }

  // And the text kept for the arguments is what follows the first space.
  lemma KeptTextIsRest(items: seq<Item>, e: Ending)
    requires GoodLine(items, e)
    ensures FullArgs(Line(items, e)) ==
      if items == [] then "" else Spaces(items[0].spaces - 1) + Line(items[1..], e)
  {
    if items == [] {
      ScanEnding([], e);
    } else {
      var item, rest := items[0], Line(items[1..], e);
      assert item in items;
      ScanNewWord([], item.word, Spaces(item.spaces) + rest);
      ScanSpaces(WordRead([], item.word), item.spaces, rest);
      AfterFirst(WordText(item.word), item.spaces, rest);
    }
  }

  lemma AfterFirst(word: string, n: nat, rest: string)
    requires n > 0
    ensures (word + (Spaces(n) + rest))[|word| + 1..] == Spaces(n - 1) + rest
  {
    assert Spaces(n) == " " + Spaces(n - 1);
    Regroup(word, " ", Spaces(n - 1) + rest);
    assert Spaces(n) + rest == " " + (Spaces(n - 1) + rest);
  }

  // ----- Every line is written so -----

  // One more piece in front of the first word.
  function Led(p: Piece, items: seq<Item>, e: Ending): (seq<Item>, Ending) {
    if items == [] then ([], e.(word := [p] + e.word))
    else ([items[0].(word := [p] + items[0].word)] + items[1..], e)
  }

  lemma LedIsGood(p: Piece, items: seq<Item>, e: Ending)
    requires GoodPiece(p) && GoodLine(items, e)
    ensures GoodLine(Led(p, items, e).0, Led(p, items, e).1)
    ensures Line(Led(p, items, e).0, Led(p, items, e).1) == PieceText(p) + Line(items, e)
  {
    var word := if items == [] then e.word else items[0].word;
    assert items != [] ==> items[0] in items;
    assert ([p] + word)[1..] == word;
    if items == [] {
      Regroup(PieceText(p), WordText(word), OpenText(e));
    } else {
      assert ([items[0].(word := [p] + word)] + items[1..])[1..] == items[1..];
      Regroup(PieceText(p), WordText(word), Spaces(items[0].spaces) + Line(items[1..], e));
    }
  }

  lemma OneSpace(items: seq<Item>, e: Ending)
    requires GoodLine(items, e)
    ensures GoodLine([Item([], 1)] + items, e)
    ensures Line([Item([], 1)] + items, e) == " " + Line(items, e)
  {
    assert ([Item([], 1)] + items)[1..] == items;
    assert Spaces(1) == " ";
  }

  // What stands in quotes, up to the closing one or to the end.
  lemma {:induction false} MarksAreWritten(text: string) returns (marks: seq<Mark>, k: nat, dangling: bool)
    ensures forall m | m in marks :: GoodMark(m)
    ensures k <= |text| && text[..k] == MarksText(marks) + if dangling then "\\" else ""
    ensures if k < |text| then text[k] == '"' && !dangling else true
    decreases |text|
  {
    if text == "" || text[0] == '"' {
      return [], 0, false;
    }
    if text == "\\" {
      return [], 1, true;
    }
    var m := if text[0] == '\\' then Escaped(text[1]) else Plain(text[0]);
    var n := |MarkText(m)|;
    marks, k, dangling := MarksAreWritten(text[n..]);
    var tail := if dangling then "\\" else "";
    assert text[..k + n] == MarkText(m) + text[n..][..k];
    Regroup(MarkText(m), MarksText(marks), tail);
    assert ([m] + marks)[1..] == marks;
    marks, k := [m] + marks, k + n;
  }

  // So what is read from a line is determined for every line there is.
  lemma {:induction false} EveryLineIsWritten(text: string) returns (items: seq<Item>, e: Ending)
    ensures GoodLine(items, e) && Line(items, e) == text
    decreases |text|, 1
  {
    if text == "" {
      return [], Ending([], false, [], false);
    }
    assert text == [text[0]] + text[1..];
    if text == "\\" {
      return [], Ending([], false, [], true);
    } else if text[0] == '"' {
      items, e := QuotedIsWritten(text);
    } else if text[0] == ' ' {
      items, e := EveryLineIsWritten(text[1..]);
      OneSpace(items, e);
      items := [Item([], 1)] + items;
    } else {
      items, e := BareIsWritten(text);
    }
  }

  lemma {:induction false} BareIsWritten(text: string) returns (items: seq<Item>, e: Ending)
    requires text != "" && text[0] != '"' && text[0] != ' ' && text != "\\"
    ensures GoodLine(items, e) && Line(items, e) == text
    decreases |text|, 0
  {
    var m := if text[0] == '\\' then Escaped(text[1]) else Plain(text[0]);
    var n := |MarkText(m)|;
    items, e := EveryLineIsWritten(text[n..]);
    LedIsGood(Bare(m), items, e);
    assert text == MarkText(m) + text[n..];
    var led := Led(Bare(m), items, e);
    items, e := led.0, led.1;
  }

  lemma QuoteCloses(text: string, k: nat)
    requires k + 1 < |text| && text[0] == '"' && text[k + 1] == '"'
    ensures text == "\"" + (text[1..][..k] + "\"") + text[1..][k + 1..]
  {
  }

  lemma {:induction false} QuotedIsWritten(text: string) returns (items: seq<Item>, e: Ending)
    requires text != "" && text[0] == '"'
    ensures GoodLine(items, e) && Line(items, e) == text
    decreases |text|, 0
  {
    var rest := text[1..];
    var marks, k, dangling := MarksAreWritten(rest);
    if k == |rest| {
      items, e := [], Ending([], true, marks, dangling);
      assert rest[..k] == rest && text == "\"" + rest;
      assert "" + OpenText(e) == OpenText(e);
    } else {
      items, e := EveryLineIsWritten(rest[k + 1..]);
      LedIsGood(Quoted(marks), items, e);
      QuoteCloses(text, k);
      assert MarksText(marks) + "" == MarksText(marks);
      var led := Led(Quoted(marks), items, e);
      items, e := led.0, led.1;
    }
  }
}
