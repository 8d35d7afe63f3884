/** The rules that dazeus.plugin.sample.conf documents for the Parameters option, and exactly
    when the tokeniser of start_plugin (src/pluginmonitor.cpp) follows them.  Documented is that
    a backslash makes the next character literal, and that %s, %n and a doubled percent sign
    are replaced, all of it inside and outside quotes. */
module DocumentedParameters {
  import opened Common
  import opened Parameters

  // The documented tokeniser, between two characters.
  datatype DocScan = DocScan(scan: Scan, escape: bool)

  function Added(s: Scan, piece: string): Scan {
    s.(current := s.current + piece)
  }

  // A percent sign and what makes it special.
  predicate Special(text: string) {
    |text| > 1 && text[0] == '%' && text[1] in "%sn"
  }

  function Replacement(c: char, socket: string, network: string): string {
    if c == 's' then socket else if c == 'n' then network else "%"
  }

  function DocStep(d: DocScan, text: string, socket: string, network: string): (r: (DocScan, nat))
    requires text != []
    ensures 1 <= r.1 <= |text|
  {
    if d.escape then (DocScan(Added(d.scan, [text[0]]), false), 1)
    else if text[0] == '\\' then (DocScan(d.scan, true), 1)
    else if Special(text) then (DocScan(Added(d.scan, Replacement(text[1], socket, network)), false), 2)
    else
      var (next, used) := Step(d.scan, text, socket, network);
      (DocScan(next, false), used)
  }

  function DocScanned(d: DocScan, text: string, socket: string, network: string): DocScan
    decreases |text|
  {
    if text == [] then d
    else
      var (next, used) := DocStep(d, text, socket, network);
      DocScanned(next, text[used..], socket, network)
  }

  function Documented(text: string, socket: string, network: string): seq<string> {
    Flushed(DocScanned(DocScan(BEGIN, false), text, socket, network).scan).arguments
  }

  // Where a step of the code leaves the quotes, and how far it goes.
  function Turn(quote: Quote, text: string): (r: (Quote, nat))
    requires text != ""
    ensures 1 <= r.1 <= |text|
  {
    var (next, used) := Step(Scan([], "", quote), text, "", "");
    (next.quote, used)
  }

  // A special percent sign that the code takes literally: a doubled one, or any inside quotes.
  predicate Departs(quote: Quote, text: string) {
    Special(text) && (text[1] == '%' || quote != Unquoted)
  }

  // Whether the code, reading a text, ever stands at such a sign.
  predicate ReadsDeparture(quote: Quote, text: string)
    decreases |text|
  {
    && text != ""
    && (|| Departs(quote, text)
        || var (quote', used) := Turn(quote, text);
           ReadsDeparture(quote', text[used..]))
  }

  predicate Undisputed(quote: Quote, text: string) {
    '\\' !in text && !ReadsDeparture(quote, text)
  }

  // That does not depend on the values or on what was read before.
  lemma StepTurns(s: Scan, text: string, socket: string, network: string)
    requires text != ""
    ensures
      var (next, used) := Step(s, text, socket, network);
      (next.quote, used) == Turn(s.quote, text)
  {
  }

  lemma {:induction false} UndisputedIsDocumented(s: Scan, text: string, socket: string, network: string)
    requires Undisputed(s.quote, text)
    ensures DocScanned(DocScan(s, false), text, socket, network)
         == DocScan(Scanned(s, text, socket, network), false)
    decreases |text|
  {
    if text != "" {
      var (next, used) := Step(s, text, socket, network);
      StepTurns(s, text, socket, network);
      UndisputedIsDocumented(next, text[used..], socket, network);
    }
  }

  // ----- What the tokenisers make of a text, without the boundaries -----

  function Output(s: Scan): string {
    Concat(s.arguments) + s.current
  }

  lemma OutputOfFlushed(s: Scan)
    ensures Concat(Flushed(s).arguments) == Output(s) == Output(Flushed(s))
  {
    ConcatSnoc(s.arguments, s.current);
  }

  // What one step of the code adds.
  function Piece(quote: Quote, text: string, socket: string, network: string): string
    requires text != ""
  {
    var c := text[0];
    if quote != Unquoted then if Closes(quote, c) then "" else [c]
    else if c == '\'' || c == '"' || IsSpace(c) then ""
    else if Special(text) && text[1] != '%' then Replacement(text[1], socket, network)
    else [c]
  }

  function Made(quote: Quote, text: string, socket: string, network: string): string
    decreases |text|
  {
    if text == "" then ""
    else
      var (quote', used) := Turn(quote, text);
      Piece(quote, text, socket, network) + Made(quote', text[used..], socket, network)
  }

  function DocPiece(quote: Quote, escape: bool, text: string, socket: string, network: string): string
    requires text != ""
  {
    if escape then [text[0]]
    else if text[0] == '\\' then ""
    else if Special(text) then Replacement(text[1], socket, network)
    else Piece(quote, text, socket, network)
  }

  function DocTurn(quote: Quote, escape: bool, text: string): (r: (Quote, bool, nat))
    requires text != ""
    ensures 1 <= r.2 <= |text|
  {
    if escape then (quote, false, 1)
    else if text[0] == '\\' then (quote, true, 1)
    else if Special(text) then (quote, false, 2)
    else
      var (quote', used) := Turn(quote, text);
      (quote', false, used)
  }

  function DocMade(quote: Quote, escape: bool, text: string, socket: string, network: string): string
    decreases |text|
  {
    if text == "" then ""
    else
      var (quote', escape', used) := DocTurn(quote, escape, text);
      DocPiece(quote, escape, text, socket, network) + DocMade(quote', escape', text[used..], socket, network)
  }

  lemma StepAddsPiece(s: Scan, text: string, socket: string, network: string)
    requires text != ""
    ensures Output(Step(s, text, socket, network).0) == Output(s) + Piece(s.quote, text, socket, network)
  {
    var piece := Piece(s.quote, text, socket, network);
    OutputOfFlushed(s);
    ConcatSnoc(s.arguments, s.current);
    Regroup(Concat(s.arguments), s.current, piece);
    assert Output(s) + "" == Output(s);
  }

  lemma DocStepAddsPiece(d: DocScan, text: string, socket: string, network: string)
    requires text != ""
    ensures
      var (next, used) := DocStep(d, text, socket, network);
      && Output(next.scan) == Output(d.scan) + DocPiece(d.scan.quote, d.escape, text, socket, network)
      && (next.scan.quote, next.escape, used) == DocTurn(d.scan.quote, d.escape, text)
  {
    Regroup(Concat(d.scan.arguments), d.scan.current, DocPiece(d.scan.quote, d.escape, text, socket, network));
    if !d.escape && text[0] != '\\' && !Special(text) {
      StepTurns(d.scan, text, socket, network);
      StepAddsPiece(d.scan, text, socket, network);
    }
  }

  lemma {:induction false} ScannedMakes(s: Scan, text: string, socket: string, network: string)
    ensures Output(Scanned(s, text, socket, network)) == Output(s) + Made(s.quote, text, socket, network)
    decreases |text|
  {
    if text != "" {
      var (next, used) := Step(s, text, socket, network);
      StepTurns(s, text, socket, network);
      StepAddsPiece(s, text, socket, network);
      ScannedMakes(next, text[used..], socket, network);
      Regroup(Output(s), Piece(s.quote, text, socket, network), Made(next.quote, text[used..], socket, network));
    }
  }

  lemma {:induction false} DocScannedMakes(d: DocScan, text: string, socket: string, network: string)
    ensures Output(DocScanned(d, text, socket, network).scan)
         == Output(d.scan) + DocMade(d.scan.quote, d.escape, text, socket, network)
    decreases |text|
  {
    if text != "" {
      var (next, used) := DocStep(d, text, socket, network);
      DocStepAddsPiece(d, text, socket, network);
      DocScannedMakes(next, text[used..], socket, network);
      Regroup(Output(d.scan), DocPiece(d.scan.quote, d.escape, text, socket, network),
              DocMade(next.scan.quote, next.escape, text[used..], socket, network));
    }
  }

  lemma ArgumentsMake(text: string, socket: string, network: string)
    ensures Concat(Arguments(text, socket, network)) == Made(Unquoted, text, socket, network)
    ensures Concat(Documented(text, socket, network)) == DocMade(Unquoted, false, text, socket, network)
  {
    ScannedMakes(BEGIN, text, socket, network);
    DocScannedMakes(DocScan(BEGIN, false), text, socket, network);
    OutputOfFlushed(Scanned(BEGIN, text, socket, network));
    OutputOfFlushed(DocScanned(DocScan(BEGIN, false), text, socket, network).scan);
    assert Output(BEGIN) == "";
  }

  // ----- Counting -----

  function Count(c: char, s: string): nat {
    if s == "" then 0 else Count(c, s[..|s| - 1]) + if s[|s| - 1] == c then 1 else 0
  }

  lemma {:induction false} CountConcat(c: char, a: string, b: string)
    ensures Count(c, a + b) == Count(c, a) + Count(c, b)
  {
    if b == "" {
      assert a + b == a;
    } else {
      CountConcat(c, a, b[..|b| - 1]);
      assert (a + b)[..|a + b| - 1] == a + b[..|b| - 1];
    }
  }

  lemma CountSplit(c: char, text: string, k: nat)
    requires k <= |text|
    ensures Count(c, text) == Count(c, text[..k]) + Count(c, text[k..])
  {
    CountConcat(c, text[..k], text[k..]);
    assert text == text[..k] + text[k..];
  }

  lemma {:induction false} CountNone(c: char, s: string)
    requires c !in s
    ensures Count(c, s) == 0
  {
    if s != "" {
      CountNone(c, s[..|s| - 1]);
    }
  }

  lemma CountOne(c: char, d: char)
    ensures Count(c, [d]) == if c == d then 1 else 0
  {
    assert [d][..0] == "";
  }

  // A value that does not hold a character.
  predicate Without(c: char, socket: string, network: string) {
    c !in socket && c !in network
  }

  // ----- Backslashes -----

  // With values that have none, a step of the code keeps every backslash it reads.
  lemma PieceKeepsBackslashes(quote: Quote, text: string, socket: string, network: string)
    requires text != "" && Without('\\', socket, network)
    ensures Count('\\', Piece(quote, text, socket, network)) == Count('\\', text[..Turn(quote, text).1])
  {
    var used := Turn(quote, text).1;
    var piece := Piece(quote, text, socket, network);
    if used == 2 {
      assert text[..2] == [text[0], text[1]];
      CountNone('\\', text[..2]);
      CountNone('\\', piece);
    } else {
      assert text[..1] == [text[0]];
      CountOne('\\', text[0]);
      if piece == "" {
        CountNone('\\', text[..1]);
      }
    }
  }

  lemma {:induction false} MadeKeepsBackslashes(quote: Quote, text: string, socket: string, network: string)
    requires Without('\\', socket, network)
    ensures Count('\\', Made(quote, text, socket, network)) == Count('\\', text)
    decreases |text|
  {
    if text != "" {
      var (quote', used) := Turn(quote, text);
      PieceKeepsBackslashes(quote, text, socket, network);
      MadeKeepsBackslashes(quote', text[used..], socket, network);
      CountConcat('\\', Piece(quote, text, socket, network), Made(quote', text[used..], socket, network));
      CountSplit('\\', text, used);
    }
  }

  // No backslash of the option is ever dropped.
  lemma CodeKeepsBackslashes(text: string, socket: string, network: string)
    requires Without('\\', socket, network)
    ensures Count('\\', Concat(Arguments(text, socket, network))) == Count('\\', text)
  {
    ArgumentsMake(text, socket, network);
    MadeKeepsBackslashes(Unquoted, text, socket, network);
  }

  // The documented tokeniser keeps those it reads, but for those that begin an escape.
  lemma DocPieceBackslashes(quote: Quote, escape: bool, text: string, socket: string, network: string)
    requires text != "" && Without('\\', socket, network)
    ensures
      Count('\\', DocPiece(quote, escape, text, socket, network))
      + (if !escape && text[0] == '\\' then 1 else 0)
      == Count('\\', text[..DocTurn(quote, escape, text).2])
  {
    assert text[..1] == [text[0]];
    CountOne('\\', text[0]);
    if !escape && Special(text) {
      assert text[..2] == [text[0], text[1]];
      CountNone('\\', text[..2]);
      CountNone('\\', Replacement(text[1], socket, network));
    } else if !escape && text[0] != '\\' {
      PieceKeepsBackslashes(quote, text, socket, network);
    }
  }

  lemma NoEscapeYet(quote: Quote, text: string)
    requires text != "" && text[0] != '\\'
    ensures
      var (quote', escape', used) := DocTurn(quote, false, text);
      !escape' && ('\\' in text <==> '\\' in text[used..])
  {
    var used := DocTurn(quote, false, text).2;
    assert text[..1] == [text[0]] && text == text[..used] + text[used..];
    if used == 2 {
      assert text[..2] == [text[0], text[1]];
    }
  }

  // So it loses the first one.
  lemma {:induction false} DocumentedDropsBackslash(
      quote: Quote, escape: bool, text: string, socket: string, network: string)
    requires Without('\\', socket, network)
    ensures Count('\\', DocMade(quote, escape, text, socket, network)) <= Count('\\', text)
    ensures !escape && '\\' in text ==> Count('\\', DocMade(quote, escape, text, socket, network)) < Count('\\', text)
    decreases |text|
  {
    if text != "" {
      var (quote', escape', used) := DocTurn(quote, escape, text);
      DocPieceBackslashes(quote, escape, text, socket, network);
      DocumentedDropsBackslash(quote', escape', text[used..], socket, network);
      CountConcat('\\', DocPiece(quote, escape, text, socket, network),
                  DocMade(quote', escape', text[used..], socket, network));
      CountSplit('\\', text, used);
      if !escape && text[0] != '\\' {
        NoEscapeYet(quote, text);
      }
    }
  }

  // ----- Percent signs -----

  // One stride of both tokenisers, after which they are in step again: how far it goes, where
  // it leaves the quotes, and what each of them makes of it.
  datatype Stride = Stride(length: nat, quote: Quote, code: string, doc: string)

  // A doubled percent sign whose second one begins a placeholder for the code.
  predicate Overlapping(quote: Quote, text: string) {
    Departs(quote, text) && quote == Unquoted && Special(text[1..]) && text[2] != '%'
  }

  function NextStride(quote: Quote, text: string, socket: string, network: string): (r: Stride)
    requires text != ""
    ensures 1 <= r.length <= |text|
  {
    if Overlapping(quote, text) then
      Stride(3, quote, "%" + Replacement(text[2], socket, network), "%" + [text[2]])
    else if Departs(quote, text) then
      Stride(2, quote, text[..2], Replacement(text[1], socket, network))
    else
      var (quote', used) := Turn(quote, text);
      var piece := Piece(quote, text, socket, network);
      Stride(used, quote', piece, piece)
  }

  lemma InStep(quote: Quote, text: string, socket: string, network: string)
    requires text != "" && '\\' !in text
    ensures
      var r := NextStride(quote, text, socket, network);
      && Made(quote, text, socket, network) == r.code + Made(r.quote, text[r.length..], socket, network)
      && DocMade(quote, false, text, socket, network)
      == r.doc + DocMade(r.quote, false, text[r.length..], socket, network)
  {
    if Departs(quote, text) {
      CodeDeparts(quote, text, socket, network);
      DocDeparts(quote, text, socket, network);
    }
  }

  lemma CodeDeparts(quote: Quote, text: string, socket: string, network: string)
    requires Departs(quote, text)
    ensures
      var r := NextStride(quote, text, socket, network);
      Made(quote, text, socket, network) == r.code + Made(r.quote, text[r.length..], socket, network)
  {
    var r := NextStride(quote, text, socket, network);
    var first, second := text[..1], Piece(quote, text[1..], socket, network);
    assert first == [text[0]] && text[..2] == [text[0]] + [text[1]];
    assert text[1..][r.length - 1..] == text[r.length..];
    assert Piece(quote, text, socket, network) == first && Turn(quote, text) == (quote, 1);
    assert Turn(quote, text[1..]) == (quote, r.length - 1) && first + second == r.code;
    Regroup(first, second, Made(quote, text[r.length..], socket, network));
  }

  lemma DocDeparts(quote: Quote, text: string, socket: string, network: string)
    requires Departs(quote, text) && '\\' !in text
    ensures
      var r := NextStride(quote, text, socket, network);
      DocMade(quote, false, text, socket, network) == r.doc + DocMade(r.quote, false, text[r.length..], socket, network)
  {
    if Overlapping(quote, text) {
      assert text[2..][1..] == text[3..];
      assert DocTurn(quote, false, text[2..]) == (quote, false, 1);
      Regroup("%", [text[2]], DocMade(quote, false, text[3..], socket, network));
    }
  }

  // With values that have none, the code makes no fewer percent signs of it; more, if it
  // departs and does not go on with a placeholder.
  lemma StridePercents(quote: Quote, text: string, socket: string, network: string)
    requires text != "" && Without('%', socket, network)
    ensures
      var r := NextStride(quote, text, socket, network);
      && Count('%', r.code) >= Count('%', r.doc)
      && (Departs(quote, text) && !Overlapping(quote, text) ==> Count('%', r.code) > Count('%', r.doc))
  {
    var r := NextStride(quote, text, socket, network);
    CountOne('%', '%');
    if Overlapping(quote, text) {
      CountConcat('%', "%", Replacement(text[2], socket, network));
      CountConcat('%', "%", [text[2]]);
      CountNone('%', [text[2]]);
    } else if Departs(quote, text) {
      CountConcat('%', [text[0]], [text[1]]);
      assert text[..2] == [text[0]] + [text[1]];
      CountOne('%', text[1]);
      if text[1] != '%' {
        CountNone('%', r.doc);
      }
    }
  }

  lemma {:induction false} MadeKeepsPercents(quote: Quote, text: string, socket: string, network: string)
    requires '\\' !in text && Without('%', socket, network)
    ensures Count('%', Made(quote, text, socket, network)) >= Count('%', DocMade(quote, false, text, socket, network))
    decreases |text|
  {
    if text != "" {
      var r := NextStride(quote, text, socket, network);
      var rest := text[r.length..];
      InStep(quote, text, socket, network);
      StridePercents(quote, text, socket, network);
      MadeKeepsPercents(r.quote, rest, socket, network);
      CountConcat('%', r.code, Made(r.quote, rest, socket, network));
      CountConcat('%', r.doc, DocMade(r.quote, false, rest, socket, network));
    }
  }

  // Without backslashes, no fewer percent signs come out than documented.
  lemma CodeKeepsPercents(text: string, socket: string, network: string)
    requires '\\' !in text && Without('%', socket, network)
    ensures
      Count('%', Concat(Arguments(text, socket, network))) >= Count('%', Concat(Documented(text, socket, network)))
  {
    ArgumentsMake(text, socket, network);
    MadeKeepsPercents(Unquoted, text, socket, network);
  }

  // Two texts that are the same are so up to their first percent sign, and after it.
  lemma FirstPercent(x: string, y: string, a: string, b: string)
    requires '%' !in x && '%' !in y && x + ("%" + a) == y + ("%" + b)
    ensures x == y && a == b
  {
    var s := x + ("%" + a);
    assert s[|x|] == '%' && s[|y|] == '%';
    assert s[..|x|] == x && s[..|y|] == y;
    assert s[|x| + 1..] == a && s[|y| + 1..] == b;
  }

  // What both make of a stride in step is a percent sign, or has none.
  lemma PieceAndPercent(quote: Quote, text: string, socket: string, network: string)
    requires text != "" && Without('%', socket, network) && !Departs(quote, text)
    ensures
      var piece := Piece(quote, text, socket, network);
      piece == "%" || '%' !in piece
  {
  }

  // Values other than the letter the documentation leaves of %%s or %%n, after the sign.
  predicate Telling(socket: string, network: string) {
    socket != "s" && network != "n"
  }

  // If both make the same of a text, whatever may be left over from before, nothing in it
  // is disputed: between two percent signs each text can be told apart.
  lemma {:induction false} SameIsUndisputed(
      x: string, y: string, quote: Quote, text: string, socket: string, network: string)
    requires '\\' !in text && Without('%', socket, network) && Telling(socket, network) && '%' !in x && '%' !in y
    requires x + Made(quote, text, socket, network) == y + DocMade(quote, false, text, socket, network)
    ensures x == y && !ReadsDeparture(quote, text)
    decreases |text|
  {
    if text == "" {
      assert x + "" == x && y + "" == y;
    } else {
      var r := NextStride(quote, text, socket, network);
      var rest := text[r.length..];
      var a, b := Made(r.quote, rest, socket, network), DocMade(r.quote, false, rest, socket, network);
      InStep(quote, text, socket, network);
      if Overlapping(quote, text) {
        var v, w := Replacement(text[2], socket, network), [text[2]];
        Regroup("%", v, a);
        Regroup("%", w, b);
        FirstPercent(x, y, v + a, w + b);
        SameIsUndisputed(v, w, r.quote, rest, socket, network);
      } else if Departs(quote, text) {
        SameCount(x, y, r.code + a, r.doc + b);
        StridePercents(quote, text, socket, network);
        MadeKeepsPercents(r.quote, rest, socket, network);
        CountConcat('%', r.code, a);
        CountConcat('%', r.doc, b);
      } else {
        SameStride(x, y, quote, text, socket, network);
      }
    }
  }

  lemma SameCount(x: string, y: string, a: string, b: string)
    requires '%' !in x && '%' !in y && x + a == y + b
    ensures Count('%', a) == Count('%', b)
  {
    CountNone('%', x);
    CountNone('%', y);
    CountConcat('%', x, a);
    CountConcat('%', y, b);
  }

  lemma {:induction false} SameStride(
      x: string, y: string, quote: Quote, text: string, socket: string, network: string)
    requires '\\' !in text && Without('%', socket, network) && Telling(socket, network) && '%' !in x && '%' !in y
    requires text != "" && !Departs(quote, text)
    requires x + Made(quote, text, socket, network) == y + DocMade(quote, false, text, socket, network)
    ensures x == y && !ReadsDeparture(quote, text)
    decreases |text|, 0
  {
    var piece := Piece(quote, text, socket, network);
    var (quote', used) := Turn(quote, text);
    var a, b := Made(quote', text[used..], socket, network), DocMade(quote', false, text[used..], socket, network);
    InStep(quote, text, socket, network);
    PieceAndPercent(quote, text, socket, network);
    if piece == "%" {
      FirstPercent(x, y, a, b);
      assert "" + a == "" + b;
      SameIsUndisputed("", "", quote', text[used..], socket, network);
    } else {
      Regroup(x, piece, a);
      Regroup(y, piece, b);
      SameIsUndisputed(x + piece, y + piece, quote', text[used..], socket, network);
      assert (x + piece)[..|x + piece| - |piece|] == x && (y + piece)[..|y + piece| - |piece|] == y;
    }
  }

  // ----- When the documentation is right -----

  // For any values without backslashes and percent signs, other than the letters s and n
  // themselves, the arguments are the documented ones if and only if nothing is disputed.
  lemma DocumentedFor(text: string, socket: string, network: string)
    requires Without('\\', socket, network) && Without('%', socket, network) && Telling(socket, network)
    ensures Arguments(text, socket, network) == Documented(text, socket, network) <==> Undisputed(Unquoted, text)
  {
    ArgumentsMake(text, socket, network);
    if Undisputed(Unquoted, text) {
      UndisputedIsDocumented(BEGIN, text, socket, network);
    } else if '\\' in text {
      CodeKeepsBackslashes(text, socket, network);
      DocumentedDropsBackslash(Unquoted, false, text, socket, network);
    } else if Arguments(text, socket, network) == Documented(text, socket, network) {
      SameIsUndisputed("", "", Unquoted, text, socket, network);
    }
  }

  // So the option means what is documented, whatever the values, under the same condition.
  lemma DocumentedExactly(text: string)
    ensures
      (forall socket, network :: Arguments(text, socket, network) == Documented(text, socket, network)) <==>
      Undisputed(Unquoted, text)
  {
    if Undisputed(Unquoted, text) {
      forall socket, network {
        UndisputedIsDocumented(BEGIN, text, socket, network);
      }
    } else {
      DocumentedFor(text, "", "");
    }
  }

  lemma DocumentedPercent(socket: string, network: string)
    ensures Documented("%%", socket, network) == ["%"] == Documented("\\%", socket, network)
  {
    assert "%%"[2..] == "" && "\\%"[1..] == "%" && "%"[1..] == "";
    assert BEGIN.current + "%" == "%";
  }

  lemma QuotedPlaceholder(socket: string, network: string)
    ensures Arguments("\"%s\"", socket, network) == ["%s"]
  {
    var open := Scan([], "", Double);
    assert "\"%s\""[1..] == "%s\"" == "%s" + "\"" && "\""[1..] == "";
    assert open.current + "%s" == "%s";
    ScanQuotedBody(open, "%s", "\"", socket, network);
  }

  lemma DocumentedPlaceholder(socket: string, network: string)
    ensures Documented("\"%s\"", socket, network) == [socket]
  {
    var open := Scan([], "", Double);
    assert "\"%s\""[1..] == "%s\"" && "%s\""[2..] == "\"" && "\""[1..] == "";
    assert "" + socket == socket;
    assert DocScanned(DocScan(BEGIN, false), "\"%s\"", socket, network)
        == DocScanned(DocScan(open, false), "%s\"", socket, network)
        == DocScanned(DocScan(open.(current := socket), false), "\"", socket, network);
  }

  // Three options for which it fails.
  lemma NotAsDocumented(socket: string, network: string)
    ensures Arguments("%%", socket, network) == ["%%"] != ["%"] == Documented("%%", socket, network)
    ensures Arguments("\\%", socket, network) == ["\\%"] != ["%"] == Documented("\\%", socket, network)
    ensures Arguments("\"%s\"", socket, network) == ["%s"] && Documented("\"%s\"", socket, network) == [socket]
    ensures socket != "%s" ==> Arguments("\"%s\"", socket, network) != Documented("\"%s\"", socket, network)
  {
    OrdinaryTextIsVerbatim("%%", socket, network);
    OrdinaryTextIsVerbatim("\\%", socket, network);
    DocumentedPercent(socket, network);
    QuotedPlaceholder(socket, network);
    DocumentedPlaceholder(socket, network);
  }
}
