/** The tokeniser of a plugin's Parameters option, with %s and %n substitution
    (start_plugin in src/pluginmonitor.cpp). */
module Parameters {
  import opened Common

  // isspace in the C locale.
  predicate IsSpace(c: char) {
    c == ' ' || ('\t' <= c <= '\r')
  }

  datatype Quote = Unquoted | Single | Double

  // The tokeniser between two characters: what it has produced and what it is in.
  datatype Scan = Scan(arguments: seq<string>, current: string, quote: Quote)

  const BEGIN := Scan([], "", Unquoted)

  predicate Closes(quote: Quote, c: char) {
    (quote == Single && c == '\'') || (quote == Double && c == '"')
  }

  function Flushed(s: Scan): Scan {
    if |s.current| > 0 then s.(arguments := s.arguments + [s.current], current := "") else s
  }

  // How many characters a step consumes, and the state after it.  The third character of
  // the source's state, in_escape, is never set there and so has no place here.
  function Step(s: Scan, text: string, socket: string, network: string): (r: (Scan, nat))
    requires text != []
    ensures 1 <= r.1 <= |text|
  {
    var c := text[0];
    if s.quote != Unquoted then
      if Closes(s.quote, c) then
        (Scan(s.arguments + [s.current], "", Unquoted), 1)
      else
        (s.(current := s.current + [c]), 1)
    else if c == '\'' then (s.(quote := Single), 1)
    else if c == '"' then (s.(quote := Double), 1)
    else if IsSpace(c) then (Flushed(s), 1)
    else if c == '%' && |text| > 1 && text[1] == 's' then (s.(current := s.current + socket), 2)
    else if c == '%' && |text| > 1 && text[1] == 'n' then (s.(current := s.current + network), 2)
    else (s.(current := s.current + [c]), 1)
  }

  function Scanned(s: Scan, text: string, socket: string, network: string): Scan
    decreases |text|
  {
    if text == [] then s
    else
      var (next, used) := Step(s, text, socket, network);
      Scanned(next, text[used..], socket, network)
  }

  function Arguments(text: string, socket: string, network: string): seq<string> {
    Flushed(Scanned(BEGIN, text, socket, network)).arguments
  }

  // The loop of start_plugin.
  method Tokenise(parameters: string, socket: string, network: string) returns (arguments: seq<string>)
    ensures arguments == Arguments(parameters, socket, network)
  {
    arguments := [];
    var currentArg := "";
    var inQuotes, inDoubleQuotes, inEscape := false, false, false;
    var i := 0;
    while i < |parameters|
      invariant i <= |parameters| && !inEscape && !(inQuotes && inDoubleQuotes)
      invariant
        var quote := if inQuotes then Single else if inDoubleQuotes then Double else Unquoted;
        Scanned(BEGIN, parameters, socket, network)
        == Scanned(Scan(arguments, currentArg, quote), parameters[i..], socket, network)
    {
      ghost var rest := parameters[i..];
      assert rest[1..] == parameters[i + 1..];
      assert |rest| > 1 ==> rest[2..] == parameters[i + 2..];
      var c := parameters[i];
      if inEscape {
        currentArg := currentArg + [c];
        inEscape := false;
      } else if inQuotes || inDoubleQuotes {
        if (inQuotes && c == '\'') || (inDoubleQuotes && c == '"') {
          inQuotes, inDoubleQuotes := false, false;
          arguments := arguments + [currentArg];
          currentArg := "";
        } else {
          currentArg := currentArg + [c];
        }
      } else if c == '\'' {
        inQuotes := true;
      } else if c == '"' {
        inDoubleQuotes := true;
      } else if IsSpace(c) {
        if |currentArg| > 0 {
          arguments := arguments + [currentArg];
          currentArg := "";
        }
      } else if c == '%' {
        if i + 1 == |parameters| {
          currentArg := currentArg + "%";
        } else {
          var d := parameters[i + 1];
          if d == 's' {
            currentArg := currentArg + socket;
            i := i + 1;
          } else if d == 'n' {
            currentArg := currentArg + network;
            i := i + 1;
          } else {
            currentArg := currentArg + "%";
          }
        }
      } else {
        currentArg := currentArg + [c];
      }
      i := i + 1;
    }
    if |currentArg| > 0 {
      arguments := arguments + [currentArg];
    }
  }

  // ----- Substitution never splits -----

  datatype Piece = Literal(c: char) | Socket | Network

  // An argument before substitution.  Quotes keep an argument even when it is empty.
  datatype Word = Word(pieces: seq<Piece>, quoted: bool)

  datatype WordScan = WordScan(words: seq<Word>, current: seq<Piece>, quote: Quote)

  const BEGIN_WORDS := WordScan([], [], Unquoted)

  function EndWord(s: WordScan): WordScan {
    if |s.current| > 0 then s.(words := s.words + [Word(s.current, false)], current := []) else s
  }

  // Tokenising alone: placeholders stay placeholders.
  function WordStep(s: WordScan, text: string): (r: (WordScan, nat))
    requires text != []
    ensures 1 <= r.1 <= |text|
  {
    var c := text[0];
    if s.quote != Unquoted then
      if Closes(s.quote, c) then
        (WordScan(s.words + [Word(s.current, true)], [], Unquoted), 1)
      else
        (s.(current := s.current + [Literal(c)]), 1)
    else if c == '\'' then (s.(quote := Single), 1)
    else if c == '"' then (s.(quote := Double), 1)
    else if IsSpace(c) then (EndWord(s), 1)
    else if c == '%' && |text| > 1 && text[1] == 's' then (s.(current := s.current + [Socket]), 2)
    else if c == '%' && |text| > 1 && text[1] == 'n' then (s.(current := s.current + [Network]), 2)
    else (s.(current := s.current + [Literal(c)]), 1)
  }

  function WordsScanned(s: WordScan, text: string): WordScan
    decreases |text|
  {
    if text == [] then s
    else
      var (next, used) := WordStep(s, text);
      WordsScanned(next, text[used..])
  }

  function Words(text: string): seq<Word> {
    EndWord(WordsScanned(BEGIN_WORDS, text)).words
  }

  function Value(p: Piece, socket: string, network: string): string {
    match p
    case Literal(c) => [c]
    case Socket => socket
    case Network => network
  }

  function Expand(pieces: seq<Piece>, socket: string, network: string): string {
    if pieces == [] then ""
    else Expand(pieces[..|pieces| - 1], socket, network) + Value(pieces[|pieces| - 1], socket, network)
  }

  // An argument that substitution empties and no quotes keep.
  predicate Vanishes(w: Word, socket: string, network: string) {
    && !w.quoted
    && forall i | 0 <= i < |w.pieces| :: !w.pieces[i].Literal? && Value(w.pieces[i], socket, network) == ""
  }

  function Kept(words: seq<Word>, socket: string, network: string): seq<string> {
    if words == [] then []
    else
      var n := |words| - 1;
      var w := words[n];
      Kept(words[..n], socket, network) +
      if Vanishes(w, socket, network) then [] else [Expand(w.pieces, socket, network)]
  }

  function ExpandAll(words: seq<Word>, socket: string, network: string): seq<string> {
    seq(|words|, i requires 0 <= i < |words| => Expand(words[i].pieces, socket, network))
  }

  lemma {:induction false} EmptyExpansion(pieces: seq<Piece>, socket: string, network: string)
    ensures Expand(pieces, socket, network) == "" <==> Vanishes(Word(pieces, false), socket, network)
  {
    if pieces != [] {
      var n := |pieces| - 1;
      EmptyExpansion(pieces[..n], socket, network);
      if Vanishes(Word(pieces[..n], false), socket, network)
         && !pieces[n].Literal? && Value(pieces[n], socket, network) == "" {
        assert forall i | 0 <= i < n :: pieces[i] == pieces[..n][i];
      }
      if Vanishes(Word(pieces, false), socket, network) {
        assert forall i | 0 <= i < n :: pieces[..n][i] == pieces[i];
      }
    }
  }

  predicate Matches(s: Scan, w: WordScan, socket: string, network: string) {
    && s.arguments == Kept(w.words, socket, network)
    && s.current == Expand(w.current, socket, network)
    && s.quote == w.quote
  }

  lemma KeptSnoc(words: seq<Word>, w: Word, socket: string, network: string)
    ensures Kept(words + [w], socket, network) ==
      Kept(words, socket, network) + if Vanishes(w, socket, network) then [] else [Expand(w.pieces, socket, network)]
  {
    assert (words + [w])[..|words|] == words;
  }

  lemma ExpandSnoc(pieces: seq<Piece>, p: Piece, socket: string, network: string)
    ensures Expand(pieces + [p], socket, network) == Expand(pieces, socket, network) + Value(p, socket, network)
  {
    assert (pieces + [p])[..|pieces|] == pieces;
  }

  lemma FlushMatches(s: Scan, w: WordScan, socket: string, network: string)
    requires Matches(s, w, socket, network)
    ensures Matches(Flushed(s), EndWord(w), socket, network)
  {
    EmptyExpansion(w.current, socket, network);
    KeptSnoc(w.words, Word(w.current, false), socket, network);
  }

  lemma StepMatches(s: Scan, w: WordScan, text: string, socket: string, network: string)
    requires Matches(s, w, socket, network) && text != []
    ensures Matches(Step(s, text, socket, network).0, WordStep(w, text).0, socket, network)
    ensures Step(s, text, socket, network).1 == WordStep(w, text).1
  {
    var c := text[0];
    if s.quote != Unquoted {
      if Closes(s.quote, c) {
        KeptSnoc(w.words, Word(w.current, true), socket, network);
      } else {
        ExpandSnoc(w.current, Literal(c), socket, network);
      }
    } else if c == '\'' || c == '"' {
    } else if IsSpace(c) {
      FlushMatches(s, w, socket, network);
    } else if c == '%' && |text| > 1 && text[1] == 's' {
      ExpandSnoc(w.current, Socket, socket, network);
    } else if c == '%' && |text| > 1 && text[1] == 'n' {
      ExpandSnoc(w.current, Network, socket, network);
    } else {
      ExpandSnoc(w.current, Literal(c), socket, network);
    }
  }

  lemma {:induction false} ScanMatches(s: Scan, w: WordScan, text: string, socket: string, network: string)
    requires Matches(s, w, socket, network)
    ensures Matches(Scanned(s, text, socket, network), WordsScanned(w, text), socket, network)
    decreases |text|
  {
    if text != [] {
      StepMatches(s, w, text, socket, network);
      ScanMatches(Step(s, text, socket, network).0, WordStep(w, text).0, text[WordStep(w, text).1..], socket, network);
    }
  }

  // For all inputs: substituting while tokenising gives what tokenising first and
  // substituting afterwards gives, less the unquoted arguments that came out empty.
  lemma DirectIsExpandAndKeep(text: string, socket: string, network: string)
    ensures Arguments(text, socket, network) == Kept(Words(text), socket, network)
  {
    ScanMatches(BEGIN, BEGIN_WORDS, text, socket, network);
    FlushMatches(Scanned(BEGIN, text, socket, network), WordsScanned(BEGIN_WORDS, text), socket, network);
  }

  lemma {:induction false} KeptIsShorter(words: seq<Word>, socket: string, network: string)
    ensures |Kept(words, socket, network)| <= |words|
  {
    if words != [] {
      KeptIsShorter(words[..|words| - 1], socket, network);
    }
  }

  lemma {:induction false} KeptAll(words: seq<Word>, socket: string, network: string)
    ensures Kept(words, socket, network) == ExpandAll(words, socket, network) <==>
      forall w | w in words :: !Vanishes(w, socket, network)
  {
    if words != [] {
      var n := |words| - 1;
      var w, rest := words[n], words[..n];
      KeptAll(rest, socket, network);
      KeptIsShorter(rest, socket, network);
      var x := Expand(w.pieces, socket, network);
      assert ExpandAll(words, socket, network) == ExpandAll(rest, socket, network) + [x];
      assert words == rest + [w];
      if !Vanishes(w, socket, network) {
        var k, e := Kept(rest, socket, network), ExpandAll(rest, socket, network);
        assert k + [x] == e + [x] ==> (k + [x])[..|k|] == k && (e + [x])[..|e|] == e;
      }
    }
  }

  // So nothing is lost exactly when no unquoted argument vanishes.
  lemma DirectIsExpandExactly(text: string, socket: string, network: string)
    ensures Arguments(text, socket, network) == ExpandAll(Words(text), socket, network) <==>
      forall w | w in Words(text) :: !Vanishes(w, socket, network)
  {
    DirectIsExpandAndKeep(text, socket, network);
    KeptAll(Words(text), socket, network);
  }

  predicate Substantial(words: seq<Word>) {
    forall w | w in words :: !w.quoted ==> w.pieces != []
  }

  lemma {:induction false} WordsAreSubstantial(s: WordScan, text: string)
    requires Substantial(s.words)
    ensures Substantial(WordsScanned(s, text).words)
    decreases |text|
  {
    if text != [] {
      WordsAreSubstantial(WordStep(s, text).0, text[WordStep(s, text).1..]);
    }
  }

  // With non-empty values the number of arguments, and what each is made of, depends on
  // the option alone, whatever spaces or quotes the values contain.
  lemma SubstitutionNeverSplits(text: string, socket: string, network: string)
    requires socket != "" && network != ""
    ensures Arguments(text, socket, network) == ExpandAll(Words(text), socket, network)
  {
    WordsAreSubstantial(BEGIN_WORDS, text);
    assert Substantial(Words(text));
    forall w | w in Words(text) ensures !Vanishes(w, socket, network) {
      if !w.quoted {
        assert w.pieces[0].Literal? || Value(w.pieces[0], socket, network) != "";
      }
    }
    DirectIsExpandExactly(text, socket, network);
  }

  // ----- Quoting round trip -----

  predicate Quotable(argument: string) {
    '\'' !in argument || '"' !in argument
  }

  function Quoted(argument: string): string {
    if '\'' !in argument then "'" + argument + "'" else "\"" + argument + "\""
  }

  function Rendered(arguments: seq<string>): string {
    if arguments == [] then "" else Quoted(arguments[0]) + " " + Rendered(arguments[1..])
  }

  lemma {:induction false} ScanQuotedBody(s: Scan, body: string, rest: string, socket: string, network: string)
    requires s.quote != Unquoted
    requires forall i | 0 <= i < |body| :: !Closes(s.quote, body[i])
    ensures Scanned(s, body + rest, socket, network)
         == Scanned(s.(current := s.current + body), rest, socket, network)
    decreases |body|
  {
    if body == [] {
      assert body + rest == rest && s.current + body == s.current;
    } else {
      assert (body + rest)[1..] == body[1..] + rest;
      assert s.current + [body[0]] + body[1..] == s.current + body;
      ScanQuotedBody(s.(current := s.current + [body[0]]), body[1..], rest, socket, network);
    }
  }

  // The closing quote and the space after it.
  lemma ScanClosing(s: Scan, mark: char, rest: string, socket: string, network: string)
    requires Closes(s.quote, mark)
    ensures Scanned(s, [mark, ' '] + rest, socket, network)
         == Scanned(Scan(s.arguments + [s.current], "", Unquoted), rest, socket, network)
  {
    var text := [mark, ' '] + rest;
    assert text[1..] == [' '] + rest;
    assert text[1..][1..] == rest;
  }

  lemma ScanQuotedWith(done: seq<string>, argument: string, mark: char, rest: string, socket: string, network: string)
    requires (mark == '\'' || mark == '"') && mark !in argument
    ensures Scanned(Scan(done, "", Unquoted), [mark] + (argument + ([mark, ' '] + rest)), socket, network)
         == Scanned(Scan(done + [argument], "", Unquoted), rest, socket, network)
  {
    var open := Scan(done, "", if mark == '\'' then Single else Double);
    var tail := [mark, ' '] + rest;
    assert ([mark] + (argument + tail))[1..] == argument + tail;
    ScanQuotedBody(open, argument, tail, socket, network);
    assert open.current + argument == argument;
    ScanClosing(open.(current := argument), mark, rest, socket, network);
  }

  lemma QuotedAndMore(argument: string, mark: char, rest: string)
    requires mark == if '\'' !in argument then '\'' else '"'
    ensures Quoted(argument) + " " + rest == [mark] + (argument + ([mark, ' '] + rest))
  {
    assert Quoted(argument) == [mark] + argument + [mark];
    Regroup([mark] + argument + [mark], " ", rest);
    Regroup([mark] + argument, [mark], " " + rest);
    Regroup([mark], argument, [mark] + (" " + rest));
    assert [mark] + (" " + rest) == [mark, ' '] + rest;
  }

  lemma ScanQuoted(done: seq<string>, argument: string, rest: string, socket: string, network: string)
    requires Quotable(argument)
    ensures Scanned(Scan(done, "", Unquoted), Quoted(argument) + " " + rest, socket, network)
         == Scanned(Scan(done + [argument], "", Unquoted), rest, socket, network)
  {
    var mark := if '\'' !in argument then '\'' else '"';
    ScanQuotedWith(done, argument, mark, rest, socket, network);
    QuotedAndMore(argument, mark, rest);
  }

  lemma {:induction false} ScanRendered(done: seq<string>, arguments: seq<string>, socket: string, network: string)
    requires forall a | a in arguments :: Quotable(a)
    ensures Scanned(Scan(done, "", Unquoted), Rendered(arguments), socket, network)
         == Scan(done + arguments, "", Unquoted)
    decreases |arguments|
  {
    if arguments == [] {
      assert done + arguments == done;
    } else {
      ScanQuoted(done, arguments[0], Rendered(arguments[1..]), socket, network);
      ScanRendered(done + [arguments[0]], arguments[1..], socket, network);
      FirstMoved(done, arguments);
    }
  }

  lemma QuotingRoundTrip(arguments: seq<string>, socket: string, network: string)
    requires forall a | a in arguments :: Quotable(a)
    ensures Arguments(Rendered(arguments), socket, network) == arguments
  {
    ScanRendered([], arguments, socket, network);
    assert [] + arguments == arguments;
    assert Flushed(Scan(arguments, "", Unquoted)).arguments == arguments;
  }

  // ----- What cannot be written -----

  predicate Plain(s: string) {
    '\'' !in s && '"' !in s
  }

  predicate QuotableScan(s: Scan) {
    && (forall a | a in s.arguments :: Quotable(a))
    && match s.quote
       case Unquoted => Plain(s.current)
       case Single => '\'' !in s.current
       case Double => '"' !in s.current
  }

  lemma {:induction false} ScansAreQuotable(s: Scan, text: string, socket: string, network: string)
    requires QuotableScan(s) && Plain(socket) && Plain(network)
    ensures QuotableScan(Scanned(s, text, socket, network))
    decreases |text|
  {
    if text != [] {
      var (next, used) := Step(s, text, socket, network);
      ScansAreQuotable(next, text[used..], socket, network);
    }
  }

  // With plain values a list of arguments can be written as a Parameters option exactly
  // if no argument contains both kinds of quote.
  lemma ExpressibleExactly(arguments: seq<string>, socket: string, network: string)
    requires Plain(socket) && Plain(network)
    ensures (exists text :: Arguments(text, socket, network) == arguments) <==>
      forall a | a in arguments :: Quotable(a)
  {
    forall text ensures forall a | a in Arguments(text, socket, network) :: Quotable(a) {
      ScansAreQuotable(BEGIN, text, socket, network);
    }
    if forall a | a in arguments :: Quotable(a) {
      QuotingRoundTrip(arguments, socket, network);
    }
  }

  // ----- What is taken literally -----

  predicate Ordinary(text: string) {
    && Plain(text)
    && (forall i | 0 <= i < |text| :: !IsSpace(text[i]))
    && (forall i | 0 <= i < |text| - 1 :: text[i] == '%' ==> text[i + 1] != 's' && text[i + 1] != 'n')
  }

  lemma {:induction false} ScanOrdinary(s: Scan, text: string, socket: string, network: string)
    requires Ordinary(text) && s.quote == Unquoted
    ensures Scanned(s, text, socket, network) == s.(current := s.current + text)
    decreases |text|
  {
    if text == [] {
      assert s.current + text == s.current;
    } else {
      assert Ordinary(text[1..]) by {
        assert forall i | 0 <= i < |text| - 1 :: text[1..][i] == text[i + 1];
      }
      ScanOrdinary(s.(current := s.current + [text[0]]), text[1..], socket, network);
      assert s.current + [text[0]] + text[1..] == s.current + text;
    }
  }

  // Backslashes and doubled percent signs have no special meaning: any text without
  // quotes, white space and placeholders is one argument as it stands.
  lemma OrdinaryTextIsVerbatim(text: string, socket: string, network: string)
    requires Ordinary(text) && text != ""
    ensures Arguments(text, socket, network) == [text]
  {
    ScanOrdinary(BEGIN, text, socket, network);
    assert "" + text == text;
  }
}
