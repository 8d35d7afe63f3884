/** How an IRC message addressed to the bot is split into a command and its arguments
    (messageReceived in src/plugincomm.cpp). */
module CommandLine {

  // The tokeniser between two characters.
  datatype Scan = Scan(args: seq<string>, word: string, inQuote: bool, hadQuotes: bool, inEscape: bool)

  const BEGIN := Fresh([])

  function Fresh(args: seq<string>): Scan {
    Scan(args, "", false, false, false)
  }

  // A word is finished unless it is empty and had no quotes.
  function Finish(s: Scan): seq<string> {
    if |s.word| != 0 || s.hadQuotes then s.args + [s.word] else s.args
  }

  // Whether a character ends a word: an unquoted, unescaped space.
  predicate Separates(s: Scan, c: char) {
    !s.inEscape && !s.inQuote && c == ' '
  }

  function Step(s: Scan, c: char): Scan {
    if s.inEscape then s.(inEscape := false, word := s.word + [c])
    else if c == '\\' then s.(inEscape := true)
    else if Separates(s, c) then Fresh(Finish(s))
    else if c == '"' then s.(inQuote := !s.inQuote, hadQuotes := true)
    else s.(word := s.word + [c])
  }

  function Scanned(s: Scan, text: string): Scan
    decreases |text|
  {
    if text == [] then s else Scanned(Step(s, text[0]), text[1..])
  }

  // All words of a text; the first is the command.
  function Words(text: string): seq<string> {
    Finish(Scanned(BEGIN, text))
  }

  // Where the first word ends, |text| if it never does.
  function WordEnd(s: Scan, text: string): (k: nat)
    ensures k <= |text|
    decreases |text|
  {
    if text == [] then 0
    else if Separates(s, text[0]) then 0
    else 1 + WordEnd(Step(s, text[0]), text[1..])
  }

  // What follows the first unquoted, unescaped space.
  function Remainder(s: Scan, text: string): string {
    var k := WordEnd(s, text);
    if k < |text| then text[k + 1..] else ""
  }

  function FullArgs(text: string): string {
    Remainder(BEGIN, text)
  }

  // The loop of messageReceived, which builds both results in one pass.
  method Tokenise(payload: string) returns (args: seq<string>, fullArgs: string)
    ensures args == Words(payload)
    ensures fullArgs == FullArgs(payload)
  {
    var inQuoteArg, hadQuotesThisArg, inEscape, hasCommand := false, false, false, false;
    var stringBuilder := "";
    args, fullArgs := [], "";
    ghost var now := BEGIN;
    var i := 0;
    while i < |payload|
      invariant i <= |payload|
      invariant now == Scan(args, stringBuilder, inQuoteArg, hadQuotesThisArg, inEscape)
      invariant Scanned(BEGIN, payload) == Scanned(now, payload[i..])
      invariant !hasCommand ==> fullArgs == "" && FullArgs(payload) == Remainder(now, payload[i..])
      invariant hasCommand ==> FullArgs(payload) == fullArgs + payload[i..]
    {
      var c := payload[i];
      ScanNext(now, payload, i);
      now := Step(now, c);
      if hasCommand {
        assert fullArgs + payload[i..] == fullArgs + [c] + payload[i + 1..];
        fullArgs := fullArgs + [c];
      }
      if inEscape {
        inEscape := false;
        stringBuilder := stringBuilder + [c];
      } else if c == '\\' {
        inEscape := true;
      } else if !inQuoteArg && c == ' ' {
        // finish this word, unless it is empty and had no quotes
        if |stringBuilder| != 0 || hadQuotesThisArg {
          args := args + [stringBuilder];
        }
        stringBuilder := "";
        hasCommand := true;
        hadQuotesThisArg := false;
      } else if c == '"' {
        inQuoteArg := !inQuoteArg;
        hadQuotesThisArg := true;
      } else {
        stringBuilder := stringBuilder + [c];
      }
      i := i + 1;
    }
    if |stringBuilder| != 0 || hadQuotesThisArg {
      args := args + [stringBuilder];
    }
  }

  lemma ScanNext(s: Scan, text: string, i: nat)
    requires i < |text|
    ensures Scanned(s, text[i..]) == Scanned(Step(s, text[i]), text[i + 1..])
    ensures Remainder(s, text[i..])
         == if Separates(s, text[i]) then text[i + 1..] else Remainder(Step(s, text[i]), text[i + 1..])
  {
    assert text[i..][1..] == text[i + 1..];
  }

  // ----- The suffix law -----

  // Words already finished do not influence the scan of what follows.
  lemma {:induction false} ScanKeepsArgs(args: seq<string>, s: Scan, text: string)
    ensures Scanned(s.(args := args + s.args), text)
         == Scanned(s, text).(args := args + Scanned(s, text).args)
    decreases |text|
  {
    if text != [] {
      var t := Step(s, text[0]);
      assert args + (s.args + [s.word]) == args + s.args + [s.word];
      assert Step(s.(args := args + s.args), text[0]) == t.(args := args + t.args);
      ScanKeepsArgs(args, t, text[1..]);
    }
  }

  lemma WordsAfter(args: seq<string>, text: string)
    ensures Finish(Scanned(Fresh(args), text)) == args + Words(text)
  {
    ScanKeepsArgs(args, BEGIN, text);
    assert args + [] == args;
  }

  // A word that has begun: it will be kept when it ends.
  predicate Begun(s: Scan) {
    |s.word| != 0 || s.hadQuotes || s.inEscape
  }

  // Scanning a word that has begun up to the space that ends it, or to the end.
  lemma {:induction false} ScanFirstWord(s: Scan, text: string)
    requires Begun(s) && s.args == []
    ensures WordEnd(s, text) < |text| ==>
      exists w :: Scanned(s, text) == Scanned(Fresh([w]), Remainder(s, text))
    ensures WordEnd(s, text) == |text| ==> |Finish(Scanned(s, text))| <= 1
    decreases |text|
  {
    if text != [] {
      if Separates(s, text[0]) {
        assert Step(s, text[0]) == Fresh([s.word]);
      } else {
        ScanFirstWord(Step(s, text[0]), text[1..]);
      }
    }
  }

  // For a payload that yields a command, the text kept as its arguments splits into exactly
  // its arguments if and only if the payload does not start with a space.
  lemma SuffixLaw(payload: string)
    requires Words(payload) != []
    ensures payload != "" && (Words(FullArgs(payload)) == Words(payload)[1..] <==> payload[0] != ' ')
  {
    if payload[0] == ' ' {
      assert FullArgs(payload) == payload[1..];
      assert Step(BEGIN, ' ') == BEGIN;
    } else {
      var s := Step(BEGIN, payload[0]);
      ScanFirstWord(s, payload[1..]);
      if WordEnd(s, payload[1..]) < |payload[1..]| {
        var w :| Scanned(s, payload[1..]) == Scanned(Fresh([w]), Remainder(s, payload[1..]));
        WordsAfter([w], Remainder(s, payload[1..]));
      } else {
        assert FullArgs(payload) == "";
      }
    }
  }

  // The kept text is the part of the payload after one unquoted space.
  lemma {:induction false} RemainderIsSuffix(s: Scan, text: string)
    ensures WordEnd(s, text) < |text| ==>
      && text[WordEnd(s, text)] == ' '
      && text == text[..WordEnd(s, text)] + " " + Remainder(s, text)
    decreases |text|
  {
    var k := WordEnd(s, text);
    if text != [] && !Separates(s, text[0]) {
      RemainderIsSuffix(Step(s, text[0]), text[1..]);
      assert k < |text| ==> text[1..][k..] == text[k + 1..];
    }
    assert k < |text| ==> text == text[..k] + [text[k]] + text[k + 1..];
  }

  // ----- Quoting round trip -----

  function EscapedChar(c: char): string {
    if c == '\\' || c == '"' then ['\\', c] else [c]
  }

  function Escaped(word: string): string {
    if word == "" then "" else EscapedChar(word[0]) + Escaped(word[1..])
  }

  function Quoted(word: string): string {
    "\"" + Escaped(word) + "\""
  }

  // Every word quoted and escaped, separated by single spaces.
  function Rendered(words: seq<string>): string {
    if words == [] then ""
    else if |words| == 1 then Quoted(words[0])
    else Quoted(words[0]) + " " + Rendered(words[1..])
  }

  // What one escaped character does to the scan of a quoted word.
  lemma ScanOneEscaped(s: Scan, c: char, rest: string)
    requires s.inQuote && !s.inEscape
    ensures Scanned(s, EscapedChar(c) + rest) == Scanned(s.(word := s.word + [c]), rest)
    ensures WordEnd(s, EscapedChar(c) + rest) == |EscapedChar(c)| + WordEnd(s.(word := s.word + [c]), rest)
  {
    var text := EscapedChar(c) + rest;
    if c == '\\' || c == '"' {
      assert text[1..][1..] == rest;
    } else {
      assert text[1..] == rest;
    }
  }

  lemma {:induction false} ScanEscaped(s: Scan, word: string, rest: string)
    requires s.inQuote && !s.inEscape
    ensures Scanned(s, Escaped(word) + rest) == Scanned(s.(word := s.word + word), rest)
    ensures WordEnd(s, Escaped(word) + rest) == |Escaped(word)| + WordEnd(s.(word := s.word + word), rest)
    decreases |word|
  {
    if word == "" {
      assert Escaped(word) + rest == rest && s.word + word == s.word;
    } else {
      ScanOneEscaped(s, word[0], Escaped(word[1..]) + rest);
      ScanEscaped(s.(word := s.word + [word[0]]), word[1..], rest);
      assert Escaped(word) + rest == EscapedChar(word[0]) + (Escaped(word[1..]) + rest);
      assert s.word + [word[0]] + word[1..] == s.word + word;
    }
  }

  lemma ScanQuoted(args: seq<string>, word: string, rest: string)
    ensures Scanned(Fresh(args), Quoted(word) + rest) == Scanned(Scan(args, word, false, true, false), rest)
    ensures WordEnd(Fresh(args), Quoted(word) + rest)
         == |Quoted(word)| + WordEnd(Scan(args, word, false, true, false), rest)
  {
    var text := Quoted(word) + rest;
    assert text[1..] == Escaped(word) + ("\"" + rest);
    ScanEscaped(Scan(args, "", true, true, false), word, "\"" + rest);
    assert "" + word == word;
    assert ("\"" + rest)[1..] == rest;
  }

  // Any list of words, empty ones included, survives quoting and splitting.
  lemma {:induction false} QuotingRoundTrip(words: seq<string>)
    ensures Words(Rendered(words)) == words
    decreases |words|
  {
    if |words| == 1 {
      ScanQuoted([], words[0], "");
      assert Quoted(words[0]) + "" == Quoted(words[0]);
    } else if |words| > 1 {
      var rest := " " + Rendered(words[1..]);
      ScanQuoted([], words[0], rest);
      assert rest[1..] == Rendered(words[1..]);
      var closed := Scan([], words[0], false, true, false);
      assert [] + [words[0]] == [words[0]];
      assert Scanned(closed, rest) == Scanned(Step(closed, ' '), rest[1..]);
      WordsAfter([words[0]], Rendered(words[1..]));
      QuotingRoundTrip(words[1..]);
      assert Rendered(words) == Quoted(words[0]) + rest;
      assert words == [words[0]] + words[1..];
    }
  }

  // And the text kept for the arguments is the rendering of the arguments.
  lemma FullArgsOfRendered(command: string, args: seq<string>)
    ensures FullArgs(Rendered([command] + args)) == Rendered(args)
  {
    var words := [command] + args;
    assert words[1..] == args;
    if args == [] {
      ScanQuoted([], command, "");
      assert Quoted(command) + "" == Quoted(command);
    } else {
      var rest := " " + Rendered(args);
      ScanQuoted([], command, rest);
      assert Rendered(words) == Quoted(command) + rest;
      assert (Quoted(command) + rest)[|Quoted(command)| + 1..] == Rendered(args);
    }
  }
}
