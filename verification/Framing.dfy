/** The frames of the plugin protocol: a decimal length followed by that many bytes, the
    first of which is an opening brace (PluginComm::poll in src/plugincomm.cpp).  The
    decoder is incremental: it keeps a buffer and, once a length is known, that length. */
module Framing {
  import opened Common

  predicate IsDigit(c: char) {
    '0' <= c <= '9'
  }

  // The digits among the first n bytes.
  function DigitsBefore(s: string, n: nat): (d: string)
    requires n <= |s|
    ensures forall i | 0 <= i < |d| :: IsDigit(d[i])
  {
    if n == 0 then ""
    else DigitsBefore(s, n - 1) + if IsDigit(s[n - 1]) then [s[n - 1]] else ""
  }

  function Number(digits: string): nat
    requires forall i | 0 <= i < |digits| :: IsDigit(digits[i])
  {
    if digits == "" then 0
    else
      var last := digits[|digits| - 1];
      assert IsDigit(last);
      10 * Number(digits[..|digits| - 1]) + (last as int - '0' as int)
  }

  // The first brace at or after index i, |s| if there is none.
  function BraceFrom(s: string, i: nat): (j: nat)
    requires i <= |s|
    ensures i <= j <= |s|
    ensures j < |s| ==> s[j] == '{'
    ensures forall k | i <= k < j :: s[k] != '{'
    decreases |s| - i
  {
    if i == |s| || s[i] == '{' then i else BraceFrom(s, i + 1)
  }

  // What the bytes before the first brace say: every digit among them, in order, is part
  // of the length.  No digit at all, or a length that is no int, fails an assertion.
  datatype Header = NoBrace | Unreadable | Length(at: nat, size: nat)

  function ParseHeader(buffer: string): (h: Header)
    ensures h.Length? ==> h.at < |buffer| && buffer[h.at] == '{'
  {
    var j := BraceFrom(buffer, 0);
    if j == |buffer| then NoBrace
    else
      var digits := DigitsBefore(buffer, j);
      if digits == "" || Number(digits) > INT_MAX then Unreadable
      else Length(j, Number(digits))
  }

  // The decoder between two reads: waiting is the length of the frame whose body the
  // buffer starts with, 0 if that is not known yet.
  datatype Decoder = Decoder(waiting: nat, buffer: string) | Aborted

  const START := Decoder(0, "")

  datatype Decoded = Decoded(packets: seq<string>, end: Decoder)

  // Skips to the body of the next frame if its length is known.  A length of zero leaves
  // the buffer as it is.
  function Located(d: Decoder): (l: Decoder)
    requires d.Decoder?
    ensures l.Decoder? ==> |l.buffer| <= |d.buffer|
  {
    if d.waiting != 0 then d
    else match ParseHeader(d.buffer)
      case NoBrace => d
      case Unreadable => Aborted
      case Length(j, size) => if size == 0 then d else Decoder(size, d.buffer[j..])
  }

  // Takes every complete frame out of the buffer.
  function Decode(d: Decoder): (r: Decoded)
    decreases if d.Aborted? then 0 else |d.buffer|
  {
    if d.Aborted? then Decoded([], d)
    else
      var l := Located(d);
      if l.Aborted? || l.waiting == 0 || |l.buffer| < l.waiting then Decoded([], l)
      else
        var rest := Decode(Decoder(0, l.buffer[l.waiting..]));
        Decoded([l.buffer[..l.waiting]] + rest.packets, rest.end)
  }

  // Bytes arrive and are decoded.
  function Feed(d: Decoder, bytes: string): Decoded {
    if d.Aborted? then Decoded([], d) else Decode(d.(buffer := d.buffer + bytes))
  }

  // A first and a second helping, taken together.
  function Joined(first: Decoded, second: Decoded): Decoded {
    Decoded(first.packets + second.packets, second.end)
  }

  function FeedAll(d: Decoder, chunks: seq<string>): Decoded {
    if chunks == [] then Decoded([], d)
    else
      var n := |chunks| - 1;
      var before := FeedAll(d, chunks[..n]);
      Joined(before, Feed(before.end, chunks[n]))
  }


  lemma FirstBrace(s: string, i: nat, j: nat)
    requires i <= j < |s| && s[j] == '{'
    requires forall k | i <= k < j :: s[k] != '{'
    ensures BraceFrom(s, i) == j
  {
  }

  // The for loop that looks for the header.
  method ScanHeader(readahead: string) returns (h: Header)
    ensures h == ParseHeader(readahead)
  {
    var digits := "";
    var j := 0;
    while j < |readahead|
      invariant j <= |readahead|
      invariant forall i | 0 <= i < j :: readahead[i] != '{'
      invariant digits == DigitsBefore(readahead, j)
    {
      if IsDigit(readahead[j]) {
        digits := digits + [readahead[j]];
      } else if readahead[j] == '{' {
        FirstBrace(readahead, 0, j);
        if digits == "" || Number(digits) > INT_MAX {
          return Unreadable;
        }
        return Length(j, Number(digits));
      }
      j := j + 1;
    }
    h := NoBrace;
  }

  // ----- Chunk independence -----

  lemma {:induction false} DigitsBeforeIsStable(s: string, more: string, n: nat)
    requires n <= |s|
    ensures DigitsBefore(s + more, n) == DigitsBefore(s, n)
  {
    if n > 0 {
      DigitsBeforeIsStable(s, more, n - 1);
    }
  }

  // More bytes do not change what a header says.
  lemma HeaderIsStable(buffer: string, more: string)
    requires !ParseHeader(buffer).NoBrace?
    ensures ParseHeader(buffer + more) == ParseHeader(buffer)
  {
    var j := BraceFrom(buffer, 0);
    FirstBrace(buffer + more, 0, j);
    DigitsBeforeIsStable(buffer, more, j);
  }

  lemma LocatedIsStable(d: Decoder, more: string)
    requires d.Decoder?
    ensures Located(d).Aborted? ==> Located(d.(buffer := d.buffer + more)).Aborted?
    ensures Located(d).Decoder? && Located(d).waiting != 0 ==>
      Located(d.(buffer := d.buffer + more)) == Located(d).(buffer := Located(d).buffer + more)
    ensures Located(d).Decoder? && Located(d).waiting == 0 ==> Located(d) == d
  {
    if d.waiting == 0 && !ParseHeader(d.buffer).NoBrace? {
      HeaderIsStable(d.buffer, more);
      var h := ParseHeader(d.buffer);
      assert h.Length? ==> (d.buffer + more)[h.at..] == d.buffer[h.at..] + more;
    }
  }

  predicate Ready(l: Decoder) {
    l.Decoder? && l.waiting != 0 && |l.buffer| >= l.waiting
  }

  function Rest(l: Decoder): Decoder
    requires Ready(l)
  {
    Decoder(0, l.buffer[l.waiting..])
  }

  lemma DecodeTakes(d: Decoder)
    requires d.Decoder? && Ready(Located(d))
    ensures Decode(d) == Prepend(Located(d).buffer[..Located(d).waiting], Decode(Rest(Located(d))))
  {
  }

  lemma ResumeWaiting(d: Decoder, more: string)
    requires d.Decoder? && !Ready(Located(d))
    ensures Decode(d) == Decoded([], Decode(d).end) && Feed(Decode(d).end, more) == Feed(d, more)
  {
    LocatedIsStable(d, more);
    assert Decode(d) == Decoded([], Located(d));
  }

  // With more bytes the next frame is the same, and the bytes follow what is left.
  lemma TakesTheSame(d: Decoder, more: string)
    requires d.Decoder? && Ready(Located(d))
    ensures
      var l, all := Located(d), Located(d.(buffer := d.buffer + more));
      && Ready(all) && all.buffer[..all.waiting] == l.buffer[..l.waiting]
      && Rest(all) == Rest(l).(buffer := Rest(l).buffer + more)
  {
    LocatedIsStable(d, more);
    var l, all := Located(d), Located(d.(buffer := d.buffer + more));
    assert all.buffer == l.buffer + more && all.waiting == l.waiting;
    assert (l.buffer + more)[l.waiting..] == l.buffer[l.waiting..] + more;
    assert (l.buffer + more)[..l.waiting] == l.buffer[..l.waiting];
  }

  function Prepend(packet: string, r: Decoded): Decoded {
    Decoded([packet] + r.packets, r.end)
  }

  lemma JoinedPrepend(packet: string, first: Decoded, second: Decoded)
    ensures Prepend(packet, Joined(first, second)) == Joined(Prepend(packet, first), second)
  {
    assert [packet] + (first.packets + second.packets) == [packet] + first.packets + second.packets;
  }

  // Decoding may stop anywhere and go on when more bytes have come.
  lemma {:induction false} DecodeResumes(d: Decoder, more: string)
    requires d.Decoder?
    ensures Feed(d, more) == Joined(Decode(d), Feed(Decode(d).end, more))
    decreases |d.buffer|
  {
    var l := Located(d);
    if Ready(l) {
      var packet := l.buffer[..l.waiting];
      TakesTheSame(d, more);
      DecodeTakes(d);
      DecodeTakes(d.(buffer := d.buffer + more));
      DecodeResumes(Rest(l), more);
      JoinedPrepend(packet, Decode(Rest(l)), Feed(Decode(d).end, more));
    } else {
      ResumeWaiting(d, more);
      JoinedEmpty(Feed(Decode(d).end, more), Decode(d).end);
    }
  }

  lemma JoinedEmpty(r: Decoded, end: Decoder)
    ensures Joined(Decoded([], end), r) == r
  {
    assert [] + r.packets == r.packets;
  }

  lemma FeedResumes(d: Decoder, bytes: string, more: string)
    ensures Feed(d, bytes + more) == Joined(Feed(d, bytes), Feed(Feed(d, bytes).end, more))
  {
    if d.Decoder? {
      DecodeResumes(d.(buffer := d.buffer + bytes), more);
      Regroup(d.buffer, bytes, more);
    } else {
      JoinedEmpty(Decoded([], d), d);
    }
  }

  // A decoder that has taken out all it can.
  predicate Quiescent(d: Decoder) {
    d.Decoder? ==> Decode(d) == Decoded([], d)
  }

  lemma {:induction false} DecodeEndsQuiescent(d: Decoder)
    ensures Quiescent(Decode(d).end)
    decreases if d.Decoder? then |d.buffer| else 0
  {
    if d.Decoder? {
      var l := Located(d);
      if l.Decoder? && l.waiting != 0 && |l.buffer| >= l.waiting {
        DecodeEndsQuiescent(Decoder(0, l.buffer[l.waiting..]));
      }
    }
  }

  // However a byte stream is cut into reads, the packets, the state left behind and the
  // abort, if there is one, are the same.
  lemma {:induction false} ChunkIndependence(d: Decoder, chunks: seq<string>)
    requires Quiescent(d)
    ensures FeedAll(d, chunks) == Feed(d, Concat(chunks))
  {
    if chunks == [] {
      assert d.Decoder? ==> d.buffer + "" == d.buffer;
    } else {
      var n := |chunks| - 1;
      ChunkIndependence(d, chunks[..n]);
      FeedResumes(d, Concat(chunks[..n]), chunks[n]);
    }
  }

  // After a length of zero nothing is ever decoded again.
  predicate Stuck(d: Decoder) {
    d.Decoder? && d.waiting == 0 && ParseHeader(d.buffer).Length? && ParseHeader(d.buffer).size == 0
  }

  lemma StuckForever(d: Decoder, bytes: string)
    requires Stuck(d)
    ensures Feed(d, bytes) == Decoded([], d.(buffer := d.buffer + bytes)) && Stuck(Feed(d, bytes).end)
  {
    HeaderIsStable(d.buffer, bytes);
  }

  // Any other decoder that has taken out all it can gets on with the right bytes.  If it
  // waits for the rest of a frame, that will do.
  lemma WaitingMoves(d: Decoder, more: string)
    requires d.Decoder? && 0 < d.waiting <= |d.buffer| + |more|
    ensures Feed(d, more).packets != []
  {
    DecodeTakes(d.(buffer := d.buffer + more));
  }

  // If it waits for a header, so will one and as many bytes as it then asks for.
  lemma HeaderMoves(d: Decoder) returns (bytes: string)
    requires d.Decoder? && d.waiting == 0 && ParseHeader(d.buffer).NoBrace?
    ensures Feed(d, bytes).packets != [] || Feed(d, bytes).end.Aborted?
  {
    var n := |d.buffer|;
    var all := d.buffer + "1{";
    FirstBrace(all, 0, n + 1);
    DigitsBeforeIsStable(d.buffer, "1{", n);
    assert DigitsBefore(all, n + 1) == DigitsBefore(d.buffer, n) + "1";
    var next := Feed(d, "1{");
    if next.packets != [] || next.end.Aborted? {
      return "1{";
    }
    var more := seq(next.end.waiting, i => ' ');
    WaitingMoves(next.end, more);
    FeedResumes(d, "1{", more);
    return "1{" + more;
  }

  lemma OthersMove(d: Decoder) returns (bytes: string)
    requires d.Decoder? && Quiescent(d) && !Stuck(d)
    ensures Feed(d, bytes).packets != [] || Feed(d, bytes).end.Aborted?
  {
    if d.waiting != 0 {
      bytes := seq(d.waiting, i => ' ');
      WaitingMoves(d, bytes);
    } else {
      bytes := HeaderMoves(d);
    }
  }

  // So those are exactly the decoders that no bytes will bring to another packet or a stop.
  lemma StuckExactly(d: Decoder)
    requires d.Decoder? && Quiescent(d)
    ensures Stuck(d) <==> forall bytes :: Feed(d, bytes).packets == [] && Feed(d, bytes).end.Decoder?
  {
    if Stuck(d) {
      forall bytes {
        StuckForever(d, bytes);
      }
    } else {
      var bytes := OthersMove(d);
    }
  }

  // ----- Framing round trip -----

  function Decimal(n: nat): (d: string)
    ensures d != "" && forall i | 0 <= i < |d| :: IsDigit(d[i])
  {
    if n < 10 then [('0' as int + n) as char]
    else Decimal(n / 10) + [('0' as int + n % 10) as char]
  }

  lemma {:induction false} DecimalIsNumber(n: nat)
    ensures Number(Decimal(n)) == n
  {
    if n >= 10 {
      DecimalIsNumber(n / 10);
      var d := Decimal(n);
      assert d[..|d| - 1] == Decimal(n / 10);
    }
  }

  // Bytes that may stand between frames.
  predicate Gap(s: string) {
    forall i | 0 <= i < |s| :: !IsDigit(s[i]) && s[i] != '{'
  }

  predicate Message(m: string) {
    1 <= |m| <= INT_MAX && m[0] == '{'
  }

  // Frames, each with a gap before it, and a last gap.
  function Stream(gaps: seq<string>, messages: seq<string>, last: string): string
    requires |gaps| == |messages|
  {
    if messages == [] then last
    else gaps[0] + Decimal(|messages[0]|) + messages[0] + Stream(gaps[1..], messages[1..], last)
  }

  lemma {:induction false} DigitsAfterGap(gap: string, digits: string, rest: string, n: nat)
    requires Gap(gap) && n <= |digits| && forall i | 0 <= i < |digits| :: IsDigit(digits[i])
    ensures DigitsBefore(gap + digits + rest, |gap| + n) == digits[..n]
    decreases |gap| + n
  {
    var text := gap + digits + rest;
    if n > 0 {
      DigitsAfterGap(gap, digits, rest, n - 1);
      assert text[|gap| + n - 1] == digits[n - 1];
      assert digits[..n] == digits[..n - 1] + [digits[n - 1]];
    } else {
      NoDigitsInGap(gap, digits + rest, |gap|);
      assert text == gap + (digits + rest);
    }
  }

  lemma {:induction false} NoDigitsInGap(gap: string, rest: string, n: nat)
    requires Gap(gap) && n <= |gap|
    ensures DigitsBefore(gap + rest, n) == ""
  {
    if n > 0 {
      NoDigitsInGap(gap, rest, n - 1);
      assert (gap + rest)[n - 1] == gap[n - 1];
    }
  }

  lemma NoBraceBefore(gap: string, digits: string, message: string, rest: string)
    requires Gap(gap) && Message(message) && forall i | 0 <= i < |digits| :: IsDigit(digits[i])
    ensures BraceFrom(gap + digits + (message + rest), 0) == |gap + digits|
  {
    var text := gap + digits + (message + rest);
    forall k | 0 <= k < |gap + digits| ensures text[k] != '{' {
      assert text[k] == if k < |gap| then gap[k] else digits[k - |gap|];
    }
    assert text[|gap + digits|] == message[0];
    FirstBrace(text, 0, |gap + digits|);
  }

  lemma HeaderAfterDigits(gap: string, digits: string, message: string, rest: string)
    requires Gap(gap) && Message(message)
    requires digits != "" && forall i | 0 <= i < |digits| :: IsDigit(digits[i])
    requires Number(digits) == |message|
    ensures ParseHeader(gap + digits + (message + rest)) == Length(|gap + digits|, |message|)
  {
    NoBraceBefore(gap, digits, message, rest);
    DigitsAfterGap(gap, digits, message + rest, |digits|);
    assert digits[..|digits|] == digits;
  }

  lemma HeaderOfFrame(gap: string, message: string, rest: string)
    requires Gap(gap) && Message(message)
    ensures
      var prefix := gap + Decimal(|message|);
      ParseHeader(prefix + (message + rest)) == Length(|prefix|, |message|)
  {
    DecimalIsNumber(|message|);
    HeaderAfterDigits(gap, Decimal(|message|), message, rest);
  }

  // Digits with a gap before each, and a last gap.
  function Scattered(gaps: seq<string>, digits: string, last: string): string
    requires |gaps| == |digits|
    decreases |digits|
  {
    if digits == "" then last
    else
      var n := |digits| - 1;
      Scattered(gaps[..n], digits[..n], gaps[n]) + ([digits[n]] + last)
  }

  lemma {:induction false} DigitsSkipGap(before: string, gap: string, rest: string, n: nat)
    requires Gap(gap) && n <= |gap|
    ensures DigitsBefore(before + (gap + rest), |before| + n) == DigitsBefore(before + (gap + rest), |before|)
  {
    if n > 0 {
      DigitsSkipGap(before, gap, rest, n - 1);
      assert (before + (gap + rest))[|before| + n - 1] == gap[n - 1];
    }
  }

  lemma GapAfterDigit(before: string, digit: string, last: string, rest: string)
    ensures before + (digit + last) + rest == before + (digit + (last + rest)) == before + digit + (last + rest)
  {
    Regroup(digit, last, rest);
    Regroup(before, digit + last, rest);
    Regroup(before, digit, last + rest);
  }

  lemma DigitThenGap(before: string, digit: char, last: string, rest: string)
    requires Gap(last) && IsDigit(digit)
    ensures
      var all := before + ([digit] + last) + rest;
      DigitsBefore(all, |before| + 1 + |last|) == DigitsBefore(before + ([digit] + (last + rest)), |before|) + [digit]
  {
    GapAfterDigit(before, [digit], last, rest);
    DigitsSkipGap(before + [digit], last, rest, |last|);
    assert (before + [digit] + (last + rest))[|before|] == digit;
  }

  lemma {:induction false} DigitsAreCollected(gaps: seq<string>, digits: string, last: string, rest: string)
    requires |gaps| == |digits| && (forall g | g in gaps :: Gap(g)) && Gap(last)
    requires forall i | 0 <= i < |digits| :: IsDigit(digits[i])
    ensures
      var before := Scattered(gaps, digits, last);
      DigitsBefore(before + rest, |before|) == digits
    decreases |digits|
  {
    if digits == "" {
      NoDigitsInGap(last, rest, |last|);
    } else {
      var n := |digits| - 1;
      var before := Scattered(gaps[..n], digits[..n], gaps[n]);
      DigitsAreCollected(gaps[..n], digits[..n], gaps[n], [digits[n]] + (last + rest));
      DigitThenGap(before, digits[n], last, rest);
      assert digits[..n] + [digits[n]] == digits;
    }
  }

  lemma {:induction false} NoBraceScattered(gaps: seq<string>, digits: string, last: string)
    requires |gaps| == |digits| && (forall g | g in gaps :: Gap(g)) && Gap(last)
    requires forall i | 0 <= i < |digits| :: IsDigit(digits[i])
    ensures '{' !in Scattered(gaps, digits, last)
    decreases |digits|
  {
    if digits != "" {
      var n := |digits| - 1;
      NoBraceScattered(gaps[..n], digits[..n], gaps[n]);
    }
  }

  // What a size is read from: all the digits before the first brace, whatever stands between
  // them and however many zeros come first.
  function Zeros(n: nat): string {
    seq(n, i => '0')
  }

  lemma {:induction false} LeadingZeros(zeros: nat, digits: string)
    requires forall i | 0 <= i < |digits| :: IsDigit(digits[i])
    ensures forall i | 0 <= i < |Zeros(zeros) + digits| :: IsDigit((Zeros(zeros) + digits)[i])
    ensures Number(Zeros(zeros) + digits) == Number(digits)
    decreases zeros + |digits|
  {
    var all := Zeros(zeros) + digits;
    if digits != "" {
      LeadingZeros(zeros, digits[..|digits| - 1]);
      assert all[..|all| - 1] == Zeros(zeros) + digits[..|digits| - 1];
    } else if zeros > 0 {
      LeadingZeros(zeros - 1, "");
      assert all[..|all| - 1] == Zeros(zeros - 1) + "";
    }
  }

  // A brace with no digit before it, or with a number too large, fails the assertion; zero
  // leaves everything as it is; any other number is the size of the first packet.
  lemma HeaderIsRead(gaps: seq<string>, digits: string, last: string, rest: string, zeros: nat, n: nat)
    requires |gaps| == |digits| && (forall g | g in gaps :: Gap(g)) && Gap(last)
    requires digits == "" || digits == Zeros(zeros) + Decimal(n)
    ensures
      var text := Scattered(gaps, digits, last) + ("{" + rest);
      if digits == "" || n > INT_MAX then Feed(START, text) == Decoded([], Aborted)
      else if n == 0 then Feed(START, text) == Decoded([], Decoder(0, text))
      else if n <= 1 + |rest| then
        && Feed(START, text).packets != [] && Feed(START, text).packets[0] == ("{" + rest)[..n]
      else Feed(START, text) == Decoded([], Decoder(n, "{" + rest))
  {
    var before := Scattered(gaps, digits, last);
    ScatteredHeader(gaps, digits, last, rest, zeros, n);
    assert "" + (before + ("{" + rest)) == before + ("{" + rest);
    FromHeader(before, rest);
  }

  lemma ScatteredHeader(gaps: seq<string>, digits: string, last: string, rest: string, zeros: nat, n: nat)
    requires |gaps| == |digits| && (forall g | g in gaps :: Gap(g)) && Gap(last)
    requires digits == "" || digits == Zeros(zeros) + Decimal(n)
    ensures
      var before := Scattered(gaps, digits, last);
      ParseHeader(before + ("{" + rest)) ==
        if digits == "" || n > INT_MAX then Unreadable else Length(|before|, n)
  {
    var before := Scattered(gaps, digits, last);
    DecimalIsNumber(n);
    LeadingZeros(zeros, Decimal(n));
    DigitsAreCollected(gaps, digits, last, "{" + rest);
    NoBraceScattered(gaps, digits, last);
    FirstBrace(before + ("{" + rest), 0, |before|);
  }

  lemma FromHeader(before: string, rest: string)
    ensures
      var text := before + ("{" + rest);
      var h, r := ParseHeader(text), Decode(Decoder(0, text));
      && (h.Unreadable? ==> r == Decoded([], Aborted))
      && (h.Length? && h.size == 0 ==> r == Decoded([], Decoder(0, text)))
      && (h.Length? && h.at == |before| && h.size > 0 ==>
            if h.size <= 1 + |rest| then r.packets != [] && r.packets[0] == ("{" + rest)[..h.size]
            else r == Decoded([], Decoder(h.size, "{" + rest)))
  {
    assert (before + ("{" + rest))[|before|..] == "{" + rest;
  }

  lemma GapHasNoHeader(s: string)
    requires Gap(s)
    ensures ParseHeader(s) == NoBrace
  {
  }

  lemma {:induction false} FramingRoundTrip(gaps: seq<string>, messages: seq<string>, last: string)
    requires |gaps| == |messages|
    requires (forall g | g in gaps :: Gap(g)) && (forall m | m in messages :: Message(m)) && Gap(last)
    ensures Decode(Decoder(0, Stream(gaps, messages, last))) == Decoded(messages, Decoder(0, last))
    decreases |messages|
  {
    var text := Stream(gaps, messages, last);
    if messages == [] {
      GapHasNoHeader(last);
    } else {
      var m, rest := messages[0], Stream(gaps[1..], messages[1..], last);
      HeaderOfFrame(gaps[0], m, rest);
      FirstFrame(gaps[0] + Decimal(|m|), m, rest);
      Regroup(gaps[0] + Decimal(|m|), m, rest);
      FramingRoundTrip(gaps[1..], messages[1..], last);
    }
  }

  lemma FirstFrame(prefix: string, m: string, rest: string)
    requires m != "" && ParseHeader(prefix + (m + rest)) == Length(|prefix|, |m|)
    ensures
      var after := Decode(Decoder(0, rest));
      Decode(Decoder(0, prefix + (m + rest))) == Decoded([m] + after.packets, after.end)
  {
    var d := Decoder(0, prefix + (m + rest));
    assert d.buffer[|prefix|..] == m + rest;
    assert Located(d) == Decoder(|m|, m + rest);
    assert (m + rest)[..|m|] == m && (m + rest)[|m|..] == rest;
    DecodeTakes(d);
  }

  // What the bot itself writes: each frame followed by a newline.
  function Frame(message: string): string {
    Decimal(|message|) + message + "\n"
  }

  function Frames(messages: seq<string>): string {
    if messages == [] then "" else Frames(messages[..|messages| - 1]) + Frame(messages[|messages| - 1])
  }

  lemma {:induction false} FramesConcat(a: seq<string>, b: seq<string>)
    ensures Frames(a + b) == Frames(a) + Frames(b)
  {
    if b == [] {
      assert a + b == a;
    } else {
      var n := |b| - 1;
      FramesConcat(a, b[..n]);
      SplitLast(a, b);
      FramesSnoc(a + b[..n], b[n]);
      FramesSnoc(b[..n], b[n]);
      Regroup(Frames(a), Frames(b[..n]), Frame(b[n]));
    }
  }

  lemma FramesSnoc(messages: seq<string>, message: string)
    ensures Frames(messages + [message]) == Frames(messages) + Frame(message)
  {
    assert (messages + [message])[..|messages|] == messages;
  }

  // The newline after a frame is the gap before the next.
  lemma {:induction false} FramesAreAStream(first: string, messages: seq<string>)
      returns (gaps: seq<string>, last: string)
    requires Gap(first) && forall m | m in messages :: Message(m)
    ensures |gaps| == |messages| && (forall g | g in gaps :: Gap(g)) && Gap(last)
    ensures first + Frames(messages) == Stream(gaps, messages, last)
    decreases |messages|
  {
    if messages == [] {
      gaps, last := [], first;
      assert first + "" == first;
    } else {
      gaps, last := FramesAreAStream("\n", messages[1..]);
      FramesConcat([messages[0]], messages[1..]);
      assert messages == [messages[0]] + messages[1..];
      var n := Decimal(|messages[0]|);
      assert Frames([messages[0]]) == Frame(messages[0]);
      assert first + (Frame(messages[0]) + Frames(messages[1..]))
          == first + n + messages[0] + ("\n" + Frames(messages[1..]));
      gaps := [first] + gaps;
    }
  }

  // A reader of the bot's bytes, wherever they are cut off so far, has received a prefix of
  // the messages in order, and all of them once every byte has come.
  lemma ReaderGetsPrefix(messages: seq<string>, received: string, outstanding: string)
    requires (forall m | m in messages :: Message(m)) && received + outstanding == Frames(messages)
    ensures Feed(START, received).packets <= messages && Feed(START, received).end.Decoder?
    ensures outstanding == "" ==> Feed(START, received).packets == messages
  {
    var gaps, last := FramesAreAStream("", messages);
    FramingRoundTrip(gaps, messages, last);
    assert "" + Frames(messages) == Frames(messages);
    FeedResumes(START, received, outstanding);
    if outstanding == "" {
      assert received + outstanding == received;
    }
  }
}
