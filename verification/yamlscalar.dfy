// What double-quoted scalars mean (sections 5.6, 5.7 and 9.1.1 of YAML 1.1), by
// their characters and line breaks, and that the scanner reads every one of them so.

module YamlScalar {
  import opened YamlChars
  import R = YamlRoundTrip
  import S = YamlScanner

  // ---------- the text of a scalar ----------

  datatype Brk = Lf | Cr | CrLf | Nel | Ls | Ps

  // A line break and the blanks that begin the next line.
  datatype Line = Line(brk: Brk, blanks: Bytes)

  // What stands between two words: blanks, then any number of line breaks.
  datatype Gap = Gap(before: Bytes, lines: seq<Line>)

  // A character, an escape sequence of a letter or of hexadecimal digits, or an
  // escaped line break.
  datatype Word = Char(v: Scalar) | Letter(c: byte) | Code(c: byte, digits: Bytes) | Cut(brk: Brk)

  datatype Part = Part(gap: Gap, word: Word)

  const NONE := Gap([], [])

  // The parts of a scalar, and what stands in front of its right quote.
  datatype Text = Text(parts: seq<Part>, last: Gap)

  // ---------- how it is written ----------

  function BrkBytes(k: Brk): Bytes {
    match k
    case Lf => [0x0A]
    case Cr => [0x0D]
    case CrLf => [0x0D, 0x0A]
    case Nel => [0xC2, 0x85]
    case Ls => [0xE2, 0x80, 0xA8]
    case Ps => [0xE2, 0x80, 0xA9]
  }

  function LinesBytes(lines: seq<Line>): Bytes {
    if lines == [] then [] else BrkBytes(lines[0].brk) + lines[0].blanks + LinesBytes(lines[1..])
  }

  function GapBytes(g: Gap): Bytes {
    g.before + LinesBytes(g.lines)
  }

  function WordBytes(w: Word): Bytes {
    match w
    case Char(v) => Utf8(v)
    case Letter(c) => [0x5C, c]
    case Code(c, digits) => [0x5C, c] + digits
    case Cut(k) => [0x5C] + BrkBytes(k)
  }

  function Written(parts: seq<Part>, last: Gap): Bytes {
    if parts == [] then GapBytes(last)
    else GapBytes(parts[0].gap) + (WordBytes(parts[0].word) + Written(parts[1..], last))
  }

  // ---------- what may be written ----------

  predicate AllBlank(s: Bytes) {
    forall c :: c in s ==> c == 0x20 || c == 0x09
  }

  // A carriage return and a line feed are one line break.
  predicate NoJoin(k: Brk, g: Gap) {
    !(k == Cr && g.before == [] && g.lines != [] && g.lines[0].brk == Lf)
  }

  predicate LinesOk(lines: seq<Line>) {
    lines == [] ||
    (AllBlank(lines[0].blanks) && NoJoin(lines[0].brk, Gap(lines[0].blanks, lines[1..])) && LinesOk(lines[1..]))
  }

  predicate GapOk(g: Gap) {
    AllBlank(g.before) && LinesOk(g.lines)
  }

  // The characters that a letter stands for.
  function Meant(c: byte): S.Option<Scalar> {
    match c
    case 0x30 => S.Some(0x00)
    case 0x61 => S.Some(0x07)
    case 0x62 => S.Some(0x08)
    case 0x74 => S.Some(0x09)
    case 0x09 => S.Some(0x09)
    case 0x6E => S.Some(0x0A)
    case 0x76 => S.Some(0x0B)
    case 0x66 => S.Some(0x0C)
    case 0x72 => S.Some(0x0D)
    case 0x65 => S.Some(0x1B)
    case 0x20 => S.Some(0x20)
    case 0x22 => S.Some(0x22)
    case 0x27 => S.Some(0x27)
    case 0x5C => S.Some(0x5C)
    case 0x4E => S.Some(0x85)
    case 0x5F => S.Some(0xA0)
    case 0x4C => S.Some(0x2028)
    case 0x50 => S.Some(0x2029)
    case _ => S.None
  }

  predicate IsHexDigit(c: byte) {
    0x30 <= c <= 0x39 || 0x41 <= c <= 0x46 || 0x61 <= c <= 0x66
  }

  // Upper and lower case alike.
  function DigitValue(c: byte): nat {
    if c <= 0x39 then (if c >= 0x30 then c - 0x30 else 0) else if c <= 0x46 then (if c >= 0x41 then c - 0x41 + 10 else 0)
    else if c >= 0x61 then c - 0x61 + 10 else 0
  }

  function Number16(s: Bytes): nat {
    if s == [] then 0 else 16 * Number16(s[..|s| - 1]) + DigitValue(s[|s| - 1])
  }

  predicate WordOk(w: Word) {
    match w
    case Char(v) => v != 0 && v != 0x22 && v != 0x5C && v != 0x20 && v != 0x09 && !LineBreak(v)
    case Letter(c) => Meant(c).Some?
    case Code(c, digits) =>
      && ((c == 0x78 && |digits| == 2) || (c == 0x75 && |digits| == 4) || (c == 0x55 && |digits| == 8))
      && (forall d :: d in digits ==> IsHexDigit(d))
      && (Number16(digits) < 0xD800 || 0xE000 <= Number16(digits) <= 0x10FFFF)
    case Cut(_) => true
  }

  function NextGap(parts: seq<Part>, last: Gap): Gap {
    if parts == [] then last else parts[0].gap
  }

  predicate TextOk(parts: seq<Part>, last: Gap) {
    if parts == [] then GapOk(last)
    else
      && GapOk(parts[0].gap) && WordOk(parts[0].word)
      && (parts[0].word.Cut? ==> NoJoin(parts[0].word.brk, NextGap(parts[1..], last)))
      && TextOk(parts[1..], last)
  }

  // ---------- what it means ----------

  // A line break is a line feed, but for the separators of Unicode.
  function BrkText(k: Brk): Bytes {
    match k
    case Ls => [0xE2, 0x80, 0xA8]
    case Ps => [0xE2, 0x80, 0xA9]
    case _ => [0x0A]
  }

  function LinesText(lines: seq<Line>): Bytes {
    if lines == [] then [] else BrkText(lines[0].brk) + LinesText(lines[1..])
  }

  // Blanks on one line stay. Line breaks are folded: a single one is a space, of
  // several the first is left out, unless it is a separator; the blanks around them
  // are dropped. After an escaped line break nothing is left out and no space made.
  function Folded(g: Gap, cut: bool): Bytes {
    if g.lines == [] then (if cut then [] else g.before)
    else if cut || g.lines[0].brk == Ls || g.lines[0].brk == Ps then LinesText(g.lines)
    else if |g.lines| == 1 then [0x20]
    else LinesText(g.lines[1..])
  }

  function WordText(w: Word): Bytes
    requires WordOk(w)
  {
    match w
    case Char(v) => Utf8(v)
    case Letter(c) => Utf8(Meant(c).value)
    case Code(_, digits) => Utf8(Number16(digits))
    case Cut(_) => []
  }

  function Meaning(parts: seq<Part>, last: Gap, cut: bool): Bytes
    requires TextOk(parts, last)
  {
    if parts == [] then Folded(last, cut)
    else Folded(parts[0].gap, cut) + (WordText(parts[0].word) + Meaning(parts[1..], last, parts[0].word.Cut?))
  }

  // The words from w on are n times the character d, and a blank or a line break
  // comes after them.
  predicate Run(w: Word, parts: seq<Part>, last: Gap, d: Scalar, n: nat)
    decreases n
  {
    w == Char(d) &&
    if n <= 1 then NextGap(parts, last) != NONE
    else parts != [] && parts[0].gap == NONE && Run(parts[0].word, parts[1..], last, d, n - 1)
  }

  predicate Marker(w: Word, parts: seq<Part>, last: Gap) {
    Run(w, parts, last, 0x2D, 3) || Run(w, parts, last, 0x2E, 3)
  }

  // The word after it begins a line.
  predicate BeginsLine(g: Gap, cut: bool) {
    if g.lines == [] then cut && g.before == [] else g.lines[|g.lines| - 1].blanks == []
  }

  // No line begins with three dashes or three dots and a blank or a line break.
  predicate NoMarker(parts: seq<Part>, last: Gap, cut: bool) {
    parts == [] ||
    (!(BeginsLine(parts[0].gap, cut) && Marker(parts[0].word, parts[1..], last)) && NoMarker(parts[1..], last, parts[0].word.Cut?))
  }

  // ---------- line breaks and blanks ----------

  lemma BrkRead(b: Bytes, i: nat, k: Brk)
    requires Has(b, i, BrkBytes(k)) && (k == Cr ==> At(b, i + 1) != 0x0A)
    ensures IsBreak(b, i) && !IsBlank(b, i) && At(b, i) != 0x22 && At(b, i) != 0x5C
    ensures S.BreakLength(b, i) == |BrkBytes(k)| && S.BreakText(b, i) == BrkText(k)
  {
    HasAt(b, i, BrkBytes(k), 0);
    if |BrkBytes(k)| > 1 { HasAt(b, i, BrkBytes(k), 1); }
    if |BrkBytes(k)| > 2 { HasAt(b, i, BrkBytes(k), 2); }
  }

  lemma {:induction false} BlanksRead(b: Bytes, i: nat, col: nat, s: Bytes, k: S.Blank, blanks: Bytes)
    requires Has(b, i, blanks) && AllBlank(blanks)
    ensures i + |blanks| <= |b|
    ensures S.Blanks(b, i, col, s, k)
      == S.Blanks(b, i + |blanks|, col + |blanks|, s, if k.leadingBlanks then k else k.(spaces := k.spaces + blanks))
    decreases |blanks|
  {
    if blanks == [] {
      assert k.spaces + [] == k.spaces;
    } else {
      assert blanks == [blanks[0]] + blanks[1..];
      HasSplit(b, i, [blanks[0]], blanks[1..]);
      HasAt(b, i, [blanks[0]], 0);
      FirstBlank(blanks);
      var next := if k.leadingBlanks then k else k.(spaces := k.spaces + [At(b, i)]);
      assert S.Blanks(b, i, col, s, k) == S.Blanks(b, i + 1, col + 1, s, next);
      BlanksRead(b, i + 1, col + 1, s, next, blanks[1..]);
      assert k.spaces + [blanks[0]] + blanks[1..] == k.spaces + blanks;
    }
  }

  lemma FirstBlank(blanks: Bytes)
    requires blanks != [] && AllBlank(blanks)
    ensures (blanks[0] == 0x20 || blanks[0] == 0x09) && AllBlank(blanks[1..])
  {
    assert blanks[0] in blanks && forall c :: c in blanks[1..] ==> c in blanks;
  }

  // Not a blank, a line break or the end: a word or the right quote.
  predicate Stops(b: Bytes, i: nat) {
    i < |b| && !IsBlankz(b, i)
  }

  // A line feed does not follow a carriage return there.
  lemma NotJoined(b: Bytes, i: nat, k: Brk, g: Gap)
    requires Has(b, i, GapBytes(g)) && GapOk(g) && NoJoin(k, g) && Stops(b, i + |GapBytes(g)|) && k == Cr
    ensures At(b, i) != 0x0A
  {
    if g.before != [] {
      HasAt(b, i, GapBytes(g), 0);
      assert g.before[0] in g.before;
    } else if g.lines != [] {
      var k := g.lines[0].brk;
      assert GapBytes(g)[0] == BrkBytes(k)[0];
      HasAt(b, i, GapBytes(g), 0);
    }
  }

  lemma LineParts(b: Bytes, i: nat, line: Line, rest: seq<Line>)
    requires LinesOk([line] + rest) && Has(b, i, LinesBytes([line] + rest)) && Stops(b, i + |LinesBytes([line] + rest)|)
    ensures var w := |BrkBytes(line.brk)|; var j := i + w + |line.blanks|;
      && Has(b, i, BrkBytes(line.brk)) && Has(b, i + w, line.blanks) && Has(b, j, LinesBytes(rest)) && j <= |b|
      && LinesOk(rest) && AllBlank(line.blanks) && i + |LinesBytes([line] + rest)| == j + |LinesBytes(rest)|
      && (line.brk == Cr ==> At(b, i + w) != 0x0A)
  {
    hide S.Blanks, IsBlank, IsBreak, At, BrkBytes, Stops;
    var lines, g, w := [line] + rest, Gap(line.blanks, rest), |BrkBytes(line.brk)|;
    assert lines[1..] == rest;
    LinesStep(line, rest);
    HasSplit(b, i, BrkBytes(line.brk), GapBytes(g));
    HasSplit(b, i + w, line.blanks, LinesBytes(rest));
    R.HasInside(b, i + w, line.blanks);
    hide Has;
    if line.brk == Cr { NotJoined(b, i + w, Cr, g); }
  }

  lemma LinesStep(line: Line, rest: seq<Line>)
    ensures LinesBytes([line] + rest) == BrkBytes(line.brk) + GapBytes(Gap(line.blanks, rest))
    ensures LinesText([line] + rest) == BrkText(line.brk) + LinesText(rest)
  {
    hide BrkBytes, BrkText;
    assert ([line] + rest)[1..] == rest;
  }

  // A line break and the blanks of the line it begins.
  lemma LineRead(b: Bytes, i: nat, col: nat, s: Bytes, k: S.Blank, line: Line, rest: seq<Line>)
    requires LinesOk([line] + rest) && Has(b, i, LinesBytes([line] + rest)) && Stops(b, i + |LinesBytes([line] + rest)|)
    ensures var j := i + |BrkBytes(line.brk)| + |line.blanks|;
      && Has(b, j, LinesBytes(rest)) && LinesOk(rest) && i + |LinesBytes([line] + rest)| == j + |LinesBytes(rest)| && j <= |b|
      && S.Blanks(b, i, col, s, k) == S.Blanks(b, j, |line.blanks|, s,
           if k.leadingBlanks then k.(trailing := k.trailing + BrkText(line.brk))
           else S.Blank(true, k.leading + BrkText(line.brk), k.trailing, []))
  {
    hide *;
    LineParts(b, i, line, rest);
    BrkLength(line.brk);
    BrkRead(b, i, line.brk);
    var w, next := |BrkBytes(line.brk)|, if k.leadingBlanks then k.(trailing := k.trailing + BrkText(line.brk))
      else S.Blank(true, k.leading + BrkText(line.brk), k.trailing, []);
    R.HasInside(b, i, BrkBytes(line.brk));
    BreakStep(b, i, col, s, k);
    BlanksRead(b, i + w, 0, s, next, line.blanks);
  }

  lemma BrkLength(k: Brk)
    ensures k == Cr ==> |BrkBytes(k)| == 1
  {
  }

  lemma BreakStep(b: Bytes, i: nat, col: nat, s: Bytes, k: S.Blank)
    requires i <= |b| && IsBreak(b, i) && !IsBlank(b, i)
    ensures i + S.BreakLength(b, i) <= |b|
    ensures S.Blanks(b, i, col, s, k) == S.Blanks(b, i + S.BreakLength(b, i), 0, s,
      if k.leadingBlanks then k.(trailing := k.trailing + S.BreakText(b, i))
      else S.Blank(true, k.leading + S.BreakText(b, i), k.trailing, []))
  {
    hide IsBreak, IsBlank, S.BreakLength, S.BreakText;
  }

  function ColumnAfter(lines: seq<Line>, col: nat): nat {
    if lines == [] then col else |lines[|lines| - 1].blanks|
  }

  // Line breaks after the first.
  lemma {:induction false} LinesRead(b: Bytes, i: nat, col: nat, s: Bytes, k: S.Blank, lines: seq<Line>)
    requires LinesOk(lines) && Has(b, i, LinesBytes(lines)) && Stops(b, i + |LinesBytes(lines)|) && k.leadingBlanks
    ensures S.Blanks(b, i, col, s, k)
      == S.Blanks(b, i + |LinesBytes(lines)|, ColumnAfter(lines, col), s, k.(trailing := k.trailing + LinesText(lines)))
    decreases |lines|
  {
    hide *;
    if lines == [] {
      NoLines(col);
      assert k.trailing + [] == k.trailing;
    } else {
      var line, rest := lines[0], lines[1..];
      assert lines == [line] + rest;
      LinesStep(line, rest);
      LineRead(b, i, col, s, k, line, rest);
      var next := k.(trailing := k.trailing + BrkText(line.brk));
      LinesRead(b, i + |BrkBytes(line.brk)| + |line.blanks|, |line.blanks|, s, next, rest);
      ColumnStep(line, rest, col);
      assert k.trailing + BrkText(line.brk) + LinesText(rest) == k.trailing + LinesText(lines);
    }
  }

  lemma ColumnStep(line: Line, rest: seq<Line>, col: nat)
    ensures ColumnAfter([line] + rest, col) == ColumnAfter(rest, |line.blanks|)
  {
  }

  // The scanner at the place where a gap begins, after a word or an escaped break.
  function Going(b: Bytes, i: nat, col: nat, s: Bytes, cut: bool): S.Result
    requires i <= |b|
  {
    if cut then S.AfterInner(b, i, col, s, true) else S.Inner(b, i, col, s)
  }

  // At a word or the right quote, unless a line begins there like an indicator.
  function Arrived(b: Bytes, i: nat, col: nat, s: Bytes): S.Result
    requires i <= |b|
  {
    if col == 0 && R.IndicatorLine(b, i) then S.Err(S.DocumentIndicator) else S.Inner(b, i, col, s)
  }

  lemma ArrivedIs(b: Bytes, i: nat, col: nat, s: Bytes, k: S.Blank)
    requires Stops(b, i)
    ensures S.Blanks(b, i, col, s, k) == Arrived(b, i, col, s + S.Join(k))
  {
    hide S.Join;
    assert !IsBlank(b, i) && !IsBreak(b, i) && !IsZ(b, i);
    hide IsBlank, IsBreak, IsZ, S.Inner, S.Indicator;
    assert S.Blanks(b, i, col, s, k) == S.Outer(b, i, col, s + S.Join(k));
  }

  // A gap is read as the text it means.
  lemma GapRead(b: Bytes, i: nat, col: nat, s: Bytes, g: Gap, cut: bool)
    requires GapOk(g) && Has(b, i, GapBytes(g)) && Stops(b, i + |GapBytes(g)|) && (if cut then col == 0 else col > 0)
    ensures i <= |b|
    ensures var col' := ColumnAfter(g.lines, col + |g.before|);
      Going(b, i, col, s, cut) == Arrived(b, i + |GapBytes(g)|, col', s + Folded(g, cut)) && (col' == 0 <==> BeginsLine(g, cut))
  {
    hide S.Blanks, S.Inner, S.AfterInner, Arrived, LinesBytes, Folded, BeginsLine, Stops, Has;
    R.HasInside(b, i, GapBytes(g));
    HasSplit(b, i, g.before, LinesBytes(g.lines));
    R.HasInside(b, i, g.before);
    if g == NONE {
      NothingIn(col, cut);
      assert s + [] == s;
      NoGap(b, i, col, s, cut);
    } else {
      StartsGap(b, i, col, s, g, cut);
      BlanksRead(b, i, col, s, S.NO_BLANKS.(leadingBlanks := cut), g.before);
      assert [] + g.before == g.before;
      GapLines(b, i, col, s, g, cut);
    }
  }

  lemma NothingIn(col: nat, cut: bool)
    requires if cut then col == 0 else col > 0
    ensures GapBytes(NONE) == [] && ColumnAfter([], col) == col && Folded(NONE, cut) == [] && (col == 0 <==> BeginsLine(NONE, cut))
  {
  }

  lemma NoGap(b: Bytes, i: nat, col: nat, s: Bytes, cut: bool)
    requires Stops(b, i) && (if cut then col == 0 else col > 0)
    ensures Going(b, i, col, s, cut) == Arrived(b, i, col, s)
  {
    if cut {
      var k := S.NO_BLANKS.(leadingBlanks := true);
      assert s + S.Join(k) == s;
      ArrivedIs(b, i, col, s, k);
      if At(b, i) == 0x22 { assert S.Inner(b, i, col, s) == S.Ok(s, i + 1, col + 1); }
    }
  }

  lemma StartsGap(b: Bytes, i: nat, col: nat, s: Bytes, g: Gap, cut: bool)
    requires g != NONE && GapOk(g) && Has(b, i, GapBytes(g)) && i <= |b|
    ensures Going(b, i, col, s, cut) == S.Blanks(b, i, col, s, S.NO_BLANKS.(leadingBlanks := cut))
  {
    hide S.Blanks, LinesBytes, Has, IsBreak;
    if g.before != [] {
      FirstBlank(g.before);
      HasSplit(b, i, g.before, LinesBytes(g.lines));
      HasAt(b, i, g.before, 0);
    } else {
      assert [] + LinesBytes(g.lines) == LinesBytes(g.lines);
      FirstOfLines(b, i, g.lines);
    }
    assert IsBlankz(b, i) && At(b, i) != 0x22;
    BlankHere(b, i, col, s, cut);
  }

  lemma BlankHere(b: Bytes, i: nat, col: nat, s: Bytes, cut: bool)
    requires i <= |b| && IsBlankz(b, i) && At(b, i) != 0x22
    ensures Going(b, i, col, s, cut) == S.Blanks(b, i, col, s, S.NO_BLANKS.(leadingBlanks := cut))
  {
    hide S.Blanks, IsBlankz, At;
    var k := S.NO_BLANKS.(leadingBlanks := cut);
    assert !cut ==> S.Inner(b, i, col, s) == S.AfterInner(b, i, col, s, false);
  }

  lemma FirstOfLines(b: Bytes, i: nat, lines: seq<Line>)
    requires lines != [] && Has(b, i, LinesBytes(lines))
    ensures IsBreak(b, i) && At(b, i) != 0x22
  {
    hide BrkBytes, IsBreak, At, Has;
    var line := lines[0];
    assert LinesBytes(lines) == BrkBytes(line.brk) + (line.blanks + LinesBytes(lines[1..]));
    HasSplit(b, i, BrkBytes(line.brk), line.blanks + LinesBytes(lines[1..]));
    BrkStarts(b, i, line.brk);
  }

  lemma BrkStarts(b: Bytes, i: nat, k: Brk)
    requires Has(b, i, BrkBytes(k))
    ensures IsBreak(b, i) && At(b, i) != 0x22
  {
    HasAt(b, i, BrkBytes(k), 0);
    if |BrkBytes(k)| > 1 { HasAt(b, i, BrkBytes(k), 1); }
    if |BrkBytes(k)| > 2 { HasAt(b, i, BrkBytes(k), 2); }
    hide Has;
  }

  lemma GapLines(b: Bytes, i: nat, col: nat, s: Bytes, g: Gap, cut: bool)
    requires GapOk(g) && Has(b, i + |g.before|, LinesBytes(g.lines)) && Stops(b, i + |GapBytes(g)|) && (if cut then col == 0 else col > 0)
    requires i + |g.before| <= |b|
    ensures var k := S.NO_BLANKS.(leadingBlanks := cut, spaces := if cut then [] else g.before);
      var col' := ColumnAfter(g.lines, col + |g.before|);
      && S.Blanks(b, i + |g.before|, col + |g.before|, s, k) == Arrived(b, i + |GapBytes(g)|, col', s + Folded(g, cut))
      && (col' == 0 <==> BeginsLine(g, cut))
  {
    var k := S.NO_BLANKS.(leadingBlanks := cut, spaces := if cut then [] else g.before);
    var j, c := i + |g.before|, col + |g.before|;
    hide S.Blanks, Has, Stops, LinesBytes, Arrived, BrkText, LinesText;
    if g.lines == [] {
      NoLines(c);
      assert g.before + [] == g.before && [] + [] == k.leading;
      ArrivedIs(b, j, c, s, k);
    } else if cut {
      LinesRead(b, j, c, s, k, g.lines);
      ArrivedIs(b, j + |LinesBytes(g.lines)|, ColumnAfter(g.lines, c), s, k.(trailing := [] + LinesText(g.lines)));
      assert [] + LinesText(g.lines) == LinesText(g.lines);
    } else {
      var line, rest := g.lines[0], g.lines[1..];
      assert g.lines == [line] + rest;
      LineRead(b, j, c, s, k, line, rest);
      var j', k' := j + |BrkBytes(line.brk)| + |line.blanks|, S.Blank(true, [] + BrkText(line.brk), [], []);
      LinesRead(b, j', |line.blanks|, s, k', rest);
      ArrivedIs(b, j' + |LinesBytes(rest)|, ColumnAfter(rest, |line.blanks|), s, k'.(trailing := [] + LinesText(rest)));
      FirstBreak(g);
    }
  }

  lemma NoLines(col: nat)
    ensures LinesBytes([]) == [] && LinesText([]) == [] && ColumnAfter([], col) == col
  {
  }

  // How the scanner joins the breaks is how they are folded.
  lemma FirstBreak(g: Gap)
    requires g.lines != []
    ensures S.Join(S.Blank(true, [] + BrkText(g.lines[0].brk), [] + LinesText(g.lines[1..]), [])) == Folded(g, false)
  {
    LinesTextNone(g.lines[1..]);
    assert [] + LinesText(g.lines[1..]) == LinesText(g.lines[1..]);
  }

  lemma LinesTextNone(lines: seq<Line>)
    ensures LinesText(lines) == [] <==> lines == []
  {
  }

  // ---------- words ----------

  lemma LetterMeans(c: byte)
    ensures match Meant(c) case Some(v) => S.Simple(c) == S.Some(Utf8(v)) case None => S.Simple(c) == S.None
  {
  }

  lemma {:induction false} HexRead(b: Bytes, i: nat, digits: Bytes)
    requires Has(b, i, digits) && forall d :: d in digits ==> IsHexDigit(d)
    ensures S.HexValue(b, i, |digits|) == S.Some(Number16(digits))
    decreases |digits|
  {
    if digits != [] {
      var n := |digits| - 1;
      assert digits == digits[..n] + [digits[n]];
      HasSplit(b, i, digits[..n], [digits[n]]);
      HasAt(b, i + n, [digits[n]], 0);
      assert digits[n] in digits;
      assert forall d :: d in digits[..n] ==> d in digits;
      HexRead(b, i, digits[..n]);
    }
  }

  lemma CodeMeans(v: Scalar)
    ensures S.CodeBytes(v) == S.Some(Utf8(v))
  {
  }

  lemma WordRead(b: Bytes, i: nat, col: nat, s: Bytes, w: Word) returns (col': nat)
    requires WordOk(w) && !w.Cut? && Has(b, i, WordBytes(w))
    ensures Stops(b, i) && i + |WordBytes(w)| <= |b|
    ensures col' > col && S.Inner(b, i, col, s) == S.Inner(b, i + |WordBytes(w)|, col', s + WordText(w))
  {
    hide S.Inner, Has, Stops, Utf8, Number16, LineBreak;
    match w
    case Char(v) => CharRead(b, i, col, s, v); col' := col + 1;
    case Letter(c) => LetterRead(b, i, col, s, c); col' := col + 2;
    case Code(c, digits) => CodeRead(b, i, col, s, c, digits); col' := col + 2 + |digits|;
  }

  lemma LetterRead(b: Bytes, i: nat, col: nat, s: Bytes, c: byte)
    requires Meant(c).Some? && Has(b, i, [0x5C, c])
    ensures Stops(b, i) && i + 2 <= |b| && S.Inner(b, i, col, s) == S.Inner(b, i + 2, col + 2, s + Utf8(Meant(c).value))
  {
    R.HasInside(b, i, [0x5C, c]);
    HasAt(b, i, [0x5C, c], 0);
    HasAt(b, i, [0x5C, c], 1);
    LetterMeans(c);
    LetterBreak(c, b, i);
    hide Has, Meant, Utf8, S.Simple, S.CodeLength;
    assert S.EscapeAt(b, i) == S.Esc(Utf8(Meant(c).value), 2);
  }

  lemma LetterBreak(c: byte, b: Bytes, i: nat)
    requires Meant(c).Some? && At(b, i + 1) == c
    ensures !IsBreak(b, i + 1)
  {
  }

  lemma CharRead(b: Bytes, i: nat, col: nat, s: Bytes, v: Scalar)
    requires WordOk(Char(v)) && Has(b, i, Utf8(v))
    ensures Stops(b, i) && i + |Utf8(v)| <= |b| && S.Inner(b, i, col, s) == S.Inner(b, i + |Utf8(v)|, col + 1, s + Utf8(v))
  {
    TestsOfChar(b, i, v);
    WidthOfChar(b, i, v);
    hide IsBreak, Utf8, Width, LineBreak;
  }

  lemma CodeRead(b: Bytes, i: nat, col: nat, s: Bytes, c: byte, digits: Bytes)
    requires WordOk(Code(c, digits)) && Has(b, i, [0x5C, c] + digits)
    ensures Stops(b, i) && i + 2 + |digits| <= |b|
    ensures var n := 2 + |digits|; S.Inner(b, i, col, s) == S.Inner(b, i + n, col + n, s + Utf8(Number16(digits)))
  {
    HasSplit(b, i, [0x5C, c], digits);
    HasAt(b, i, [0x5C, c], 0);
    HasAt(b, i, [0x5C, c], 1);
    R.HasInside(b, i + 2, digits);
    HexRead(b, i + 2, digits);
    CodeMeans(Number16(digits));
    hide Has, S.HexValue, S.CodeBytes, Utf8, Number16;
    assert S.CodeAt(b, i, |digits|) == S.Esc(Utf8(Number16(digits)), |digits| + 2);
    assert !IsBreak(b, i + 1);
    assert S.EscapeAt(b, i) == S.Esc(Utf8(Number16(digits)), |digits| + 2);
  }

  lemma CutRead(b: Bytes, i: nat, col: nat, s: Bytes, k: Brk)
    requires Has(b, i, [0x5C] + BrkBytes(k)) && (k == Cr ==> At(b, i + 2) != 0x0A)
    ensures var j := i + 1 + |BrkBytes(k)|; Stops(b, i) && j <= |b| && S.Inner(b, i, col, s) == Going(b, j, 0, s, true)
  {
    R.HasInside(b, i, [0x5C] + BrkBytes(k));
    HasSplit(b, i, [0x5C], BrkBytes(k));
    HasAt(b, i, [0x5C], 0);
    BrkRead(b, i + 1, k);
    hide IsBreak, S.BreakLength, S.BreakText, Has;
  }

  // ---------- lines that look like indicators ----------

  lemma WordStops(b: Bytes, i: nat, w: Word)
    requires WordOk(w) && Has(b, i, WordBytes(w))
    ensures WordBytes(w) != [] && Stops(b, i) && !IsBreak(b, i)
  {
    R.HasInside(b, i, WordBytes(w));
    match w
    case Char(v) => TestsOfChar(b, i, v);
    case _ => HasAt(b, i, WordBytes(w), 0);
  }

  // The first byte of a word tells whether it is a certain plain character.
  lemma WordFirst(b: Bytes, i: nat, w: Word, d: byte)
    requires WordOk(w) && Has(b, i, WordBytes(w)) && (d == 0x2D || d == 0x2E)
    ensures At(b, i) == d <==> w == Char(d)
    ensures WordBytes(Char(d)) == [d]
  {
    match w
    case Char(v) => TestsOfChar(b, i, v);
    case _ => HasAt(b, i, WordBytes(w), 0);
  }

  // The pieces of what is written from a gap on.
  lemma EndStands(b: Bytes, i: nat, last: Gap)
    requires Has(b, i, Written([], last) + [0x22])
    ensures var j := i + |GapBytes(last)|; Has(b, i, GapBytes(last)) && j < |b| && At(b, j) == 0x22 && Stops(b, j)
    ensures |Written([], last)| == |GapBytes(last)|
  {
    hide GapBytes;
    HasSplit(b, i, GapBytes(last), [0x22]);
    HasAt(b, i + |GapBytes(last)|, [0x22], 0);
    R.HasInside(b, i + |GapBytes(last)|, [0x22]);
  }

  lemma PartStands(b: Bytes, i: nat, parts: seq<Part>, last: Gap)
    requires parts != [] && TextOk(parts, last) && Has(b, i, Written(parts, last) + [0x22])
    ensures var g, w := parts[0].gap, parts[0].word; var j := i + |GapBytes(g)|; var k := j + |WordBytes(w)|;
      && Has(b, i, GapBytes(g)) && Has(b, j, WordBytes(w)) && Stops(b, j) && Has(b, k, Written(parts[1..], last) + [0x22])
      && GapOk(g) && WordOk(w) && TextOk(parts[1..], last) && (w.Cut? ==> NoJoin(w.brk, NextGap(parts[1..], last)))
      && i + |Written(parts, last)| == k + |Written(parts[1..], last)|
  {
    hide GapBytes, WordBytes, GapOk, WordOk, Stops, NoJoin, Has;
    var g, w, rest := GapBytes(parts[0].gap), WordBytes(parts[0].word), Written(parts[1..], last);
    assert g + (w + rest) + [0x22] == g + (w + (rest + [0x22]));
    HasSplit(b, i, g, w + (rest + [0x22]));
    HasSplit(b, i + |g|, w, rest + [0x22]);
    WordStops(b, i + |g|, parts[0].word);
  }

  // A gap starts with a blank or a line break, and nothing else does.
  lemma GapFirst(b: Bytes, i: nat, parts: seq<Part>, last: Gap)
    requires TextOk(parts, last) && Has(b, i, Written(parts, last) + [0x22])
    ensures var g := NextGap(parts, last);
      && Has(b, i, GapBytes(g)) && GapOk(g) && Stops(b, i + |GapBytes(g)|)
      && (IsBlankz(b, i) <==> g != NONE)
  {
    hide Written, GapBytes, Has, LinesOk, Stops, IsBlankz;
    if parts == [] { EndStands(b, i, last); } else { PartStands(b, i, parts, last); }
    GapStarts(b, i, NextGap(parts, last));
  }

  lemma GapStarts(b: Bytes, i: nat, g: Gap)
    requires GapOk(g) && Has(b, i, GapBytes(g)) && Stops(b, i + |GapBytes(g)|)
    ensures IsBlankz(b, i) <==> g != NONE
  {
    if g != NONE {
      R.HasInside(b, i, GapBytes(g));
      hide LinesBytes, Has, IsBreak;
      if g.before != [] {
        FirstBlank(g.before);
        HasSplit(b, i, g.before, LinesBytes(g.lines));
        HasAt(b, i, g.before, 0);
      } else {
        assert [] + LinesBytes(g.lines) == LinesBytes(g.lines);
        FirstOfLines(b, i, g.lines);
      }
    }
  }

  lemma {:induction false} RunWritten(b: Bytes, i: nat, w: Word, parts: seq<Part>, last: Gap, d: byte, n: nat)
    requires n > 0 && (d == 0x2D || d == 0x2E) && WordOk(w) && TextOk(parts, last)
    requires Has(b, i, WordBytes(w)) && Has(b, i + |WordBytes(w)|, Written(parts, last) + [0x22])
    ensures R.RunAt(b, i, d, n) <==> Run(w, parts, last, d, n)
    decreases n
  {
    hide WordBytes, Written, IsBlankz, WordOk, TextOk, GapOk, Has, Stops;
    WordFirst(b, i, w, d);
    if w == Char(d) {
      GapFirst(b, i + 1, parts, last);
      if n > 1 {
        if parts == [] {
          NoWordAt(b, i + 1, last, d);
        } else if parts[0].gap != NONE {
          BlankIsNot(b, i + 1, d);
        } else {
          NoneWritten();
          PartStands(b, i + 1, parts, last);
          RunWritten(b, i + 1, parts[0].word, parts[1..], last, d, n - 1);
        }
      }
    }
  }

  lemma NoneWritten()
    ensures GapBytes(NONE) == []
  {
  }

  lemma BlankIsNot(b: Bytes, i: nat, d: byte)
    requires IsBlankz(b, i) && (d == 0x2D || d == 0x2E)
    ensures At(b, i) != d
  {
  }

  lemma NoWordAt(b: Bytes, i: nat, last: Gap, d: byte)
    requires (d == 0x2D || d == 0x2E) && GapOk(last) && Has(b, i, Written([], last) + [0x22])
    ensures At(b, i) != d
  {
    EndStands(b, i, last);
    GapStarts(b, i, last);
    hide IsBlankz, Has;
    if last == NONE { NoneWritten(); } else { BlankIsNot(b, i, d); }
  }

  lemma MarkerWritten(b: Bytes, i: nat, w: Word, parts: seq<Part>, last: Gap)
    requires WordOk(w) && TextOk(parts, last)
    requires Has(b, i, WordBytes(w)) && Has(b, i + |WordBytes(w)|, Written(parts, last) + [0x22])
    ensures R.IndicatorLine(b, i) <==> Marker(w, parts, last)
  {
    hide *;
    R.IndicatorLineIs(b, i);
    RunWritten(b, i, w, parts, last, 0x2D, 3);
    RunWritten(b, i, w, parts, last, 0x2E, 3);
    MarkerIs(w, parts, last);
  }

  lemma MarkerIs(w: Word, parts: seq<Part>, last: Gap)
    ensures Marker(w, parts, last) <==> Run(w, parts, last, 0x2D, 3) || Run(w, parts, last, 0x2E, 3)
  {
  }

  // ---------- whole scalars ----------

  // From any gap on: what is left is read as what it means, to its right quote, or
  // a line of it is taken for an indicator.
  lemma {:induction false} Reads(b: Bytes, i: nat, col: nat, s: Bytes, parts: seq<Part>, last: Gap, cut: bool)
    requires TextOk(parts, last) && Has(b, i, Written(parts, last) + [0x22]) && (if cut then col == 0 else col > 0)
    ensures i <= |b|
    ensures if NoMarker(parts, last, cut)
            then R.ReadsTo(Going(b, i, col, s, cut), s + Meaning(parts, last, cut), i + |Written(parts, last)| + 1)
            else Going(b, i, col, s, cut) == S.Err(S.DocumentIndicator)
    decreases |parts|
  {
    hide *;
    R.HasInside(b, i, Written(parts, last) + [0x22]);
    GapFirst(b, i, parts, last);
    var g := NextGap(parts, last);
    GapRead(b, i, col, s, g, cut);
    var j, c, s' := i + |GapBytes(g)|, ColumnAfter(g.lines, col + |g.before|), s + Folded(g, cut);
    if parts == [] {
      TextEnds(last, cut);
      EndStands(b, i, last);
      QuoteRead(b, j, c, s');
      R.ReadsToMeans(Going(b, i, col, s, cut), s', j + 1);
    } else {
      var w, rest := parts[0].word, parts[1..];
      TextGoes(parts, last, cut);
      PartStands(b, i, parts, last);
      MarkerWritten(b, j, w, rest, last);
      ArrivedMeans(b, j, c, s');
      if !(BeginsLine(g, cut) && Marker(w, rest, last)) {
        var k := j + |WordBytes(w)|;
        var c' := NextWord(b, j, c, s', w, rest, last);
        Reads(b, k, c', s' + WordText(w), rest, last, w.Cut?);
        Regroup(s, Folded(g, cut), WordText(w), Meaning(rest, last, w.Cut?));
      }
    }
  }

  lemma Regroup(a: Bytes, x: Bytes, y: Bytes, z: Bytes)
    ensures a + x + y + z == a + (x + (y + z))
  {
  }

  lemma TextEnds(last: Gap, cut: bool)
    requires TextOk([], last)
    ensures NoMarker([], last, cut) && Meaning([], last, cut) == Folded(last, cut) && NextGap([], last) == last
  {
  }

  lemma TextGoes(parts: seq<Part>, last: Gap, cut: bool)
    requires parts != [] && TextOk(parts, last)
    ensures var w, rest := parts[0].word, parts[1..];
      && NextGap(parts, last) == parts[0].gap && WordOk(w) && TextOk(rest, last)
      && (NoMarker(parts, last, cut) <==> !(BeginsLine(parts[0].gap, cut) && Marker(w, rest, last)) && NoMarker(rest, last, w.Cut?))
      && Meaning(parts, last, cut) == Folded(parts[0].gap, cut) + (WordText(w) + Meaning(rest, last, w.Cut?))
  {
    hide Folded, WordText, Marker, GapOk;
  }

  lemma ArrivedMeans(b: Bytes, i: nat, col: nat, s: Bytes)
    requires i <= |b|
    ensures Arrived(b, i, col, s) == if col == 0 && R.IndicatorLine(b, i) then S.Err(S.DocumentIndicator) else S.Inner(b, i, col, s)
  {
  }

  lemma QuoteRead(b: Bytes, i: nat, col: nat, s: Bytes)
    requires i < |b| && At(b, i) == 0x22
    ensures Arrived(b, i, col, s) == S.Ok(s, i + 1, col + 1)
  {
    hide IsBlankz;
    assert !R.IndicatorLine(b, i);
    assert S.Inner(b, i, col, s) == S.AfterInner(b, i, col, s, false);
  }

  // A word, and the gap after it.
  lemma NextWord(b: Bytes, i: nat, col: nat, s: Bytes, w: Word, rest: seq<Part>, last: Gap) returns (col': nat)
    requires WordOk(w) && TextOk(rest, last) && Has(b, i, WordBytes(w)) && Has(b, i + |WordBytes(w)|, Written(rest, last) + [0x22])
    requires w.Cut? ==> NoJoin(w.brk, NextGap(rest, last))
    ensures var k := i + |WordBytes(w)|;
      && k <= |b| && S.Inner(b, i, col, s) == Going(b, k, col', s + WordText(w), w.Cut?) && (if w.Cut? then col' == 0 else col' > 0)
  {
    hide *;
    var k, g := i + |WordBytes(w)|, NextGap(rest, last);
    if w.Cut? {
      GapFirst(b, k, rest, last);
      CutIs(w);
      BrkLength(w.brk);
      if w.brk == Cr { NotJoined(b, k, Cr, g); }
      CutRead(b, i, col, s, w.brk);
      assert s + [] == s;
      col' := 0;
    } else {
      col' := WordRead(b, i, col, s, w);
      GoingIs(b, k, col', s + WordText(w));
    }
  }

  lemma CutIs(w: Word)
    requires w.Cut?
    ensures WordBytes(w) == [0x5C] + BrkBytes(w.brk) && WordOk(w) && WordText(w) == []
  {
  }

  lemma GoingIs(b: Bytes, i: nat, col: nat, s: Bytes)
    requires i <= |b|
    ensures Going(b, i, col, s, false) == S.Inner(b, i, col, s)
  {
  }

  function Quoted(t: Text): Bytes {
    [0x22] + (Written(t.parts, t.last) + [0x22])
  }

  // Every double-quoted scalar, wherever it stands, is read as its text and to its
  // right quote; only a line that starts like a document indicator stops it.
  lemma ScanMeans(b: Bytes, i: nat, col: nat, t: Text)
    requires TextOk(t.parts, t.last) && Has(b, i, Quoted(t))
    ensures i < |b|
    ensures if NoMarker(t.parts, t.last, false)
            then R.ReadsTo(S.Scan(b, i, col), Meaning(t.parts, t.last, false), i + |Quoted(t)|)
            else S.Scan(b, i, col) == S.Err(S.DocumentIndicator)
  {
    hide *;
    QuotedIs(t);
    var inner := Written(t.parts, t.last) + [0x22];
    HasSplit(b, i, [0x22], inner);
    R.HasInside(b, i, Quoted(t));
    Reads(b, i + 1, col + 1, [], t.parts, t.last, false);
    assert [] + Meaning(t.parts, t.last, false) == Meaning(t.parts, t.last, false);
    GoingIs(b, i + 1, col + 1, []);
    if NoMarker(t.parts, t.last, false) {
      R.ReadsToMeans(S.Inner(b, i + 1, col + 1, []), Meaning(t.parts, t.last, false), i + |Quoted(t)|);
    }
    R.ScanIsInner(b, i, col);
  }

  lemma QuotedIs(t: Text)
    ensures Quoted(t) == [0x22] + (Written(t.parts, t.last) + [0x22])
  {
    hide Written;
  }

  // The same of the method: the bytes of a scalar come out as its text.
  method Read(t: Text) returns (r: S.Option<Bytes>)
    requires TextOk(t.parts, t.last)
    ensures r == if NoMarker(t.parts, t.last, false) then S.Some(Meaning(t.parts, t.last, false)) else S.None
  {
    hide *;
    var b := Quoted(t);
    WholeBuffer(t);
    var scanner := new S.Scanner(b);
    ghost var problem;
    r, problem := scanner.ScanFlowScalar();
    AnswersMean(scanner, r, problem, b, t);
  }

  lemma WholeBuffer(t: Text)
    requires TextOk(t.parts, t.last)
    ensures var b := Quoted(t);
      && |b| > 0 && At(b, 0) == 0x22
      && if NoMarker(t.parts, t.last, false) then S.Scan(b, 0, 0).Ok? && S.Scan(b, 0, 0).value == Meaning(t.parts, t.last, false)
         else S.Scan(b, 0, 0) == S.Err(S.DocumentIndicator)
  {
    hide Written, Meaning, NoMarker, S.Scan, R.ReadsTo;
    var b := Quoted(t);
    assert b[0..|b|] == b;
    ScanMeans(b, 0, 0, t);
    if NoMarker(t.parts, t.last, false) { R.ReadsToMeans(S.Scan(b, 0, 0), Meaning(t.parts, t.last, false), |b|); }
  }

  lemma AnswersMean(scanner: S.Scanner, r: S.Option<Bytes>, problem: S.Problem, b: Bytes, t: Text)
    requires b == Quoted(t) && |b| > 0 && scanner.Answers(r, problem, S.Scan(b, 0, 0))
    ensures match S.Scan(b, 0, 0) case Ok(value, _, _) => r == S.Some(value) case Err(_) => r == S.None
  {
    hide S.Scan, Quoted;
  }

  function Feeds(n: nat): (r: Bytes)
    ensures |r| == n && forall k :: 0 <= k < n ==> r[k] == 0x0A
  {
    if n == 0 then [] else [0x0A] + Feeds(n - 1)
  }

  // Between two lines n line feeds, whatever blanks are around them, are a space if
  // n is one and n - 1 line feeds otherwise; after an escaped line break all of them
  // count.
  lemma {:induction false} FeedsFolded(g: Gap, cut: bool)
    requires g.lines != [] && forall k :: 0 <= k < |g.lines| ==> g.lines[k].brk != Ls && g.lines[k].brk != Ps
    ensures Folded(g, cut) == if cut then Feeds(|g.lines|) else if |g.lines| == 1 then [0x20] else Feeds(|g.lines| - 1)
  {
    FeedsText(g.lines);
    FeedsText(g.lines[1..]);
    assert g.lines[0].brk != Ls && g.lines[0].brk != Ps;
  }

  lemma {:induction false} FeedsText(lines: seq<Line>)
    requires forall k :: 0 <= k < |lines| ==> lines[k].brk != Ls && lines[k].brk != Ps
    ensures LinesText(lines) == Feeds(|lines|)
  {
    if lines != [] {
      assert lines[0].brk != Ls;
      FeedsText(lines[1..]);
    }
  }

  // A scalar with one blank line between a and b has one line feed.
  lemma BlankLine()
    ensures S.Scan([0x22, 0x61, 0x0A, 0x0A, 0x62, 0x22], 0, 0).Ok?
    ensures S.Scan([0x22, 0x61, 0x0A, 0x0A, 0x62, 0x22], 0, 0).value == [0x61, 0x0A, 0x62]
  {
    hide S.Scan, R.ReadsTo;
    var feed := Line(Lf, []);
    var g := Gap([], [feed, feed]);
    var second := Part(g, Char(0x62));
    var parts := [Part(NONE, Char(0x61)), second];
    assert parts[1..] == [second] && [second][1..] == [] && g.lines[1..] == [feed] && [feed][1..] == [];
    assert LinesOk([]) && LinesOk([feed]) && LinesOk(g.lines);
    assert TextOk([], NONE) && TextOk([second], NONE) && TextOk(parts, NONE);
    assert NoMarker([], NONE, false) && NoMarker([second], NONE, false) && NoMarker(parts, NONE, false);
    assert LinesBytes([]) == [] && LinesText([]) == [];
    assert LinesBytes([feed]) == [0x0A] + [] + [] && LinesBytes(g.lines) == [0x0A] + [] + LinesBytes([feed]);
    assert Written([], NONE) == [] + [] && Written([second], NONE) == GapBytes(g) + ([0x62] + Written([], NONE));
    assert Written(parts, NONE) == GapBytes(NONE) + ([0x61] + Written([second], NONE));
    FeedsFolded(g, false);
    assert Feeds(1) == [0x0A] + Feeds(0);
    assert Meaning([], NONE, false) == [] && Meaning([second], NONE, false) == Feeds(1) + ([0x62] + []);
    assert Meaning(parts, NONE, false) == [] + ([0x61] + Meaning([second], NONE, false));
    WholeBuffer(Text(parts, NONE));
    assert Quoted(Text(parts, NONE)) == [0x22, 0x61, 0x0A, 0x0A, 0x62, 0x22];
  }

  // What the scanner refuses among escape sequences: letters without a meaning,
  // digits that are none, and numbers that are no character.
  lemma EscapeRefused(b: Bytes, i: nat, col: nat, s: Bytes, digits: Bytes)
    requires i <= |b| && At(b, i) == 0x5C && !IsBreak(b, i + 1)
    ensures var c := At(b, i + 1); Meant(c) == S.None && c != 0x78 && c != 0x75 && c != 0x55 ==>
      S.Inner(b, i, col, s) == S.Err(S.UnknownEscape)
    ensures var c := At(b, i + 1);
      && (c == 0x78 ==> |digits| == 2) && (c == 0x75 ==> |digits| == 4) && (c == 0x55 ==> |digits| == 8)
      && (c == 0x78 || c == 0x75 || c == 0x55) && Has(b, i + 2, digits) ==>
      if exists d :: d in digits && !IsHexDigit(d) then S.Inner(b, i, col, s) == S.Err(S.NotHex)
      else Number16(digits) > 0x10FFFF || 0xD800 <= Number16(digits) < 0xE000 ==> S.Inner(b, i, col, s) == S.Err(S.BadCode)
  {
    var c := At(b, i + 1);
    LetterMeans(c);
    LettersOrCodes(c);
    if Has(b, i + 2, digits) { CodeRefused(b, i, digits); }
    hide Meant, S.Simple, S.CodeLength, Number16, Has, IsHexDigit, S.CodeAt;
    assert !IsBlankz(b, i);
  }

  lemma LettersOrCodes(c: byte)
    ensures S.CodeLength(c) == if c == 0x78 then 2 else if c == 0x75 then 4 else if c == 0x55 then 8 else 0
    ensures c == 0x78 || c == 0x75 || c == 0x55 ==> Meant(c) == S.None
  {
  }

  lemma CodeRefused(b: Bytes, i: nat, digits: Bytes)
    requires Has(b, i + 2, digits)
    ensures (exists d :: d in digits && !IsHexDigit(d)) ==> S.CodeAt(b, i, |digits|) == S.BadEsc(S.NotHex)
    ensures !(exists d :: d in digits && !IsHexDigit(d)) && (Number16(digits) > 0x10FFFF || 0xD800 <= Number16(digits) < 0xE000) ==>
      S.CodeAt(b, i, |digits|) == S.BadEsc(S.BadCode)
  {
    if d :| d in digits && !IsHexDigit(d) {
      var k :| 0 <= k < |digits| && digits[k] == d;
      HexRefused(b, i, digits, k);
    } else {
      HexRead(b, i + 2, digits);
      hide S.HexValue, Has, Number16;
    }
  }

  lemma HexRefused(b: Bytes, i: nat, digits: Bytes, k: nat)
    requires Has(b, i + 2, digits) && k < |digits| && !IsHexDigit(digits[k])
    ensures S.CodeAt(b, i, |digits|) == S.BadEsc(S.NotHex)
  {
    HasAt(b, i + 2, digits, k);
    hide Has, At, S.CodeBytes;
    assert S.HexValue(b, i + 2, k + 1) == S.None;
    S.HexStops(b, i + 2, k + 1, |digits|);
  }

  // ---------- where a scan can end ----------

  // A scalar that is taken ends with a right quotation mark past i.
  predicate Closed(b: Bytes, i: nat, r: S.Result) {
    r.Ok? ==> i < r.pos <= |b| && b[r.pos - 1] == 0x22
  }

  lemma {:induction false} OuterCloses(b: Bytes, i: nat, col: nat, s: Bytes)
    requires i <= |b|
    ensures Closed(b, i, S.Outer(b, i, col, s))
    decreases |b| - i, if IsZ(b, i) then 0 else 6
  {
    hide S.Inner, IsBlank, IsBreak, R.IndicatorLine;
    if !IsZ(b, i) { InnerCloses(b, i, col, s); }
  }

  lemma {:induction false} InnerCloses(b: Bytes, i: nat, col: nat, s: Bytes)
    requires i <= |b|
    ensures Closed(b, i, S.Inner(b, i, col, s))
    decreases |b| - i, 4
  {
    hide Closed, S.AfterInner, S.EscapeAt, S.BreakLength, IsBlank, IsBreak, At, Width;
    if IsBlankz(b, i) || At(b, i) == 0x22 {
      AfterCloses(b, i, col, s, false);
    } else if At(b, i) == 0x5C && IsBreak(b, i + 1) {
      var j := i + 1 + S.BreakLength(b, i + 1);
      AfterCloses(b, j, 0, s, true);
      ClosedBefore(b, i, j, S.AfterInner(b, j, 0, s, true));
    } else if At(b, i) == 0x5C {
      match S.EscapeAt(b, i)
      case BadEsc(problem) => NotClosed(b, i, problem);
      case Esc(text, length) =>
        InnerCloses(b, i + length, col + length, s + text);
        ClosedBefore(b, i, i + length, S.Inner(b, i + length, col + length, s + text));
    } else {
      var w := Width(At(b, i));
      if w == 0 || i + w > |b| {
        NotClosed(b, i, S.BadSequence);
      } else {
        InnerCloses(b, i + w, col + 1, s + b[i..i + w]);
        ClosedBefore(b, i, i + w, S.Inner(b, i + w, col + 1, s + b[i..i + w]));
      }
    }
  }

  lemma {:induction false} AfterCloses(b: Bytes, i: nat, col: nat, s: Bytes, leadingBlanks: bool)
    requires i <= |b|
    ensures Closed(b, i, S.AfterInner(b, i, col, s, leadingBlanks))
    decreases |b| - i, if IsBlankz(b, i) || At(b, i) == 0x22 then 3 else 9
  {
    hide S.Blanks, IsBlank, IsBreak;
    if At(b, i) != 0x22 { BlanksClose(b, i, col, s, S.NO_BLANKS.(leadingBlanks := leadingBlanks)); }
  }

  lemma {:induction false} BlanksClose(b: Bytes, i: nat, col: nat, s: Bytes, k: S.Blank)
    requires i <= |b|
    ensures Closed(b, i, S.Blanks(b, i, col, s, k))
    decreases |b| - i, if IsBlankz(b, i) then 2 else 8
  {
    hide Closed, S.Outer, S.BreakLength, S.BreakText, S.Join, IsBreak;
    if IsBlank(b, i) {
      var k' := if k.leadingBlanks then k else k.(spaces := k.spaces + [At(b, i)]);
      BlanksClose(b, i + 1, col + 1, s, k');
      ClosedBefore(b, i, i + 1, S.Blanks(b, i + 1, col + 1, s, k'));
    } else if IsBreak(b, i) {
      var j := i + S.BreakLength(b, i);
      var k' := if k.leadingBlanks then k.(trailing := k.trailing + S.BreakText(b, i))
                else S.Blank(true, k.leading + S.BreakText(b, i), k.trailing, []);
      BlanksClose(b, j, 0, s, k');
      ClosedBefore(b, i, j, S.Blanks(b, j, 0, s, k'));
    } else {
      OuterCloses(b, i, col, s + S.Join(k));
    }
  }

  lemma ClosedBefore(b: Bytes, i: nat, j: nat, r: S.Result)
    requires i <= j && Closed(b, j, r)
    ensures Closed(b, i, r)
  {
  }

  lemma NotClosed(b: Bytes, i: nat, problem: S.Problem)
    ensures Closed(b, i, S.Err(problem))
  {
  }

  // Where no right quotation mark comes, the scan fails.
  lemma Unclosed(b: Bytes, i: nat, col: nat)
    requires i < |b| && forall k :: i < k < |b| ==> b[k] != 0x22
    ensures S.Scan(b, i, col).Err?
  {
    hide S.Outer;
    OuterCloses(b, i + 1, col + 1, []);
  }
}
