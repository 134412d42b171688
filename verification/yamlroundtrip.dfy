// Scanning what the emitter wrote gives the text back.

module YamlRoundTrip {
  import opened YamlChars
  import E = YamlEmitter
  import S = YamlScanner

  // Where the scanner stands after reading what was written for some
  // characters: among text, after raw spaces, or after a folded line; and in
  // the last case the backslash that keeps the next space may be still unread.
  datatype Mode = Text | Blank(n: nat) | Folded | Slash

  const FOLD := S.Blank(true, [0x0A], [], [])

  // What the blanks before i add to the text.
  function Pending(m: Mode): Bytes {
    match m
    case Text => []
    case Blank(n) => E.Spaces(n)
    case Folded => [0x20]
    case Slash => [0x20]
  }

  // A line that starts here is taken for the start or the end of a document.
  predicate IndicatorLine(b: Bytes, i: nat) {
    S.Indicator(b, i) && IsBlankz(b, i + 3)
  }

  predicate Stands(m: Mode, b: Bytes, i: nat, column: nat) {
    i <= |b|
    && match m
       case Slash => i > 0 && column > 0 && At(b, i - 1) == 0x5C
       case Folded => column > 0 || !IndicatorLine(b, i)
       case _ => column > 0
  }

  // What the scanner comes to from there.
  function Resume(m: Mode, b: Bytes, i: nat, column: nat, s: Bytes): S.Result
    requires Stands(m, b, i, column)
  {
    match m
    case Text => S.Inner(b, i, column, s)
    case Blank(n) => S.Blanks(b, i, column, s, S.NO_BLANKS.(spaces := E.Spaces(n)))
    case Folded => S.Blanks(b, i, column, s, FOLD)
    case Slash => S.Blanks(b, i - 1, column - 1, s, FOLD)
  }

  lemma EnterText(m: Mode, b: Bytes, i: nat, column: nat, s: Bytes)
    requires Stands(m, b, i, column) && m != Slash && !IsBlankz(b, i)
    ensures Resume(m, b, i, column, s) == S.Inner(b, i, column, s + Pending(m))
  {
    assert s + [] == s;
    hide IsBlank, IsBreak, IsZ, S.Inner;
    match m
    case Text =>
    case Blank(n) => assert S.Blanks(b, i, column, s, S.NO_BLANKS.(spaces := E.Spaces(n))) == S.Outer(b, i, column, s + E.Spaces(n));
    case Folded => assert S.Blanks(b, i, column, s, FOLD) == S.Outer(b, i, column, s + [0x20]);
    case Slash =>
  }

  lemma EnterSlash(b: Bytes, i: nat, column: nat, s: Bytes)
    requires Stands(Slash, b, i, column)
    ensures Resume(Slash, b, i, column, s) == S.Inner(b, i - 1, column - 1, s + [0x20])
  {
    assert !IsBlankz(b, i - 1);
    hide IsBlank, IsBreak, IsZ, S.Inner;
    assert S.Blanks(b, i - 1, column - 1, s, FOLD) == S.Outer(b, i - 1, column - 1, s + [0x20]);
  }

  // ---------- escape sequences ----------

  function Pow16(n: nat): nat {
    if n == 0 then 1 else 16 * Pow16(n - 1)
  }

  lemma {:induction false} HexBack(b: Bytes, i: nat, v: nat, n: nat)
    requires Has(b, i, E.Hex(v, n)) && v < Pow16(n)
    ensures S.HexValue(b, i, n) == S.Some(v)
  {
    if n > 0 {
      HasSplit(b, i, E.Hex(v / 16, n - 1), [E.Digit(v % 16)]);
      HasAt(b, i + n - 1, [E.Digit(v % 16)], 0);
      HexBack(b, i, v / 16, n - 1);
    }
  }

  lemma CodeBack(b: Bytes, i: nat, letter: byte, v: Scalar, n: nat)
    requires Has(b, i, [0x5C, letter] + E.Hex(v, n)) && v < Pow16(n)
    ensures S.CodeAt(b, i, n) == S.Esc(Utf8(v), n + 2)
    ensures At(b, i) == 0x5C && At(b, i + 1) == letter
  {
    HasSplit(b, i, [0x5C, letter], E.Hex(v, n));
    HasAt(b, i, [0x5C, letter], 0);
    HasAt(b, i, [0x5C, letter], 1);
    HexBack(b, i + 2, v, n);
  }

  lemma EscapeBack(b: Bytes, i: nat, v: Scalar)
    requires Has(b, i, E.Escape(v))
    ensures At(b, i) == 0x5C && !IsBreak(b, i + 1)
    ensures S.EscapeAt(b, i) == S.Esc(Utf8(v), |E.Escape(v)|)
  {
    if E.Short(v) != 0 {
      HasAt(b, i, E.Escape(v), 0);
      HasAt(b, i, E.Escape(v), 1);
    } else {
      PowersOf16();
      if v <= 0xFF {
        CodeBack(b, i, 0x78, v, 2);
      } else if v <= 0xFFFF {
        CodeBack(b, i, 0x75, v, 4);
      } else {
        CodeBack(b, i, 0x55, v, 8);
      }
      hide S.CodeAt;
    }
  }

  lemma PowersOf16()
    ensures Pow16(2) == 0x100 && Pow16(4) == 0x1_0000 && Pow16(8) == 0x1_0000_0000
  {
    assert Pow16(6) == 16 * Pow16(5) && Pow16(5) == 16 * Pow16(4);
    assert Pow16(4) == 16 * Pow16(3) && Pow16(3) == 16 * Pow16(2);
  }

  lemma ReadsEscape(b: Bytes, i: nat, column: nat, s: Bytes, v: Scalar)
    requires Has(b, i, E.Escape(v))
    ensures !IsBlankz(b, i)
    ensures i + |E.Escape(v)| <= |b|
    ensures S.Inner(b, i, column, s) == S.Inner(b, i + |E.Escape(v)|, column + |E.Escape(v)|, s + Utf8(v))
  {
    EscapeBack(b, i, v);
    hide E.Escape, Utf8, S.EscapeAt;
  }

  // ---------- plain characters ----------

  lemma ReadsPlain(b: Bytes, i: nat, column: nat, s: Bytes, v: Scalar)
    requires Has(b, i, Utf8(v)) && Printable(v) && !LineBreak(v) && v != 0x22 && v != 0x5C && v != 0x20
    ensures !IsBlankz(b, i)
    ensures S.Inner(b, i, column, s) == S.Inner(b, i + |Utf8(v)|, column + 1, s + Utf8(v))
  {
    TestsOfChar(b, i, v);
    WidthOfChar(b, i, v);
    hide IsBreak, Utf8, Width, LineBreak;
  }

  // ---------- a folded line ----------

  lemma {:induction false} SkipsIndent(b: Bytes, i: nat, column: nat, s: Bytes, n: nat)
    requires Has(b, i, E.Spaces(n))
    ensures S.Blanks(b, i, column, s, FOLD) == S.Blanks(b, i + n, column + n, s, FOLD)
  {
    if n > 0 {
      HasSplit(b, i, E.Spaces(n - 1), [0x20]);
      HasAt(b, i + n - 1, [0x20], 0);
      SkipsIndent(b, i, column, s, n - 1);
    }
  }

  lemma BreakBack(b: Bytes, i: nat, lineBreak: E.Break)
    requires Has(b, i, E.BreakBytes(lineBreak)) && At(b, i + |E.BreakBytes(lineBreak)|) != 0x0A
    ensures IsBreak(b, i) && !IsBlank(b, i) && At(b, i) != 0x22
    ensures S.BreakLength(b, i) == |E.BreakBytes(lineBreak)| && S.BreakText(b, i) == [0x0A]
  {
    HasAt(b, i, E.BreakBytes(lineBreak), 0);
    if lineBreak == E.CrLn { HasAt(b, i, E.BreakBytes(lineBreak), 1); }
  }

  lemma EntersFold(b: Bytes, i: nat, column: nat, s: Bytes)
    requires i < |b| && IsBreak(b, i) && !IsBlank(b, i) && At(b, i) != 0x22 && S.BreakText(b, i) == [0x0A]
    ensures S.Inner(b, i, column, s) == S.Blanks(b, i + S.BreakLength(b, i), 0, s, FOLD)
  {
    hide IsBreak, IsBlank, S.BreakLength, S.BreakText, At;
    assert S.Inner(b, i, column, s) == S.AfterInner(b, i, column, s, false) == S.Blanks(b, i, column, s, S.NO_BLANKS);
    assert S.Blank(true, [] + [0x0A], [], []) == FOLD;
  }

  lemma BreakInside(b: Bytes, i: nat)
    requires IsBreak(b, i)
    ensures i < |b|
  {
  }

  lemma ReadsFold(b: Bytes, i: nat, column: nat, s: Bytes, lineBreak: E.Break, n: nat)
    requires Has(b, i, E.BreakBytes(lineBreak) + E.Spaces(n))
    requires n > 0 || At(b, i + |E.BreakBytes(lineBreak)|) != 0x0A
    ensures i + |E.BreakBytes(lineBreak)| + n <= |b|
    ensures S.Inner(b, i, column, s) == S.Blanks(b, i + |E.BreakBytes(lineBreak)| + n, n, s, FOLD)
  {
    hide *;
    var w := |E.BreakBytes(lineBreak)|;
    HasSplit(b, i, E.BreakBytes(lineBreak), E.Spaces(n));
    HasInside(b, i + w, E.Spaces(n));
    if n > 0 { HasAt(b, i + w, E.Spaces(n), 0); }
    BreakBack(b, i, lineBreak);
    BreakInside(b, i);
    SkipsIndent(b, i + w, 0, s, n);
    EntersFold(b, i, column, s);
  }

  // ---------- one character ----------

  predicate Fits(m: Mode, cs: seq<Scalar>, c: E.Settings, bom: bool, spaces: bool) {
    match m
    case Text => true
    case Blank(n) => spaces && n > 0
    case Folded => spaces && cs != [] && cs[0] != 0x20
    case Slash => spaces && cs != [] && cs[0] == 0x20 && !bom
  }

  lemma ReadsSpace(m: Mode, b: Bytes, i: nat, column: nat, s: Bytes) returns (m': Mode)
    requires Stands(m, b, i, column) && (m.Text? || m.Blank?) && Has(b, i, [0x20])
    ensures m'.Blank? && m'.n > 0 && Pending(m') == Pending(m) + [0x20]
    ensures Resume(m, b, i, column, s) == Resume(m', b, i + 1, column + 1, s)
  {
    HasAt(b, i, [0x20], 0);
    m' := Blank(if m == Text then 1 else m.n + 1);
    if m == Text {
      assert S.Inner(b, i, column, s) == S.AfterInner(b, i, column, s, false) == S.Blanks(b, i, column, s, S.NO_BLANKS);
      assert E.Spaces(1) == [] + [0x20];
    }
  }

  lemma ReadsKeptSpace(b: Bytes, i: nat, column: nat, s: Bytes)
    requires Stands(Slash, b, i, column) && Has(b, i, [0x20])
    ensures Resume(Slash, b, i, column, s) == S.Inner(b, i + 1, column + 1, s + [0x20] + [0x20])
  {
    HasAt(b, i, [0x20], 0);
    EnterSlash(b, i, column, s);
    assert S.EscapeAt(b, i - 1) == S.Esc([0x20], 2);
  }

  // What one piece does: the scanner goes on from where m' and col' say with s',
  // which with what is pending is the text so far and the character v.
  predicate Read(m: Mode, b: Bytes, i: nat, col: nat, s: Bytes, v: Scalar, i': nat, m': Mode, col': nat, s': Bytes) {
    && Stands(m, b, i, col) && Stands(m', b, i', col')
    && s' + Pending(m') == s + Pending(m) + Utf8(v)
    && Resume(m, b, i, col, s) == Resume(m', b, i', col', s')
  }

  lemma PieceEscaped(m: Mode, v: Scalar, b: Bytes, i: nat, col: nat, s: Bytes)
    requires Stands(m, b, i, col) && m != Slash && Has(b, i, E.Escape(v))
    ensures Read(m, b, i, col, s, v, i + |E.Escape(v)|, Text, col + |E.Escape(v)|, s + Pending(m) + Utf8(v))
  {
    ReadsEscape(b, i, col, s + Pending(m), v);
    EnterText(m, b, i, col, s);
    hide E.Escape, Utf8;
    assert s + Pending(m) + Utf8(v) + [] == s + Pending(m) + Utf8(v);
  }

  lemma PiecePlain(m: Mode, v: Scalar, b: Bytes, i: nat, col: nat, s: Bytes)
    requires Stands(m, b, i, col) && m != Slash && Has(b, i, Utf8(v))
    requires Printable(v) && !LineBreak(v) && v != 0x22 && v != 0x5C && v != 0x20
    ensures Read(m, b, i, col, s, v, i + |Utf8(v)|, Text, col + 1, s + Pending(m) + Utf8(v))
  {
    ReadsPlain(b, i, col, s + Pending(m), v);
    EnterText(m, b, i, col, s);
    hide Utf8;
    assert s + Pending(m) + Utf8(v) + [] == s + Pending(m) + Utf8(v);
  }

  predicate NoMarker(b: Bytes, i: nat) {
    At(b, i) != 0x0A && !IndicatorLine(b, i)
  }

  lemma PieceFolded(slash: bool, c: E.Settings, b: Bytes, i: nat, col: nat, s: Bytes)
    requires Stands(Text, b, i, col)
    requires Has(b, i, E.BreakBytes(c.lineBreak) + E.Spaces(c.indent) + if slash then [0x5C] else [])
    requires !slash && c.indent == 0 ==> NoMarker(b, i + |E.BreakBytes(c.lineBreak)|)
    ensures var w := |E.BreakBytes(c.lineBreak)| + c.indent;
      if slash then Read(Text, b, i, col, s, 0x20, i + w + 1, Slash, c.indent + 1, s)
      else Read(Text, b, i, col, s, 0x20, i + w, Folded, c.indent, s)
  {
    var line := E.BreakBytes(c.lineBreak) + E.Spaces(c.indent);
    HasSplit(b, i, line, if slash then [0x5C] else []);
    if slash { HasAt(b, i + |line|, [0x5C], 0); }
    ReadsFold(b, i, col, s, c.lineBreak, c.indent);
    hide S.Inner, S.Blanks, E.Spaces, E.BreakBytes;
    assert s + [0x20] == s + [] + Utf8(0x20);
  }

  lemma PieceKeptSpace(b: Bytes, i: nat, col: nat, s: Bytes)
    requires Stands(Slash, b, i, col) && Has(b, i, [0x20])
    ensures Read(Slash, b, i, col, s, 0x20, i + 1, Text, col + 1, s + [0x20] + [0x20])
  {
    ReadsKeptSpace(b, i, col, s);
    hide S.Inner, S.Blanks;
    assert s + [0x20] + [0x20] + [] == s + [0x20] + Utf8(0x20);
  }

  lemma PieceSpace(m: Mode, b: Bytes, i: nat, col: nat, s: Bytes) returns (m': Mode)
    requires Stands(m, b, i, col) && (m.Text? || m.Blank?) && Has(b, i, [0x20])
    ensures m'.Blank? && m'.n > 0 && Read(m, b, i, col, s, 0x20, i + 1, m', col + 1, s)
  {
    m' := ReadsSpace(m, b, i, col, s);
    hide S.Inner, S.Blanks, E.Spaces;
    assert s + Pending(m') == s + Pending(m) + Utf8(0x20);
  }

  lemma EscapedMeans(v: Scalar, c: E.Settings, bom: bool)
    ensures !E.Escaped(v, c, bom) ==> Printable(v) && !LineBreak(v) && v != 0x22 && v != 0x5C
    ensures v == 0x20 && !bom ==> !E.Escaped(v, c, bom)
  {
  }

  lemma FoldsMeans(c: E.Settings, first: bool, column: nat, spaces: bool, left: nat)
    requires E.Folds(c, first, column, spaces, left)
    ensures c.allowBreaks && !spaces && left > 1
  {
  }

  // The first of these characters is written as a line break.
  predicate EndsLine(cs: seq<Scalar>, c: E.Settings, bom: bool, first: bool, column: nat, spaces: bool) {
    cs != [] && cs[0] == 0x20 && !E.Escaped(0x20, c, bom) && E.Folds(c, first, column, spaces, |cs|)
  }

  lemma OneSpace(m: Mode, cs: seq<Scalar>, c: E.Settings, bom: bool, first: bool, column: nat, spaces: bool,
                 b: Bytes, i: nat, col: nat, s: Bytes) returns (m': Mode, col': nat, s': Bytes)
    requires cs != [] && Stands(m, b, i, col) && Fits(m, cs, c, bom, spaces)
    requires Has(b, i, E.PieceFor(cs, c, bom, first, column, spaces).text)
    requires cs[0] == 0x20 && !E.Escaped(0x20, c, bom)
    requires c.indent == 0 && EndsLine(cs, c, bom, first, column, spaces) && cs[1] != 0x20
      ==> NoMarker(b, i + |E.BreakBytes(c.lineBreak)|)
    ensures var p := E.PieceFor(cs, c, bom, first, column, spaces);
      Fits(m', cs[1..], c, bom, p.spaces) && Read(m, b, i, col, s, cs[0], i + |p.text|, m', col', s')
  {
    if E.Folds(c, first, column, spaces, |cs|) { FoldsMeans(c, first, column, spaces, |cs|); }
    hide E.Escaped, E.Folds, Read, E.Escape, Utf8, E.Spaces, E.BreakBytes, Has, Stands;
    if E.Folds(c, first, column, spaces, |cs|) {
      PieceFolded(cs[1] == 0x20, c, b, i, col, s);
      m', col', s' := if cs[1] == 0x20 then Slash else Folded, if cs[1] == 0x20 then c.indent + 1 else c.indent, s;
    } else if m == Slash {
      PieceKeptSpace(b, i, col, s);
      m', col', s' := Text, col + 1, s + [0x20] + [0x20];
    } else {
      m' := PieceSpace(m, b, i, col, s);
      col', s' := col + 1, s;
    }
  }

  lemma OnePiece(m: Mode, cs: seq<Scalar>, c: E.Settings, bom: bool, first: bool, column: nat, spaces: bool,
                 b: Bytes, i: nat, col: nat, s: Bytes) returns (m': Mode, col': nat, s': Bytes)
    requires cs != [] && Stands(m, b, i, col) && Fits(m, cs, c, bom, spaces)
    requires Has(b, i, E.PieceFor(cs, c, bom, first, column, spaces).text)
    requires c.indent == 0 && EndsLine(cs, c, bom, first, column, spaces) && cs[1] != 0x20
      ==> NoMarker(b, i + |E.BreakBytes(c.lineBreak)|)
    ensures var p := E.PieceFor(cs, c, bom, first, column, spaces);
      Fits(m', cs[1..], c, bom, p.spaces) && Read(m, b, i, col, s, cs[0], i + |p.text|, m', col', s')
  {
    var v := cs[0];
    EscapedMeans(v, c, bom);
    if v == 0x20 && !E.Escaped(v, c, bom) {
      m', col', s' := OneSpace(m, cs, c, bom, first, column, spaces, b, i, col, s);
    } else {
      hide E.Escaped, E.Folds, Read, Printable, LineBreak, E.Escape, Utf8, Has, Stands;
      if E.Escaped(v, c, bom) {
        PieceEscaped(m, v, b, i, col, s);
        m', col', s' := Text, col + |E.Escape(v)|, s + Pending(m) + Utf8(v);
      } else {
        PiecePlain(m, v, b, i, col, s);
        m', col', s' := Text, col + 1, s + Pending(m) + Utf8(v);
      }
    }
  }

  predicate ReadsTo(r: S.Result, value: Bytes, pos: nat) {
    r.Ok? && r.value == value && r.pos == pos
  }

  // ---------- lines that look like document indicators ----------

  // The text starts with n times d and a space.
  predicate Run(cs: seq<Scalar>, d: Scalar, n: nat) {
    cs != [] && if n == 0 then cs[0] == 0x20 else cs[0] == d && Run(cs[1..], d, n - 1)
  }

  // The text starts with three dashes or three dots and a space.
  predicate Marker(cs: seq<Scalar>) {
    Run(cs, 0x2D, 3) || Run(cs, 0x2E, 3)
  }

  // The first of these characters starts a line that is not indented, with such
  // a text on it.
  predicate StartsMarker(cs: seq<Scalar>, c: E.Settings, bom: bool, first: bool, column: nat, spaces: bool) {
    c.indent == 0 && EndsLine(cs, c, bom, first, column, spaces) && Marker(cs[1..])
  }

  // No line begun by folding starts with three dashes or three dots and a space.
  predicate Safe(cs: seq<Scalar>, c: E.Settings, bom: bool, first: bool, column: nat, spaces: bool) {
    cs == [] ||
    var p := E.PieceFor(cs, c, bom, first, column, spaces);
    !StartsMarker(cs, c, bom, first, column, spaces) && Safe(cs[1..], c, bom, false, p.column, p.spaces)
  }

  lemma SafeStep(cs: seq<Scalar>, c: E.Settings, bom: bool, first: bool, column: nat, spaces: bool)
    ensures Safe([], c, bom, first, column, spaces)
    ensures cs != [] ==>
      var p := E.PieceFor(cs, c, bom, first, column, spaces);
      Safe(cs, c, bom, first, column, spaces) <==>
      !StartsMarker(cs, c, bom, first, column, spaces) && Safe(cs[1..], c, bom, false, p.column, p.spaces)
  {
  }

  // The same on bytes.
  predicate RunAt(b: Bytes, i: nat, d: byte, n: nat)
    decreases n
  {
    if n == 0 then IsBlankz(b, i) else At(b, i) == d && RunAt(b, i + 1, d, n - 1)
  }

  lemma IndicatorLineIs(b: Bytes, i: nat)
    ensures IndicatorLine(b, i) <==> RunAt(b, i, 0x2D, 3) || RunAt(b, i, 0x2E, 3)
  {
    hide IsBlankz;
    DashesAre(b, i, 0x2D);
    DashesAre(b, i, 0x2E);
  }

  lemma DashesAre(b: Bytes, i: nat, d: byte)
    ensures RunAt(b, i, d, 3) <==> At(b, i) == d && At(b, i + 1) == d && At(b, i + 2) == d && IsBlankz(b, i + 3)
  {
    hide IsBlankz, At;
    assert RunAt(b, i + 2, d, 1) <==> At(b, i + 2) == d && RunAt(b, i + 3, d, 0);
    assert RunAt(b, i + 1, d, 2) <==> At(b, i + 1) == d && RunAt(b, i + 2, d, 1);
  }

  // What is written first for a text tells whether it starts with d or a space.
  lemma FirstByte(cs: seq<Scalar>, c: E.Settings, first: bool, column: nat, spaces: bool, b: Bytes, i: nat, d: byte)
    requires d == 0x2D || d == 0x2E
    requires Has(b, i, E.Body(cs, c, false, first, column, spaces) + [0x22])
    ensures cs != [] && cs[0] == 0x20 <==> IsBlankz(b, i)
    ensures cs != [] && cs[0] == d <==> At(b, i) == d
    ensures spaces ==> At(b, i) != 0x0A
  {
    if cs == [] {
      hide E.Body;
      E.BodyEnd(c, false, first, column, spaces);
      assert [] + [0x22] == [0x22];
      HasAt(b, i, [0x22], 0);
    } else {
      hide *;
      AfterPiece(cs, c, first, column, spaces, b, i);
      PieceStarts(cs, c, first, column, spaces, b, i, d);
    }
  }

  lemma AfterPiece(cs: seq<Scalar>, c: E.Settings, first: bool, column: nat, spaces: bool, b: Bytes, i: nat)
    requires cs != [] && Has(b, i, E.Body(cs, c, false, first, column, spaces) + [0x22])
    ensures var p := E.PieceFor(cs, c, false, first, column, spaces);
      Has(b, i, p.text) && Has(b, i + |p.text|, E.Body(cs[1..], c, false, false, p.column, p.spaces) + [0x22])
  {
    hide E.PieceFor, Has;
    E.BodyStep(cs, c, false, first, column, spaces);
    hide E.Body;
    var p := E.PieceFor(cs, c, false, first, column, spaces);
    var rest := E.Body(cs[1..], c, false, false, p.column, p.spaces);
    assert p.text + rest + [0x22] == p.text + (rest + [0x22]);
    HasSplit(b, i, p.text, rest + [0x22]);
  }

  lemma PieceStarts(cs: seq<Scalar>, c: E.Settings, first: bool, column: nat, spaces: bool, b: Bytes, i: nat, d: byte)
    requires d == 0x2D || d == 0x2E
    requires cs != [] && Has(b, i, E.PieceFor(cs, c, false, first, column, spaces).text)
    ensures cs[0] == 0x20 <==> IsBlankz(b, i)
    ensures cs[0] == d <==> At(b, i) == d
    ensures spaces ==> At(b, i) != 0x0A
  {
    var v, p := cs[0], E.PieceFor(cs, c, false, first, column, spaces);
    EscapedMeans(v, c, false);
    if E.Escaped(v, c, false) {
      EscapeBack(b, i, v);
    } else if v == 0x20 {
      if E.Folds(c, first, column, spaces, |cs|) {
        var line := E.Spaces(c.indent) + if cs[1] == 0x20 then [0x5C] else [];
        assert p.text == E.BreakBytes(c.lineBreak) + line;
        HasAt(b, i, p.text, 0);
      } else {
        HasAt(b, i, [0x20], 0);
      }
    } else {
      TestsOfChar(b, i, v);
    }
  }

  lemma {:induction false} RunWritten(cs: seq<Scalar>, c: E.Settings, first: bool, column: nat, spaces: bool,
                                      b: Bytes, i: nat, d: byte, n: nat)
    requires d == 0x2D || d == 0x2E
    requires Has(b, i, E.Body(cs, c, false, first, column, spaces) + [0x22])
    ensures Run(cs, d, n) <==> RunAt(b, i, d, n)
    decreases n
  {
    hide E.Body, E.PieceFor, IsBlankz, Has;
    FirstByte(cs, c, first, column, spaces, b, i, d);
    if n > 0 && cs != [] && cs[0] == d {
      AfterPiece(cs, c, first, column, spaces, b, i);
      PlainPiece(cs, c, first, column, spaces);
      RunWritten(cs[1..], c, false, column + 1, false, b, i + 1, d, n - 1);
    }
  }

  lemma PlainPiece(cs: seq<Scalar>, c: E.Settings, first: bool, column: nat, spaces: bool)
    requires cs != [] && (cs[0] == 0x2D || cs[0] == 0x2E)
    ensures E.PieceFor(cs, c, false, first, column, spaces) == E.Piece([cs[0]], column + 1, false)
  {
  }

  // After folding, the line is an indicator exactly if the text says so.
  lemma MarkerWritten(cs: seq<Scalar>, c: E.Settings, first: bool, column: nat, b: Bytes, i: nat)
    requires Has(b, i, E.Body(cs, c, false, first, column, true) + [0x22])
    ensures IndicatorLine(b, i) <==> Marker(cs)
    ensures At(b, i) != 0x0A
  {
    hide E.Body, IndicatorLine, Has;
    IndicatorLineIs(b, i);
    FirstByte(cs, c, first, column, true, b, i, 0x2D);
    RunWritten(cs, c, first, column, true, b, i, 0x2D, 3);
    RunWritten(cs, c, first, column, true, b, i, 0x2E, 3);
  }

  // Such a line stops the scanner.
  lemma LineIsLost(b: Bytes, i: nat, col: nat, s: Bytes, lineBreak: E.Break)
    requires Has(b, i, E.BreakBytes(lineBreak)) && IndicatorLine(b, i + |E.BreakBytes(lineBreak)|)
    ensures S.Inner(b, i, col, s) == S.Err(S.DocumentIndicator)
  {
    var w := |E.BreakBytes(lineBreak)|;
    HasInside(b, i, E.BreakBytes(lineBreak));
    assert E.BreakBytes(lineBreak) + E.Spaces(0) == E.BreakBytes(lineBreak);
    ReadsFold(b, i, col, s, lineBreak, 0);
    assert !IsBlank(b, i + w) && !IsBreak(b, i + w);
    hide E.BreakBytes, S.Inner;
    assert S.Blanks(b, i + w, 0, s, FOLD) == S.Outer(b, i + w, 0, s + S.Join(FOLD));
  }

  // ---------- the whole text ----------

  // The scanner comes to the end of what was written for the characters cs and
  // has their text, unless a line of it was taken for a document indicator.
  lemma {:induction false} ReadsBody(m: Mode, cs: seq<Scalar>, c: E.Settings, bom: bool, first: bool, column: nat, spaces: bool,
                                     b: Bytes, i: nat, col: nat, s: Bytes)
    requires Stands(m, b, i, col) && Fits(m, cs, c, bom, spaces)
    requires Has(b, i, E.Body(cs, c, bom, first, column, spaces) + [0x22])
    ensures if Safe(cs, c, bom, first, column, spaces)
            then ReadsTo(Resume(m, b, i, col, s), s + Pending(m) + Enc(cs), i + |E.Body(cs, c, bom, first, column, spaces)| + 1)
            else Resume(m, b, i, col, s) == S.Err(S.DocumentIndicator)
    decreases |cs|
  {
    hide E.Body, E.PieceFor, Utf8, Has, Pending, Resume, Stands, ReadsTo, EndsLine, Safe, StartsMarker, Enc;
    SafeStep(cs, c, bom, first, column, spaces);
    if cs == [] {
      E.BodyEnd(c, bom, first, column, spaces);
      assert [] + [0x22] == [0x22];
      ReadsQuote(m, b, i, col, s);
      EncEnd(s + Pending(m));
      ReadsToMeans(S.Ok(s + Pending(m), i + 1, col + 1), s + Pending(m) + Enc(cs), i + 0 + 1);
    } else {
      E.BodyStep(cs, c, bom, first, column, spaces);
      var p := E.PieceFor(cs, c, bom, first, column, spaces);
      var rest := E.Body(cs[1..], c, bom, false, p.column, p.spaces);
      assert p.text + rest + [0x22] == p.text + (rest + [0x22]);
      HasSplit(b, i, p.text, rest + [0x22]);
      if StartsMarker(cs, c, bom, first, column, spaces) {
        MarkerIsLost(m, cs, c, bom, first, column, spaces, b, i, col, s);
      } else {
        AfterBreak(cs, c, bom, first, column, spaces, b, i);
        var m', col', s' := OnePiece(m, cs, c, bom, first, column, spaces, b, i, col, s);
        hide Fits;
        ReadMeans(m, b, i, col, s, cs[0], i + |p.text|, m', col', s');
        ReadsBody(m', cs[1..], c, bom, false, p.column, p.spaces, b, i + |p.text|, col', s');
        EncStep(s + Pending(m), cs);
      }
    }
  }

  // What folding writes when lines are not indented and no space follows.
  lemma FlatFold(cs: seq<Scalar>, c: E.Settings, bom: bool, first: bool, column: nat, spaces: bool)
    requires c.indent == 0 && EndsLine(cs, c, bom, first, column, spaces) && cs[1] != 0x20
    ensures !bom && !spaces && E.PieceFor(cs, c, bom, first, column, spaces) == E.Piece(E.BreakBytes(c.lineBreak), 0, true)
  {
    hide E.BreakBytes;
    assert E.BreakBytes(c.lineBreak) + E.Spaces(0) + [] == E.BreakBytes(c.lineBreak);
  }

  lemma AfterBreak(cs: seq<Scalar>, c: E.Settings, bom: bool, first: bool, column: nat, spaces: bool, b: Bytes, i: nat)
    requires cs != [] && !StartsMarker(cs, c, bom, first, column, spaces)
    requires var p := E.PieceFor(cs, c, bom, first, column, spaces);
      Has(b, i + |p.text|, E.Body(cs[1..], c, bom, false, p.column, p.spaces) + [0x22])
    ensures c.indent == 0 && EndsLine(cs, c, bom, first, column, spaces) && cs[1] != 0x20
      ==> NoMarker(b, i + |E.BreakBytes(c.lineBreak)|)
  {
    hide E.Body, E.PieceFor, E.Escaped, Has, IndicatorLine, Marker;
    if c.indent == 0 && EndsLine(cs, c, bom, first, column, spaces) && cs[1] != 0x20 {
      FlatFold(cs, c, bom, first, column, spaces);
      MarkerWritten(cs[1..], c, false, 0, b, i + |E.BreakBytes(c.lineBreak)|);
    }
  }

  lemma MarkerIsLost(m: Mode, cs: seq<Scalar>, c: E.Settings, bom: bool, first: bool, column: nat, spaces: bool,
                     b: Bytes, i: nat, col: nat, s: Bytes)
    requires cs != [] && Stands(m, b, i, col) && Fits(m, cs, c, bom, spaces)
    requires StartsMarker(cs, c, bom, first, column, spaces)
    requires var p := E.PieceFor(cs, c, bom, first, column, spaces);
      Has(b, i, p.text) && Has(b, i + |p.text|, E.Body(cs[1..], c, bom, false, p.column, p.spaces) + [0x22])
    ensures Resume(m, b, i, col, s) == S.Err(S.DocumentIndicator)
  {
    hide E.Body, E.PieceFor, EndsLine, Has, IndicatorLine, E.BreakBytes, S.Inner, S.Blanks;
    assert cs[1] != 0x20;
    FlatFold(cs, c, bom, first, column, spaces);
    MarkerWritten(cs[1..], c, false, 0, b, i + |E.BreakBytes(c.lineBreak)|);
    LineIsLost(b, i, col, s, c.lineBreak);
    assert m == Text;
  }

  lemma EncEnd(x: Bytes)
    ensures x + Enc([]) == x
  {
  }

  lemma ReadsToMeans(r: S.Result, value: Bytes, pos: nat)
    ensures ReadsTo(r, value, pos) <==> r.Ok? && r.value == value && r.pos == pos
  {
  }

  lemma EncStep(x: Bytes, cs: seq<Scalar>)
    requires cs != []
    ensures x + Utf8(cs[0]) + Enc(cs[1..]) == x + Enc(cs)
  {
    hide Utf8;
    assert x + Utf8(cs[0]) + Enc(cs[1..]) == x + (Utf8(cs[0]) + Enc(cs[1..]));
  }

  lemma ReadMeans(m: Mode, b: Bytes, i: nat, col: nat, s: Bytes, v: Scalar, i': nat, m': Mode, col': nat, s': Bytes)
    requires Read(m, b, i, col, s, v, i', m', col', s')
    ensures Stands(m, b, i, col) && Stands(m', b, i', col')
    ensures s' + Pending(m') == s + Pending(m) + Utf8(v)
    ensures Resume(m, b, i, col, s) == Resume(m', b, i', col', s')
  {
  }

  lemma ReadsQuote(m: Mode, b: Bytes, i: nat, col: nat, s: Bytes)
    requires Stands(m, b, i, col) && m != Slash && Has(b, i, [0x22])
    ensures Resume(m, b, i, col, s) == S.Ok(s + Pending(m), i + 1, col + 1)
  {
    HasAt(b, i, [0x22], 0);
    assert !IsBlankz(b, i);
    EnterText(m, b, i, col, s);
  }

  // The text is never taken for a document indicator once it is written.
  predicate SafeQuoted(cs: seq<Scalar>, c: E.Settings, column: nat) {
    Safe(cs, c, IsBom(Enc(cs), 0), true, column + 1, false)
  }

  // Wherever the written scalar stands, scanning it gives the text and ends right
  // after it, or fails because a line begun by folding looks like an indicator.
  lemma RoundTripExact(cs: seq<Scalar>, c: E.Settings, column: nat, b: Bytes, i: nat, col: nat)
    requires Has(b, i, E.Quoted(cs, c, column))
    ensures i < |b|
    ensures if SafeQuoted(cs, c, column) then ReadsTo(S.Scan(b, i, col), Enc(cs), i + |E.Quoted(cs, c, column)|)
            else S.Scan(b, i, col) == S.Err(S.DocumentIndicator)
  {
    hide *;
    var body := E.Body(cs, c, IsBom(Enc(cs), 0), true, column + 1, false);
    QuotedParts(cs, c, column, body);
    HasSplit(b, i, [0x22], body + [0x22]);
    HasInside(b, i + 1, body + [0x22]);
    StartsText(b, i, col, cs, c, column);
  }

  // For every text if lines are not folded, and with folding whenever lines are
  // indented, scanning gives the text back.
  lemma RoundTrip(cs: seq<Scalar>, c: E.Settings, column: nat, b: Bytes, i: nat, col: nat)
    requires c.allowBreaks ==> c.indent > 0
    requires Has(b, i, E.Quoted(cs, c, column))
    ensures i < |b| && ReadsTo(S.Scan(b, i, col), Enc(cs), i + |E.Quoted(cs, c, column)|)
  {
    hide E.Quoted, Has, S.Scan, ReadsTo, Enc;
    RoundTripExact(cs, c, column, b, i, col);
    IndentedIsSafe(cs, c, IsBom(Enc(cs), 0), true, column + 1, false);
  }

  lemma {:induction false} IndentedIsSafe(cs: seq<Scalar>, c: E.Settings, bom: bool, first: bool, column: nat, spaces: bool)
    requires c.allowBreaks ==> c.indent > 0
    ensures Safe(cs, c, bom, first, column, spaces)
    decreases |cs|
  {
    SafeStep(cs, c, bom, first, column, spaces);
    if cs != [] {
      var p := E.PieceFor(cs, c, bom, first, column, spaces);
      IndentedIsSafe(cs[1..], c, bom, false, p.column, p.spaces);
    }
  }

  lemma QuotedParts(cs: seq<Scalar>, c: E.Settings, column: nat, body: Bytes)
    requires body == E.Body(cs, c, IsBom(Enc(cs), 0), true, column + 1, false)
    ensures E.Quoted(cs, c, column) == [0x22] + (body + [0x22])
  {
    hide E.Body, IsBom, Enc;
  }

  lemma StartsText(b: Bytes, i: nat, col: nat, cs: seq<Scalar>, c: E.Settings, column: nat)
    requires i < |b| && Has(b, i + 1, E.Body(cs, c, IsBom(Enc(cs), 0), true, column + 1, false) + [0x22])
    ensures if SafeQuoted(cs, c, column)
            then ReadsTo(S.Scan(b, i, col), Enc(cs), i + 1 + |E.Body(cs, c, IsBom(Enc(cs), 0), true, column + 1, false)| + 1)
            else S.Scan(b, i, col) == S.Err(S.DocumentIndicator)
  {
    hide E.Body, IsBom, Enc, S.Inner, S.Blanks, Has, ReadsTo, S.Scan, Safe;
    ReadsBody(Text, cs, c, IsBom(Enc(cs), 0), true, column + 1, false, b, i + 1, col + 1, []);
    assert [] + Pending(Text) + Enc(cs) == Enc(cs);
    if SafeQuoted(cs, c, column) {
      ReadsToMeans(S.Inner(b, i + 1, col + 1, []), Enc(cs), i + 1 + |E.Body(cs, c, IsBom(Enc(cs), 0), true, column + 1, false)| + 1);
    }
    ScanIsInner(b, i, col);
  }

  lemma ScanIsInner(b: Bytes, i: nat, col: nat)
    requires i < |b|
    requires var r := S.Inner(b, i + 1, col + 1, []); r.Ok? || r == S.Err(S.DocumentIndicator)
    ensures S.Scan(b, i, col) == S.Inner(b, i + 1, col + 1, [])
  {
    hide S.Inner;
    NothingAtTheEnd(b, i + 1, col + 1, []);
  }

  lemma HasInside(b: Bytes, i: nat, chunk: Bytes)
    requires Has(b, i, chunk)
    ensures i + |chunk| <= |b|
  {
  }

  lemma NothingAtTheEnd(b: Bytes, i: nat, column: nat, s: Bytes)
    requires i <= |b|
    ensures IsZ(b, i) && column > 0 ==> S.Inner(b, i, column, s) == S.Err(S.EndOfStream)
  {
    if IsZ(b, i) && column > 0 {
      assert S.Inner(b, i, column, s) == S.Blanks(b, i, column, s, S.NO_BLANKS) == S.Outer(b, i, column, s + []);
    }
  }

  ghost predicate ValidUtf8(value: Bytes) {
    exists cs: seq<Scalar> :: value == Enc(cs)
  }

  // The emitter's output goes through the scanner unharmed.
  method Through(value: Bytes, unicode: bool, bestWidth: int, lineBreak: E.Break, indent: int, allowBreaks: bool)
    returns (r: S.Option<Bytes>)
    requires ValidUtf8(value) && (allowBreaks ==> indent > 0)
    ensures r == S.Some(value)
  {
    hide E.Quoted, Enc, S.Scan, At, ReadsTo;
    ghost var cs: seq<Scalar> :| value == Enc(cs);
    var emitter := new E.Emitter(unicode, bestWidth, lineBreak, indent);
    ghost var c := emitter.SettingsWith(allowBreaks);
    emitter.WriteDoubleQuotedScalar(value, allowBreaks, cs);
    WholeBuffer([], [], cs, c);
    var scanner := new S.Scanner(emitter.out);
    ReadsToMeans(S.Scan(scanner.buffer, 0, 0), value, |scanner.buffer|);
    ghost var problem;
    r, problem := scanner.ScanFlowScalar();
  }

  lemma WholeBuffer(x: Bytes, y: Bytes, cs: seq<Scalar>, c: E.Settings)
    requires x == y == [] && (c.allowBreaks ==> c.indent > 0)
    ensures var b := x + y + E.Quoted(cs, c, 0);
      |b| > 0 && At(b, 0) == 0x22 && ReadsTo(S.Scan(b, 0, 0), Enc(cs), |b|)
  {
    var b := x + y + E.Quoted(cs, c, 0);
    assert b == E.Quoted(cs, c, 0) && |b| > 0 && b[0] == 0x22;
    hide E.Quoted, Enc, S.Scan, ReadsTo;
    assert Has(b, 0, E.Quoted(cs, c, 0));
    RoundTrip(cs, c, 0, b, 0, 0);
  }

  // Without indentation the text a --- b does not come back.
  const TEXT: seq<Scalar> := [0x61, 0x20, 0x2D, 0x2D, 0x2D, 0x20, 0x62]
  const FLAT := E.Settings(true, 1, 0, E.Ln, true)

  lemma FlatFoldIsLost()
    ensures S.Scan(E.Quoted(TEXT, FLAT, 0), 0, 0) == S.Err(S.DocumentIndicator)
  {
    hide E.Quoted, S.Scan, Safe;
    var b := E.Quoted(TEXT, FLAT, 0);
    assert b[0..|b|] == b;
    RoundTripExact(TEXT, FLAT, 0, b, 0, 0);
    NoBom();
    var cs := TEXT[1..];
    SafeStep(TEXT, FLAT, false, true, 1, false);
    SafeStep(cs, FLAT, false, false, 2, false);
    MarkerInText(cs[1..]);
  }

  lemma NoBom()
    ensures !IsBom(Enc(TEXT), 0)
  {
    assert Enc(TEXT) == Utf8(0x61) + Enc(TEXT[1..]);
  }

  lemma MarkerInText(cs: seq<Scalar>)
    requires |cs| > 3 && cs[0] == cs[1] == cs[2] == 0x2D && cs[3] == 0x20
    ensures Marker(cs)
  {
    assert Run(cs[3..], 0x2D, 0);
    assert cs[2..][1..] == cs[3..] && Run(cs[2..], 0x2D, 1);
    assert cs[1..][1..] == cs[2..] && Run(cs[1..], 0x2D, 2);
  }
}
