// yaml_emitter_write_double_quoted_scalar and what it calls.

module YamlEmitter {
  import opened YamlChars

  datatype Break = Cr | Ln | CrLn

  function BreakBytes(lineBreak: Break): Bytes {
    match lineBreak
    case Cr => [0x0D]
    case Ln => [0x0A]
    case CrLn => [0x0D, 0x0A]
  }

  function Spaces(n: nat): (r: Bytes)
    ensures |r| == n && forall k :: 0 <= k < n ==> r[k] == 0x20
  {
    if n == 0 then [] else Spaces(n - 1) + [0x20]
  }

  function Digit(d: int): byte
    requires 0 <= d < 16
  {
    if d < 10 then d + 0x30 else d + 0x41 - 10
  }

  // The last n hexadecimal digits of v.
  function Hex(v: nat, n: nat): (r: Bytes)
    ensures |r| == n
  {
    if n == 0 then [] else Hex(v / 16, n - 1) + [Digit(v % 16)]
  }

  // v shifted right by m hexadecimal digits.
  function Shift(v: nat, m: nat): nat {
    if m == 0 then v else Shift(v, m - 1) / 16
  }

  // The letter that stands for v after a backslash, if there is one.
  function Short(v: Scalar): (r: byte)
  {
    if v == 0x00 then 0x30
    else if v == 0x07 then 0x61
    else if v == 0x08 then 0x62
    else if v == 0x09 then 0x74
    else if v == 0x0A then 0x6E
    else if v == 0x0B then 0x76
    else if v == 0x0C then 0x66
    else if v == 0x0D then 0x72
    else if v == 0x1B then 0x65
    else if v == 0x22 then 0x22
    else if v == 0x5C then 0x5C
    else if v == 0x85 then 0x4E
    else if v == 0xA0 then 0x5F
    else if v == 0x2028 then 0x4C
    else if v == 0x2029 then 0x50
    else 0
  }

  function Escape(v: Scalar): (r: Bytes)
    ensures |r| >= 2
  {
    if Short(v) != 0 then [0x5C, Short(v)]
    else if v <= 0xFF then [0x5C, 0x78] + Hex(v, 2)
    else if v <= 0xFFFF then [0x5C, 0x75] + Hex(v, 4)
    else [0x5C, 0x55] + Hex(v, 8)
  }

  // What does not change while a scalar is written. The emitter never lets the
  // indentation of a flow scalar fall below its best_indent of 2 to 9.
  datatype Settings = Settings(unicode: bool, bestWidth: int, indent: nat, lineBreak: Break, allowBreaks: bool)

  // Whether a character is escaped in a text that starts with a byte order mark
  // or not.
  predicate Escaped(v: Scalar, c: Settings, bom: bool) {
    !Printable(v) || (!c.unicode && v > 0x7F) || bom || LineBreak(v) || v == 0x22 || v == 0x5C
  }

  // Which characters are escaped, where the text does not start with a byte order
  // mark: those that YAML cannot print, line breaks, the quote and the backslash, and
  // all beyond ASCII if the output is to be ASCII.
  lemma EscapedExact(v: Scalar, c: Settings)
    ensures Escaped(v, c, false) <==>
      || v < 0x20 || 0x7F <= v < 0xA0 || v == 0x2028 || v == 0x2029 || v == 0xFEFF || v > 0xFFFD
      || v == 0x22 || v == 0x5C || (!c.unicode && v > 0x7F)
  {
  }

  // The fifteen characters with a letter of their own; of the others two, four or
  // eight digits, whichever is enough.
  lemma EscapeForm(v: Scalar)
    ensures v == 0x00 ==> Escape(v) == [0x5C, '0' as int]
    ensures v == 0x07 ==> Escape(v) == [0x5C, 'a' as int]
    ensures v == 0x08 ==> Escape(v) == [0x5C, 'b' as int]
    ensures v == 0x09 ==> Escape(v) == [0x5C, 't' as int]
    ensures v == 0x0A ==> Escape(v) == [0x5C, 'n' as int]
    ensures v == 0x0B ==> Escape(v) == [0x5C, 'v' as int]
    ensures v == 0x0C ==> Escape(v) == [0x5C, 'f' as int]
    ensures v == 0x0D ==> Escape(v) == [0x5C, 'r' as int]
    ensures v == 0x1B ==> Escape(v) == [0x5C, 'e' as int]
    ensures v == 0x22 || v == 0x5C ==> Escape(v) == [0x5C, v]
    ensures v == 0x85 ==> Escape(v) == [0x5C, 'N' as int]
    ensures v == 0xA0 ==> Escape(v) == [0x5C, '_' as int]
    ensures v == 0x2028 ==> Escape(v) == [0x5C, 'L' as int]
    ensures v == 0x2029 ==> Escape(v) == [0x5C, 'P' as int]
    ensures v !in {0x00, 0x07, 0x08, 0x09, 0x0A, 0x0B, 0x0C, 0x0D, 0x1B, 0x22, 0x5C, 0x85, 0xA0, 0x2028, 0x2029} ==>
      && |Escape(v)| == (if v <= 0xFF then 4 else if v <= 0xFFFF then 6 else 10)
      && Escape(v)[..2] == [0x5C, if v <= 0xFF then 'x' as int else if v <= 0xFFFF then 'u' as int else 'U' as int]
  {
    hide Hex;
  }

  // A space is folded into a line break when the line is too long, it is not
  // the first nor the last character and no space was written before it.
  predicate Folds(c: Settings, first: bool, column: nat, spaces: bool, left: nat) {
    c.allowBreaks && !spaces && column > c.bestWidth && !first && left > 1
  }

  // What is written for one character, the column after it and whether it
  // counts as a space.
  datatype Piece = Piece(text: Bytes, column: nat, spaces: bool)

  function PieceFor(cs: seq<Scalar>, c: Settings, bom: bool, first: bool, column: nat, spaces: bool): Piece
    requires cs != []
  {
    var v := cs[0];
    if Escaped(v, c, bom) then Piece(Escape(v), column + |Escape(v)|, false)
    else if v == 0x20 then
      if Folds(c, first, column, spaces, |cs|) then
        var slash: Bytes := if cs[1] == 0x20 then [0x5C] else [];
        Piece(BreakBytes(c.lineBreak) + Spaces(c.indent) + slash, c.indent + |slash|, true)
      else Piece([0x20], column + 1, true)
    else Piece(Utf8(v), column + 1, false)
  }

  // What is written between the quotes for the characters cs that are left.
  function Body(cs: seq<Scalar>, c: Settings, bom: bool, first: bool, column: nat, spaces: bool): Bytes {
    if cs == [] then [] else
    var p := PieceFor(cs, c, bom, first, column, spaces);
    p.text + Body(cs[1..], c, bom, false, p.column, p.spaces)
  }

  function Quoted(cs: seq<Scalar>, c: Settings, column: nat): Bytes {
    [0x22] + Body(cs, c, IsBom(Enc(cs), 0), true, column + 1, false) + [0x22]
  }

  // Letters, digits, signs and the space.
  predicate Visible(b: byte) {
    0x20 <= b <= 0x7E
  }

  lemma {:induction false} HexVisible(v: nat, n: nat)
    ensures forall x :: x in Hex(v, n) ==> 0x30 <= x <= 0x39 || 0x41 <= x <= 0x46
  {
    if n > 0 { HexVisible(v / 16, n - 1); }
  }

  lemma EscapeVisible(v: Scalar)
    ensures forall x :: x in Escape(v) ==> Visible(x)
  {
    HexVisible(v, 2);
    HexVisible(v, 4);
    HexVisible(v, 8);
    hide Hex;
  }

  lemma PieceVisible(cs: seq<Scalar>, c: Settings, bom: bool, first: bool, column: nat, spaces: bool)
    requires cs != [] && !c.unicode
    ensures forall x :: x in PieceFor(cs, c, bom, first, column, spaces).text ==> Visible(x) || (c.allowBreaks && (x == 0x0A || x == 0x0D))
  {
    EscapeVisible(cs[0]);
    hide Escape, Visible;
    assert Visible(0x5C) && Visible(0x20) && forall v :: 0x20 <= v <= 0x7E ==> Visible(v) by { VisibleIs(); }
  }

  lemma VisibleIs()
    ensures forall v: byte :: 0x20 <= v <= 0x7E ==> Visible(v)
  {
  }

  // Unless Unicode is asked for only visible ASCII is written, but for line breaks,
  // and those only if they are allowed.
  lemma {:induction false} BodyVisible(cs: seq<Scalar>, c: Settings, bom: bool, first: bool, column: nat, spaces: bool)
    requires !c.unicode
    ensures forall x :: x in Body(cs, c, bom, first, column, spaces) ==> Visible(x) || (c.allowBreaks && (x == 0x0A || x == 0x0D))
    decreases |cs|
  {
    if cs != [] {
      hide PieceFor, Visible;
      var p := PieceFor(cs, c, bom, first, column, spaces);
      PieceVisible(cs, c, bom, first, column, spaces);
      BodyVisible(cs[1..], c, bom, false, p.column, p.spaces);
    }
  }

  // A line is broken only at a single space, neither first nor last, once it is
  // longer than the width asked for; the next line is indented as asked.
  lemma FoldedExact(cs: seq<Scalar>, c: Settings, first: bool, column: nat, spaces: bool)
    requires cs != [] && cs[0] == 0x20
    ensures var p := PieceFor(cs, c, false, first, column, spaces);
      if c.allowBreaks && column > c.bestWidth && !spaces && !first && |cs| > 1
      then p.text == BreakBytes(c.lineBreak) + Spaces(c.indent) + (if cs[1] == 0x20 then [0x5C] else [])
      else p.text == [0x20] && p.column == column + 1
  {
  }

  class Emitter {
    var out: Bytes
    var column: nat
    var whitespace: bool
    var indention: bool
    var indent: int
    const unicode: bool
    const bestWidth: int
    const lineBreak: Break

    constructor (unicode: bool, bestWidth: int, lineBreak: Break, indent: int)
      ensures this.unicode == unicode && this.bestWidth == bestWidth && this.lineBreak == lineBreak && this.indent == indent
      ensures out == [] && column == 0 && whitespace && indention
    {
      this.unicode, this.bestWidth, this.lineBreak, this.indent := unicode, bestWidth, lineBreak, indent;
      out, column, whitespace, indention := [], 0, true, true;
    }

    function SettingsWith(allowBreaks: bool): Settings
      reads this
    {
      Settings(unicode, bestWidth, if indent < 0 then 0 else indent, lineBreak, allowBreaks)
    }

    method Put(b: byte)
      modifies this`out, this`column
      ensures out == old(out) + [b] && column == old(column) + 1
    {
      out, column := out + [b], column + 1;
    }

    method PutBreak()
      modifies this`out, this`column
      ensures out == old(out) + BreakBytes(lineBreak) && column == 0
      ensures lineBreak == Cr ==> out == old(out) + [0x0D]
      ensures lineBreak == Ln ==> out == old(out) + [0x0A]
      ensures lineBreak == CrLn ==> out == old(out) + [0x0D, 0x0A]
    {
      out, column := out + BreakBytes(lineBreak), 0;
    }

    // Copies the character at i, and says where the next one is.
    method Write(s: Bytes, i: nat, ghost v: Scalar) returns (next: nat)
      requires Has(s, i, Utf8(v))
      modifies this`out, this`column
      ensures out == old(out) + Utf8(v) && column == old(column) + 1 && next == i + |Utf8(v)|
    {
      WidthOfChar(s, i, v);
      var w := Width(s[i]);
      out, column := out + s[i..i + w], column + 1;
      next := i + w;
    }

    method WriteIndent()
      modifies this
      ensures var n := if old(indent) < 0 then 0 else old(indent);
        if !old(indention) || old(column) > n || (old(column) == n && !old(whitespace))
        then out == old(out) + BreakBytes(lineBreak) + Spaces(n) && column == n
        else out == old(out) + Spaces(n - old(column)) && column == n
      ensures whitespace && indention && indent == old(indent)
    {
      var n := if indent < 0 then 0 else indent;
      if !indention || column > n || (column == n && !whitespace) {
        PutBreak();
      }
      ghost var before := out;
      ghost var from := column;
      while column < n
        invariant from <= column && (from <= n ==> column <= n) && out == before + Spaces(column - from)
        invariant indent == old(indent)
      {
        Put(0x20);
      }
      whitespace := true;
      indention := true;
    }

    method WriteQuote(needWhitespace: bool)
      modifies this
      ensures var pad: Bytes := if needWhitespace && !old(whitespace) then [0x20] else [];
        out == old(out) + pad + [0x22] && column == old(column) + |pad| + 1
      ensures !whitespace && !indention && indent == old(indent)
    {
      if needWhitespace && !whitespace {
        Put(0x20);
      }
      Put(0x22);
      whitespace := false;
      indention := false;
    }

    // The digits of v from the highest of w on.
    method PutHex(v: nat, w: nat)
      modifies this`out, this`column
      ensures out == old(out) + Hex(v, w) && column == old(column) + w
    {
      var k := w;
      while k > 0
        invariant 0 <= k <= w && out == old(out) + Hex(Shift(v, k), w - k) && column == old(column) + w - k
      {
        k := k - 1;
        Put(Digit(Shift(v, k) % 16));
      }
    }

    // The character at i, and where the next one is.
    method Decode(value: Bytes, i: nat, ghost cp: Scalar) returns (v: Scalar, next: nat)
      requires Has(value, i, Utf8(cp))
      ensures v == cp && next == i + |Utf8(cp)|
    {
      WidthOfChar(value, i, cp);
      ValueOfChar(value, i, cp);
      var octet := value[i];
      var w, r := Width(octet), Lead(octet);
      var k := 1;
      while k < w
        invariant 1 <= k <= w && r == Value(value, i, k)
      {
        octet := value[i + k];
        r := r * 64 + octet % 64;
        k := k + 1;
      }
      return r, i + w;
    }

    method PutEscape(v: Scalar)
      modifies this`out, this`column
      ensures out == old(out) + Escape(v) && column == old(column) + |Escape(v)|
    {
      Put(0x5C);
      match v {
        case 0x00 => Put('0' as int);
        case 0x07 => Put('a' as int);
        case 0x08 => Put('b' as int);
        case 0x09 => Put('t' as int);
        case 0x0A => Put('n' as int);
        case 0x0B => Put('v' as int);
        case 0x0C => Put('f' as int);
        case 0x0D => Put('r' as int);
        case 0x1B => Put('e' as int);
        case 0x22 => Put('"' as int);
        case 0x5C => Put('\\' as int);
        case 0x85 => Put('N' as int);
        case 0xA0 => Put('_' as int);
        case 0x2028 => Put('L' as int);
        case 0x2029 => Put('P' as int);
        case _ => PutCode(v);
      }
    }

    method PutCode(v: Scalar)
      modifies this`out, this`column
      ensures var code := if v <= 0xFF then [0x78] + Hex(v, 2) else if v <= 0xFFFF then [0x75] + Hex(v, 4) else [0x55] + Hex(v, 8);
        out == old(out) + code && column == old(column) + |code|
    {
      var w := 8;
      if v <= 0xFF {
        Put('x' as int);
        w := 2;
      } else if v <= 0xFFFF {
        Put('u' as int);
        w := 4;
      } else {
        Put('U' as int);
      }
      PutHex(v, w);
    }

    // Past the indentation, once a line was folded and more than spaces written.
    predicate Settled(spaces: bool)
      reads this
    {
      var n := if indent < 0 then 0 else indent;
      indention ==> column >= n && (spaces || column > n)
    }

    // A space, or a line break with the indentation for it.
    method WriteSpace(value: Bytes, i: nat, allowBreaks: bool, spaces: bool, ghost rest: seq<Scalar>) returns (next: nat)
      requires i < |value| && Settled(spaces) && rest != [] && rest[0] == 0x20 && Has(value, i, Utf8(0x20))
      requires |rest| > 1 <==> i + 1 < |value|
      requires |rest| > 1 ==> (IsSpace(value, i + 1) <==> rest[1] == 0x20)
      modifies this
      ensures next == i + 1
      ensures var c := SettingsWith(allowBreaks);
        var slash: Bytes := if |rest| > 1 && rest[1] == 0x20 then [0x5C] else [];
        if Folds(c, i == 0, old(column), spaces, |rest|)
        then out == old(out) + (BreakBytes(c.lineBreak) + Spaces(c.indent) + slash) && column == c.indent + |slash|
        else out == old(out) + [0x20] && column == old(column) + 1
      ensures Settled(true) && indent == old(indent)
    {
      hide IsSpace, Has;
      assert Utf8(0x20) == [0x20];
      if allowBreaks && !spaces && column > bestWidth && i > 0 && i < |value| - 1 {
        WriteIndent();
        ghost var line := BreakBytes(lineBreak) + Spaces(SettingsWith(allowBreaks).indent);
        assert out == old(out) + line && out + [0x5C] == old(out) + (line + [0x5C]) && line + [] == line;
        if IsSpace(value, i + 1) {
          Put(0x5C);
        }
        next := i + 1;
      } else {
        next := Write(value, i, 0x20);
      }
    }

    // One round of the loop: rest is what is left of the text at i.
    method WriteChar(value: Bytes, i: nat, allowBreaks: bool, spaces: bool, ghost rest: seq<Scalar>)
      returns (next: nat, spaces': bool)
      requires i < |value| && value[i..] == Enc(rest)
      requires Settled(spaces)
      modifies this
      ensures rest != [] && next == i + |Utf8(rest[0])| && next <= |value| && value[next..] == Enc(rest[1..])
      ensures var p := PieceFor(rest, SettingsWith(allowBreaks), IsBom(value, 0), i == 0, old(column), spaces);
        out == old(out) + p.text && column == p.column && spaces' == p.spaces
      ensures Settled(spaces')
      ensures indent == old(indent)
    {
      ghost var v := rest[0];
      NextChar(value, i, rest);
      TestsOfChar(value, i, v);
      assert v == 0x20 ==> Utf8(v) == [0x20];
      hide IsPrintable, Printable, IsBreak, LineBreak, IsAscii, Utf8, Has, Escape, Enc;
      if !IsPrintable(value, i) || (!unicode && !IsAscii(value, i)) || IsBom(value, i) || IsBreak(value, i)
        || value[i] == 0x22 || value[i] == 0x5C {
        var w;
        w, next := Decode(value, i, v);
        PutEscape(w);
        spaces' := false;
      } else if IsSpace(value, i) {
        next := WriteSpace(value, i, allowBreaks, spaces, rest);
        spaces' := true;
      } else {
        next := Write(value, i, v);
        spaces' := false;
      }
    }

    // The loop over the characters; the bytes of value are those of cs.
    method WriteChars(value: Bytes, allowBreaks: bool, ghost cs: seq<Scalar>)
      requires value == Enc(cs) && Settled(false)
      modifies this
      ensures out == old(out) + Body(cs, SettingsWith(allowBreaks), IsBom(value, 0), true, old(column), false)
      ensures indent == old(indent)
    {
      var spaces := false;
      ghost var c, bom, start := SettingsWith(allowBreaks), IsBom(value, 0), out;
      ghost var body := Body(cs, c, bom, true, column, false);
      ghost var rest := cs;
      var i := 0;
      assert value[0..] == value;
      hide PieceFor, IsBom, Enc, Settled, Body;
      while i < |value|
        invariant 0 <= i <= |value| && value[i..] == Enc(rest)
        invariant indent == old(indent) && c == SettingsWith(allowBreaks)
        invariant Settled(spaces)
        invariant Regrouped(out, Body(rest, c, bom, i == 0, column, spaces), start, body)
        decreases |rest|
      {
        EndsHere(rest);
        BodyStep(rest, c, bom, i == 0, column, spaces);
        ghost var before, p := out, PieceFor(rest, c, bom, i == 0, column, spaces);
        i, spaces := WriteChar(value, i, allowBreaks, spaces, rest);
        rest := rest[1..];
        Regroup(before, p.text, Body(rest, c, bom, false, column, spaces));
      }
      EndsHere(rest);
      BodyEnd(c, bom, i == 0, column, spaces);
    }

    method WriteDoubleQuotedScalar(value: Bytes, allowBreaks: bool, ghost cs: seq<Scalar>)
      requires value == Enc(cs)
      modifies this
      ensures var pad: Bytes := if old(whitespace) then [] else [0x20];
        out == old(out) + pad + Quoted(cs, SettingsWith(allowBreaks), old(column) + |pad|)
      ensures !whitespace && !indention && indent == old(indent)
    {
      hide Body, Enc, IsBom;
      ghost var before := out;
      WriteQuote(true);
      ghost var body := Body(cs, SettingsWith(allowBreaks), IsBom(value, 0), true, column, false);
      WriteChars(value, allowBreaks, cs);
      WriteQuote(false);
      InQuotes(before, if old(whitespace) then [] else [0x20], body);
    }
  }

  // x followed by y is start followed by body.
  predicate Regrouped(x: Bytes, y: Bytes, start: Bytes, body: Bytes) {
    x + y == start + body
  }

  lemma InQuotes(x: Bytes, pad: Bytes, body: Bytes)
    ensures x + pad + [0x22] + body + [0x22] == x + pad + ([0x22] + body + [0x22])
    ensures x + [] == x
  {
  }

  lemma Regroup(x: Bytes, y: Bytes, z: Bytes)
    ensures x + y + z == x + (y + z)
  {
  }

  lemma BodyStep(rest: seq<Scalar>, c: Settings, bom: bool, first: bool, column: nat, spaces: bool)
    requires rest != []
    ensures var p := PieceFor(rest, c, bom, first, column, spaces);
      Body(rest, c, bom, first, column, spaces) == p.text + Body(rest[1..], c, bom, false, p.column, p.spaces)
  {
  }

  lemma BodyEnd(c: Settings, bom: bool, first: bool, column: nat, spaces: bool)
    ensures Body([], c, bom, first, column, spaces) == []
  {
  }

  lemma EndsHere(rest: seq<Scalar>)
    ensures Enc(rest) == [] <==> rest == []
  {
  }

  // The next character of what is left, and what is left after it.
  lemma NextChar(value: Bytes, i: nat, rest: seq<Scalar>)
    requires i < |value| && value[i..] == Enc(rest)
    ensures rest != [] && Has(value, i, Utf8(rest[0]))
    ensures value[i + |Utf8(rest[0])|..] == Enc(rest[1..])
    ensures |rest| > 1 <==> i + |Utf8(rest[0])| < |value|
    ensures |rest| > 1 ==> (IsSpace(value, i + |Utf8(rest[0])|) <==> rest[1] == 0x20)
  {
    hide Utf8, IsSpace, Enc;
    EncParts(rest);
    var c := Utf8(rest[0]);
    assert value[i..] == c + Enc(rest[1..]);
    assert value[i..i + |c|] == value[i..][..|c|] == c;
    assert value[i + |c|..] == value[i..][|c|..] == Enc(rest[1..]);
    hide Has;
    EndsHere(rest[1..]);
    if |rest| > 1 {
      SpaceNext(value, i + |c|, rest[1..]);
    }
  }

  lemma SpaceNext(value: Bytes, i: nat, rest: seq<Scalar>)
    requires rest != [] && i < |value| && value[i..] == Enc(rest)
    ensures IsSpace(value, i) <==> rest[0] == 0x20
  {
    hide *;
    EncParts(rest);
    assert value[i] == value[i..][0] == Utf8(rest[0])[0];
    SpaceOrNot(value, i, rest[0]);
  }

  lemma EncParts(rest: seq<Scalar>)
    ensures if rest == [] then Enc(rest) == [] else Enc(rest) == Utf8(rest[0]) + Enc(rest[1..]) && Utf8(rest[0]) != []
  {
  }

  lemma SpaceOrNot(value: Bytes, i: nat, v: Scalar)
    requires i < |value| && Utf8(v) != [] && value[i] == Utf8(v)[0]
    ensures IsSpace(value, i) <==> v == 0x20
  {
  }
}
