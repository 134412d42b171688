// The double-quoted branch of yaml_parser_scan_flow_scalar: the loops as
// functions of where they stand, and the method that runs them.

module YamlScanner {
  import opened YamlChars

  datatype Problem = DocumentIndicator | EndOfStream | UnknownEscape | NotHex | BadCode | BadSequence

  // A scalar, with the position and column after its right quote.
  datatype Result = Ok(value: Bytes, pos: nat, column: nat) | Err(problem: Problem)

  // An escape sequence: the bytes it stands for and its length.
  datatype Escaped = Esc(text: Bytes, length: nat) | BadEsc(problem: Problem)

  datatype Option<T> = Some(value: T) | None

  // The number written by the n digits at i.
  function HexValue(b: Bytes, i: nat, n: nat): (r: Option<int>)
    ensures r.Some? ==> r.value >= 0 && (n > 0 ==> i + n <= |b|)
  {
    if n == 0 then Some(0) else
    match HexValue(b, i, n - 1)
    case None => None
    case Some(v) => if IsHex(b, i + n - 1) then Some(v * 16 + AsHex(b, i + n - 1)) else None
  }

  // The bytes for an escape code.
  function CodeBytes(v: int): Option<Bytes>
    requires v >= 0
  {
    if 0xD800 <= v <= 0xDFFF || v > 0x10FFFF then None
    else if v <= 0x7F then Some([v])
    else if v <= 0x7FF then Some([0xC0 + v / 64, 0x80 + v % 64])
    else if v <= 0xFFFF then Some([0xE0 + v / 4096, 0x80 + v / 64 % 64, 0x80 + v % 64])
    else Some([0xF0 + v / 262144, 0x80 + v / 4096 % 64, 0x80 + v / 64 % 64, 0x80 + v % 64])
  }

  function CodeAt(b: Bytes, i: nat, n: nat): Escaped {
    match HexValue(b, i + 2, n)
    case None => BadEsc(NotHex)
    case Some(v) =>
      match CodeBytes(v)
      case None => BadEsc(BadCode)
      case Some(text) => Esc(text, n + 2)
  }

  // What a one-character escape stands for.
  function Simple(c: byte): Option<Bytes> {
    if c == 0x30 then Some([0])
    else if c == 0x61 then Some([0x07])
    else if c == 0x62 then Some([0x08])
    else if c == 0x74 || c == 0x09 then Some([0x09])
    else if c == 0x6E then Some([0x0A])
    else if c == 0x76 then Some([0x0B])
    else if c == 0x66 then Some([0x0C])
    else if c == 0x72 then Some([0x0D])
    else if c == 0x65 then Some([0x1B])
    else if c == 0x20 || c == 0x22 || c == 0x27 || c == 0x5C then Some([c])
    else if c == 0x4E then Some([0xC2, 0x85])
    else if c == 0x5F then Some([0xC2, 0xA0])
    else if c == 0x4C then Some([0xE2, 0x80, 0xA8])
    else if c == 0x50 then Some([0xE2, 0x80, 0xA9])
    else None
  }

  // How many digits follow x, u and U.
  function CodeLength(c: byte): nat {
    if c == 0x78 then 2 else if c == 0x75 then 4 else if c == 0x55 then 8 else 0
  }

  // The escape sequence at i, where the backslash is.
  function EscapeAt(b: Bytes, i: nat): (r: Escaped)
    requires At(b, i) == 0x5C
    ensures r.Esc? ==> 2 <= r.length && i + r.length <= |b|
  {
    var c := At(b, i + 1);
    match Simple(c)
    case Some(text) => Esc(text, 2)
    case None => if CodeLength(c) > 0 then CodeAt(b, i, CodeLength(c)) else BadEsc(UnknownEscape)
  }

  predicate Indicator(b: Bytes, i: nat) {
    || (At(b, i) == 0x2D && At(b, i + 1) == 0x2D && At(b, i + 2) == 0x2D)
    || (At(b, i) == 0x2E && At(b, i + 1) == 0x2E && At(b, i + 2) == 0x2E)
  }

  function BreakLength(b: Bytes, i: nat): (n: nat)
    requires IsBreak(b, i)
    ensures 1 <= n && i + n <= |b|
  {
    if IsCrlf(b, i) then 2 else if At(b, i) == 0x0D || At(b, i) == 0x0A then 1 else if At(b, i) == 0xC2 then 2 else 3
  }

  // What a line break is read as.
  function BreakText(b: Bytes, i: nat): Bytes
    requires IsBreak(b, i)
  {
    if At(b, i) == 0xE2 then [0xE2, 0x80, At(b, i + 2)] else [0x0A]
  }

  // Where the scanner stands between runs of non-blank characters.
  datatype Blank = Blank(leadingBlanks: bool, leading: Bytes, trailing: Bytes, spaces: Bytes)

  const NO_BLANKS := Blank(false, [], [], [])

  function Join(k: Blank): Bytes {
    if !k.leadingBlanks then k.spaces
    else if |k.leading| > 0 && k.leading[0] == 0x0A then (if k.trailing == [] then [0x20] else k.trailing)
    else k.leading + k.trailing
  }

  // ---------- the loops ----------

  // At the head of the outer loop.
  function Outer(b: Bytes, i: nat, column: nat, s: Bytes): Result
    requires i <= |b|
    decreases |b| - i, if IsZ(b, i) then 0 else 6
  {
    if column == 0 && Indicator(b, i) && IsBlankz(b, i + 3) then Err(DocumentIndicator)
    else if IsZ(b, i) then Err(EndOfStream)
    else Inner(b, i, column, s)
  }

  // Among non-blank characters.
  function Inner(b: Bytes, i: nat, column: nat, s: Bytes): Result
    requires i <= |b|
    decreases |b| - i, 4
  {
    if IsBlankz(b, i) || At(b, i) == 0x22 then AfterInner(b, i, column, s, false)
    else if At(b, i) == 0x5C && IsBreak(b, i + 1) then AfterInner(b, i + 1 + BreakLength(b, i + 1), 0, s, true)
    else if At(b, i) == 0x5C then
      match EscapeAt(b, i)
      case BadEsc(problem) => Err(problem)
      case Esc(text, length) => Inner(b, i + length, column + length, s + text)
    else
      var w := Width(At(b, i));
      if w == 0 || i + w > |b| then Err(BadSequence) else Inner(b, i + w, column + 1, s + b[i..i + w])
  }

  function AfterInner(b: Bytes, i: nat, column: nat, s: Bytes, leadingBlanks: bool): Result
    requires i <= |b|
    decreases |b| - i, if IsBlankz(b, i) || At(b, i) == 0x22 then 3 else 9
  {
    if At(b, i) == 0x22 then Ok(s, i + 1, column + 1)
    else Blanks(b, i, column, s, NO_BLANKS.(leadingBlanks := leadingBlanks))
  }

  // Among blanks and line breaks.
  function Blanks(b: Bytes, i: nat, column: nat, s: Bytes, k: Blank): Result
    requires i <= |b|
    decreases |b| - i, if IsBlankz(b, i) then 2 else 8
  {
    if IsBlank(b, i) then
      Blanks(b, i + 1, column + 1, s, if k.leadingBlanks then k else k.(spaces := k.spaces + [At(b, i)]))
    else if IsBreak(b, i) then
      Blanks(b, i + BreakLength(b, i), 0, s,
        if k.leadingBlanks then k.(trailing := k.trailing + BreakText(b, i))
        else Blank(true, k.leading + BreakText(b, i), k.trailing, []))
    else Outer(b, i, column, s + Join(k))
  }

  // The whole scalar, from its left quote on.
  function Scan(b: Bytes, i: nat, column: nat): Result
    requires i < |b|
  {
    Outer(b, i + 1, column + 1, [])
  }

  // ---------- the method ----------

  class Scanner {
    const buffer: Bytes
    var pos: nat
    var column: nat

    constructor (text: Bytes)
      ensures buffer == text && pos == 0 && column == 0
    {
      buffer, pos, column := text, 0, 0;
    }

    method Skip(n: nat)
      modifies this`pos, this`column
      ensures pos == old(pos) + n && column == old(column) + n
    {
      pos, column := pos + n, column + n;
    }

    method SkipLine()
      requires IsBreak(buffer, pos)
      modifies this`pos, this`column
      ensures pos == old(pos) + BreakLength(buffer, old(pos)) && column == 0
    {
      if IsCrlf(buffer, pos) {
        pos, column := pos + 2, 0;
      } else {
        pos, column := pos + Width(At(buffer, pos)), 0;
      }
    }

    method ReadLine(s: Bytes) returns (r: Bytes)
      requires IsBreak(buffer, pos)
      modifies this`pos, this`column
      ensures r == s + BreakText(buffer, old(pos))
      ensures pos == old(pos) + BreakLength(buffer, old(pos)) && column == 0
    {
      if At(buffer, pos) == 0x0D && At(buffer, pos + 1) == 0x0A {
        r := s + [0x0A];
        pos := pos + 2;
      } else if At(buffer, pos) == 0x0D || At(buffer, pos) == 0x0A {
        r := s + [0x0A];
        pos := pos + 1;
      } else if At(buffer, pos) == 0xC2 && At(buffer, pos + 1) == 0x85 {
        r := s + [0x0A];
        pos := pos + 2;
      } else {
        r := s + buffer[pos..pos + 3];
        pos := pos + 3;
      }
      column := 0;
    }

    method ScanHex(n: nat) returns (v: Option<int>)
      ensures v == HexValue(buffer, pos, n)
    {
      var value, k := 0, 0;
      while k < n
        invariant 0 <= k <= n && HexValue(buffer, pos, k) == Some(value)
      {
        if !IsHex(buffer, pos + k) {
          HexStops(buffer, pos, k + 1, n);
          return None;
        }
        value := value * 16 + AsHex(buffer, pos + k);
        k := k + 1;
      }
      v := Some(value);
    }

    method AppendCode(s: Bytes, v: int) returns (r: Bytes)
      requires v >= 0 && !(0xD800 <= v <= 0xDFFF) && v <= 0x10FFFF
      ensures r == s + CodeBytes(v).value
    {
      if v <= 0x7F {
        r := s + [v];
      } else if v <= 0x7FF {
        r := s + [0xC0 + v / 64];
        r := r + [0x80 + v % 64];
      } else if v <= 0xFFFF {
        r := s + [0xE0 + v / 4096];
        r := r + [0x80 + v / 64 % 64];
        r := r + [0x80 + v % 64];
      } else {
        r := s + [0xF0 + v / 262144];
        r := r + [0x80 + v / 4096 % 64];
        r := r + [0x80 + v / 64 % 64];
        r := r + [0x80 + v % 64];
      }
    }

    method ScanEscape() returns (r: Option<Bytes>, ghost problem: Problem)
      requires pos <= |buffer| && At(buffer, pos) == 0x5C
      modifies this`pos, this`column
      ensures match EscapeAt(buffer, old(pos))
              case Esc(text, length) => r == Some(text) && pos == old(pos) + length && column == old(column) + length
              case BadEsc(p) => r == None && problem == p
    {
      hide At, HexValue;
      problem := UnknownEscape;
      var s: Bytes, codeLength := [], 0;
      var c := At(buffer, pos + 1);
      match c as char {
        case '0' => s := [0];
        case 'a' => s := [0x07];
        case 'b' => s := [0x08];
        case 't' => s := [0x09];
        case '\t' => s := [0x09];
        case 'n' => s := [0x0A];
        case 'v' => s := [0x0B];
        case 'f' => s := [0x0C];
        case 'r' => s := [0x0D];
        case 'e' => s := [0x1B];
        case ' ' => s := [0x20];
        case '"' => s := [0x22];
        case '\'' => s := [0x27];
        case '\\' => s := [0x5C];
        case 'N' => s := [0xC2, 0x85];
        case '_' => s := [0xC2, 0xA0];
        case 'L' => s := [0xE2, 0x80, 0xA8];
        case 'P' => s := [0xE2, 0x80, 0xA9];
        case 'x' => codeLength := 2;
        case 'u' => codeLength := 4;
        case 'U' => codeLength := 8;
        case _ => return None, UnknownEscape;
      }
      assert codeLength == CodeLength(c) && if codeLength == 0 then Simple(c) == Some(s) else s == [] && Simple(c) == None;
      hide Simple, CodeLength;
      Skip(2);
      if codeLength > 0 {
        var value := ScanHex(codeLength);
        if value == None {
          return None, NotHex;
        }
        var v := value.value;
        if 0xD800 <= v <= 0xDFFF || v > 0x10FFFF {
          return None, BadCode;
        }
        s := AppendCode(s, v);
        assert s == CodeBytes(v).value && CodeBytes(v).Some?;
        hide CodeBytes;
        Skip(codeLength);
      }
      r := Some(s);
    }

    // r and problem say what a scan that comes out as expected has to say.
    ghost predicate Answers(r: Option<Bytes>, problem: Problem, expected: Result)
      reads this
    {
      match expected
      case Ok(value, i, col) => r == Some(value) && pos == i && column == col
      case Err(p) => r == None && problem == p
    }

    // The inner loop over non-blank characters.
    method ReadText(s: Bytes) returns (r: Option<Bytes>, leadingBlanks: bool, ghost problem: Problem)
      requires pos <= |buffer|
      modifies this`pos, this`column
      ensures r.Some? ==> old(pos) <= pos <= |buffer| && (pos > old(pos) || IsBlankz(buffer, pos) || At(buffer, pos) == 0x22)
      ensures if r.Some? then AfterInner(buffer, pos, column, r.value, leadingBlanks) == Inner(buffer, old(pos), old(column), s)
              else Inner(buffer, old(pos), old(column), s) == Err(problem)
      ensures r.Some? && !leadingBlanks ==> IsBlankz(buffer, pos) || At(buffer, pos) == 0x22
    {
      ghost var whole := Inner(buffer, pos, column, s);
      hide IsBlank, IsBreak, EscapeAt, Width, BreakLength, At;
      var t := s;
      problem := EndOfStream;
      leadingBlanks := false;
      while !IsBlankz(buffer, pos)
        invariant old(pos) <= pos <= |buffer| && !leadingBlanks
        invariant Inner(buffer, pos, column, t) == whole
        decreases |buffer| - pos
      {
        if At(buffer, pos) == 0x22 {
          break;
        } else if At(buffer, pos) == 0x5C && IsBreak(buffer, pos + 1) {
          Skip(1);
          SkipLine();
          leadingBlanks := true;
          return Some(t), leadingBlanks, problem;
        } else if At(buffer, pos) == 0x5C {
          var text, p := ScanEscape();
          if text == None {
            return None, leadingBlanks, p;
          }
          t := t + text.value;
        } else {
          var w := Width(At(buffer, pos));
          if w == 0 || pos + w > |buffer| {
            return None, leadingBlanks, BadSequence;
          }
          t := t + buffer[pos..pos + w];
          pos, column := pos + w, column + 1;
        }
      }
      r := Some(t);
    }

    // The inner loop over blanks and line breaks, and what they are folded to.
    method ReadBlanks(s: Bytes, escapedBreak: bool) returns (r: Bytes)
      requires pos <= |buffer|
      modifies this`pos, this`column
      ensures old(pos) <= pos <= |buffer| && (pos > old(pos) || !(IsBlank(buffer, pos) || IsBreak(buffer, pos)))
      ensures !IsBlank(buffer, pos) && !IsBreak(buffer, pos)
      ensures Outer(buffer, pos, column, r) == Blanks(buffer, old(pos), old(column), s, NO_BLANKS.(leadingBlanks := escapedBreak))
    {
      var leadingBlanks := escapedBreak;
      var leadingBreak, trailingBreaks, whitespaces: Bytes := [], [], [];
      ghost var whole := Blanks(buffer, pos, column, s, NO_BLANKS.(leadingBlanks := escapedBreak));
      hide IsBlank, IsBreak, BreakText, BreakLength, Join;
      while IsBlank(buffer, pos) || IsBreak(buffer, pos)
        invariant old(pos) <= pos <= |buffer|
        invariant Blanks(buffer, pos, column, s, Blank(leadingBlanks, leadingBreak, trailingBreaks, whitespaces)) == whole
        decreases |buffer| - pos
      {
        if IsBlank(buffer, pos) {
          BlankInside(buffer, pos);
          if !leadingBlanks {
            whitespaces := whitespaces + [At(buffer, pos)];
          }
          Skip(1);
        } else if !leadingBlanks {
          whitespaces := [];
          leadingBreak := ReadLine(leadingBreak);
          leadingBlanks := true;
        } else {
          trailingBreaks := ReadLine(trailingBreaks);
        }
      }
      r := JoinBlanks(s, leadingBlanks, leadingBreak, trailingBreaks, whitespaces);
    }

    method JoinBlanks(s: Bytes, leadingBlanks: bool, leadingBreak: Bytes, trailingBreaks: Bytes, whitespaces: Bytes) returns (r: Bytes)
      ensures r == s + Join(Blank(leadingBlanks, leadingBreak, trailingBreaks, whitespaces))
    {
      if leadingBlanks {
        if |leadingBreak| > 0 && leadingBreak[0] == 0x0A {
          if |trailingBreaks| == 0 {
            r := s + [0x20];
          } else {
            r := s + trailingBreaks;
          }
        } else {
          r := s + leadingBreak;
          r := r + trailingBreaks;
        }
      } else {
        r := s + whitespaces;
      }
    }

    method ScanFlowScalar() returns (r: Option<Bytes>, ghost problem: Problem)
      requires pos < |buffer| && At(buffer, pos) == 0x22
      modifies this`pos, this`column
      ensures Answers(r, problem, Scan(buffer, old(pos), old(column)))
    {
      ghost var whole := Scan(buffer, pos, column);
      hide IsBlank, IsBreak, Indicator, Inner, Blanks;
      problem := EndOfStream;
      Skip(1);
      var s: Bytes := [];
      while true
        invariant pos <= |buffer|
        invariant Outer(buffer, pos, column, s) == whole
        decreases |buffer| - pos, if IsZ(buffer, pos) then 0 else 1
      {
        if column == 0 && Indicator(buffer, pos) && IsBlankz(buffer, pos + 3) {
          return None, DocumentIndicator;
        }
        if IsZ(buffer, pos) {
          return None, EndOfStream;
        }
        var text, leadingBlanks, p := ReadText(s);
        if text == None {
          return None, p;
        }
        s := text.value;
        if At(buffer, pos) == 0x22 {
          break;
        }
        s := ReadBlanks(s, leadingBlanks);
      }
      Skip(1);
      r := Some(s);
    }
  }

  lemma BlankInside(b: Bytes, i: nat)
    requires IsBlank(b, i)
    ensures i < |b|
  {
  }

  // No digits beyond one that is none.
  lemma {:induction false} HexStops(b: Bytes, i: nat, k: nat, n: nat)
    requires k <= n && HexValue(b, i, k) == None
    ensures HexValue(b, i, n) == None
  {
    if k < n { HexStops(b, i, k, n - 1); }
  }
}
