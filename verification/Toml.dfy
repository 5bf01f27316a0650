/** Writing a string as a TOML basic string (repo_setup.py), and reading one back by the
    "String" section of TOML v1.0.0. Text is a sequence of code points. */
module Toml {
  import opened Sequences

  type CodePoint = c: int | 0 <= c <= 0x10FFFF
  type Text = seq<CodePoint>

  const QUOTE: CodePoint := 0x22
  const BACKSLASH: CodePoint := 0x5C
  const LOWER_U: CodePoint := 0x75
  const UPPER_U: CodePoint := 0x55

  predicate Surrogate(c: CodePoint) { 0xD800 <= c <= 0xDFFF }

  predicate ScalarValue(c: CodePoint) { !Surrogate(c) }

  /** The characters that have to be escaped: quotation mark, backslash, and the control
      characters other than tab; tab may be escaped too. */
  predicate Control(c: CodePoint) { c < 0x20 || c == 0x7F }

  // -------------------------------------------------------------------- writing

  function HexDigit(d: int): CodePoint
    requires 0 <= d < 16
  {
    if d < 10 then 0x30 + d else 0x41 + d - 10
  }

  /** Four upper-case hexadecimal digits. */
  function Hex4(c: CodePoint): Text
    requires c < 0x10000
  {
    [HexDigit(c / 0x1000), HexDigit(c / 0x100 % 16), HexDigit(c / 16 % 16), HexDigit(c % 16)]
  }

  /** How one character is written. */
  function Piece(c: CodePoint): Text {
    if c == QUOTE || c == BACKSLASH then [BACKSLASH, c]
    else if Control(c) then [BACKSLASH, LOWER_U] + Hex4(c)
    else [c]
  }

  function Pieces(value: Text): Text {
    if value == [] then [] else Pieces(value[..|value| - 1]) + Piece(value[|value| - 1])
  }

  function Encoded(value: Text): Text { [QUOTE] + Pieces(value) + [QUOTE] }

  datatype SetupError = NotRepresentable

  /** toml_basic_string: refused exactly when some character is a surrogate. */
  method BasicString(value: Text) returns (r: Result<Text, SetupError>)
    ensures r.Err? <==> exists c :: c in value && Surrogate(c)
    ensures r.Ok? ==> r.value == Encoded(value) && Decode(r.value) == Some((value, []))
  {
    var out: Text := [QUOTE];
    for i := 0 to |value|
      invariant out == [QUOTE] + Pieces(value[..i])
      invariant forall k :: 0 <= k < i ==> ScalarValue(value[k])
    {
      var c := value[i];
      OutStep(value, i);
      if Surrogate(c) { return Err(NotRepresentable); }
      if c in {QUOTE, BACKSLASH} {
        out := out + [BACKSLASH, c];
      } else if c < 0x20 || c == 0x7F {
        out := out + ([BACKSLASH, LOWER_U] + Hex4(c));
      } else {
        out := out + [c];
      }
    }
    WholeReads(value);
    assert value[..|value|] == value;
    r := Ok(out + [QUOTE]);
  }

  lemma OutStep(value: Text, i: nat)
    requires i < |value|
    ensures [QUOTE] + Pieces(value[..i + 1]) == [QUOTE] + Pieces(value[..i]) + Piece(value[i])
  {
    PiecesSnoc(value[..i], value[i]);
    assert value[..i + 1] == value[..i] + [value[i]];
    Assoc([QUOTE], Pieces(value[..i]), Piece(value[i]));
  }

  lemma WholeReads(value: Text)
    requires forall c :: c in value ==> ScalarValue(c)
    ensures Decode(Encoded(value)) == Some((value, []))
  {
    RoundTrip(value, []);
    assert Encoded(value) + [] == Encoded(value);
  }

  // -------------------------------------------------------------------- reading

  function HexValue(c: CodePoint): Option<int> {
    if 0x30 <= c <= 0x39 then Some(c - 0x30)
    else if 0x41 <= c <= 0x46 then Some(c - 0x41 + 10)
    else if 0x61 <= c <= 0x66 then Some(c - 0x61 + 10)
    else None
  }

  /** The number written by the first n characters. */
  function HexNumber(s: Text, n: nat): Option<nat>
    decreases n
  {
    if n == 0 then Some(0)
    else if n > |s| then None
    else
      var before, last := HexNumber(s, n - 1), HexValue(s[n - 1]);
      if before.Some? && last.Some? && 0 <= last.value then Some(before.value * 16 + last.value) else None
  }

  /** An escape after its backslash: the character it stands for and how long it is. All
      escapes other than the listed ones are errors, and so is a code that is no scalar
      value. */
  function Escape(s: Text): (r: Option<(CodePoint, nat)>)
    ensures r.Some? ==> 0 < r.value.1 <= |s|
  {
    if s == [] then None
    else if s[0] == 0x62 then Some((0x08, 1))
    else if s[0] == 0x74 then Some((0x09, 1))
    else if s[0] == 0x6E then Some((0x0A, 1))
    else if s[0] == 0x66 then Some((0x0C, 1))
    else if s[0] == 0x72 then Some((0x0D, 1))
    else if s[0] == QUOTE then Some((QUOTE, 1))
    else if s[0] == BACKSLASH then Some((BACKSLASH, 1))
    else if s[0] == LOWER_U then ScalarEscape(s[1..], 4)
    else if s[0] == UPPER_U then ScalarEscape(s[1..], 8)
    else None
  }

  function ScalarEscape(digits: Text, n: nat): (r: Option<(CodePoint, nat)>)
    ensures r.Some? ==> r.value.1 == n + 1 && n <= |digits|
  {
    var code := HexNumber(digits, n);
    if code.Some? && n <= |digits| && code.value <= 0x10FFFF && !Surrogate(code.value)
    then Some((code.value, n + 1)) else None
  }

  /** The inside of a basic string up to its closing quotation mark, and what follows it. */
  function Inside(s: Text): Option<(Text, Text)>
    decreases |s|
  {
    if s == [] then None
    else if s[0] == QUOTE then Some(([], s[1..]))
    else if s[0] == BACKSLASH then
      var escape := Escape(s[1..]);
      if escape == None then None else Prepend(escape.value.0, Inside(s[1 + escape.value.1..]))
    else if (Control(s[0]) && s[0] != 0x09) || Surrogate(s[0]) then None
    else Prepend(s[0], Inside(s[1..]))
  }

  function Prepend(c: CodePoint, r: Option<(Text, Text)>): Option<(Text, Text)> {
    if r == None then None else Some(([c] + r.value.0, r.value.1))
  }

  /** The basic-string production at the start of s: the value and the text after it. */
  function Decode(s: Text): Option<(Text, Text)> {
    if s != [] && s[0] == QUOTE then Inside(s[1..]) else None
  }

  // ------------------------------------------------------------------- round trip

  lemma HexDigitReads(d: int)
    requires 0 <= d < 16
    ensures HexValue(HexDigit(d)) == Some(d)
  {}

  lemma DigitsSplit(c: CodePoint)
    requires c < 0x10000
    ensures (((c / 0x1000) * 16 + c / 0x100 % 16) * 16 + c / 16 % 16) * 16 + c % 16 == c
    ensures 0 <= c / 0x1000 < 16
  {}

  lemma HexRoundTrip(c: CodePoint, rest: Text)
    requires c < 0x10000
    ensures HexNumber(Hex4(c) + rest, 4) == Some(c)
  {
    DigitsSplit(c);
    FourDigits(c / 0x1000, c / 0x100 % 16, c / 16 % 16, c % 16, rest);
  }

  lemma FourDigits(a: int, b: int, c: int, d: int, rest: Text)
    requires 0 <= a < 16 && 0 <= b < 16 && 0 <= c < 16 && 0 <= d < 16
    ensures HexNumber([HexDigit(a), HexDigit(b), HexDigit(c), HexDigit(d)] + rest, 4)
         == Some(((a * 16 + b) * 16 + c) * 16 + d)
  {
    var s := [HexDigit(a), HexDigit(b), HexDigit(c), HexDigit(d)] + rest;
    HexDigitReads(a);
    HexDigitReads(b);
    HexDigitReads(c);
    HexDigitReads(d);
    assert HexNumber(s, 1) == Some(a);
    assert HexNumber(s, 2) == Some(a * 16 + b);
    assert HexNumber(s, 3) == Some((a * 16 + b) * 16 + c);
  }

  lemma EscapeReads(c: CodePoint, rest: Text)
    requires Control(c)
    ensures Inside([BACKSLASH, LOWER_U] + Hex4(c) + rest) == Prepend(c, Inside(rest))
  {
    var digits := Hex4(c) + rest;
    HexRoundTrip(c, rest);
    Behind(LOWER_U, digits);
    Behind(BACKSLASH, [LOWER_U] + digits);
    assert [BACKSLASH, LOWER_U] + Hex4(c) + rest == [BACKSLASH] + ([LOWER_U] + digits);
    assert Escape([LOWER_U] + digits) == Some((c, 5));
    assert ([BACKSLASH] + ([LOWER_U] + digits))[6..] == rest;
  }

  /** One written character is read as that character. */
  lemma PieceReads(c: CodePoint, rest: Text)
    requires ScalarValue(c)
    ensures Inside(Piece(c) + rest) == Prepend(c, Inside(rest))
  {
    if c == QUOTE || c == BACKSLASH {
      var s := [BACKSLASH, c] + rest;
      assert s[1..] == [c] + rest && s[2..] == rest;
    } else if Control(c) {
      EscapeReads(c, rest);
    } else {
      Behind(c, rest);
    }
  }

  /** Exactly how a character is written: quotation mark and backslash behind a backslash; the
      control characters, tab among them, as \u00 and two upper-case hexadecimal digits; every
      other character as itself. */
  lemma PieceExactly(c: CodePoint)
    ensures Piece(c)
         == if c == 0x22 || c == 0x5C then [0x5C, c]
            else if c < 0x20 || c == 0x7F then
              [0x5C, 0x75, 0x30, 0x30, 0x30 + c / 16, if c % 16 < 10 then 0x30 + c % 16 else 0x41 + c % 16 - 10]
            else [c]
  {
    if Control(c) {
      assert c / 0x1000 == 0 && c / 0x100 == 0 && c / 16 < 8;
    }
  }

  /** What is written is one line of printable text: no control character stands in it. */
  lemma {:induction false} NoControlWritten(value: Text)
    ensures forall k :: 0 <= k < |Pieces(value)| ==> Pieces(value)[k] >= 0x20 && Pieces(value)[k] != 0x7F
  {
    if value != [] {
      NoControlWritten(value[..|value| - 1]);
      PieceExactly(value[|value| - 1]);
    }
  }

  function PutBefore(value: Text, r: Option<(Text, Text)>): Option<(Text, Text)> {
    if r == None then None else Some((value + r.value.0, r.value.1))
  }

  lemma PutBeforeOne(before: Text, c: CodePoint, r: Option<(Text, Text)>)
    ensures PutBefore(before, Prepend(c, r)) == PutBefore(before + [c], r)
  {
    if r.Some? { assert before + ([c] + r.value.0) == before + [c] + r.value.0; }
  }

  lemma PiecesSnoc(before: Text, c: CodePoint)
    ensures Pieces(before + [c]) == Pieces(before) + Piece(c)
  {
    assert (before + [c])[..|before|] == before;
  }

  /** A written value in front of any text is read character by character. */
  lemma {:induction false} PiecesRead(value: Text, tail: Text)
    requires forall c :: c in value ==> ScalarValue(c)
    ensures Inside(Pieces(value) + tail) == PutBefore(value, Inside(tail))
  {
    if value == [] {
      assert Pieces(value) + tail == tail;
      if Inside(tail).Some? { assert [] + Inside(tail).value.0 == Inside(tail).value.0; }
    } else {
      var before, c := value[..|value| - 1], value[|value| - 1];
      assert value == before + [c];
      LastPiece(before, c, tail);
      PiecesRead(before, Piece(c) + tail);
    }
  }

  lemma LastPiece(before: Text, c: CodePoint, tail: Text)
    requires ScalarValue(c)
    ensures Pieces(before + [c]) + tail == Pieces(before) + (Piece(c) + tail)
    ensures PutBefore(before, Inside(Piece(c) + tail)) == PutBefore(before + [c], Inside(tail))
  {
    PiecesSnoc(before, c);
    Assoc(Pieces(before), Piece(c), tail);
    PieceReads(c, tail);
    PutBeforeOne(before, c, Inside(tail));
  }

  /** Reading gives the value back and consumes exactly the written text, whatever follows. */
  lemma RoundTrip(value: Text, rest: Text)
    requires forall c :: c in value ==> ScalarValue(c)
    ensures Decode(Encoded(value) + rest) == Some((value, rest))
  {
    var tail := [QUOTE] + rest;
    PiecesRead(value, tail);
    Behind(QUOTE, rest);
    assert value + [] == value;
    Assoc([QUOTE] + Pieces(value), [QUOTE], rest);
    Assoc([QUOTE], Pieces(value), tail);
    Behind(QUOTE, Pieces(value) + tail);
  }
}
