/** UTF-8 text as bytes, following the grammar of RFC 3629 section 4, and the
    two operations of the Rust string type the terminal code relies on: the
    character-boundary test and the lossy decoding of a byte chunk. */
module Utf8 {
  type byte = x: int | 0 <= x < 256

  type bytes = seq<byte>

  predicate Continuation(b: byte) {
    0x80 <= b < 0xC0
  }

  /** May `second` follow the lead byte `first` in a well-formed sequence? */
  predicate SecondByte(first: byte, second: byte) {
    if first == 0xE0 then 0xA0 <= second < 0xC0
    else if first == 0xED then 0x80 <= second < 0xA0
    else if first == 0xF0 then 0x90 <= second < 0xC0
    else if first == 0xF4 then 0x80 <= second < 0x90
    else Continuation(second)
  }

  /** The number of bytes the lead byte announces; 0 when it leads nothing. */
  function Announced(first: byte): nat {
    if first < 0x80 then 1
    else if 0xC2 <= first < 0xE0 then 2
    else if 0xE0 <= first < 0xF0 then 3
    else if 0xF0 <= first < 0xF5 then 4
    else 0
  }

  /** How many bytes at the head of `s` agree with the sequence its lead byte
      announces. The head is a whole character when all of them do. */
  function Matched(s: bytes): (n: nat)
    requires s != []
    ensures n <= |s| && n <= Announced(s[0])
  {
    var want := Announced(s[0]);
    if want <= 1 then want
    else if |s| < 2 || !SecondByte(s[0], s[1]) then 1
    else if want == 2 then 2
    else if |s| < 3 || !Continuation(s[2]) then 2
    else if want == 3 then 3
    else if |s| < 4 || !Continuation(s[3]) then 3
    else 4
  }

  predicate StartsWithCharacter(s: bytes) {
    s != [] && Announced(s[0]) > 0 && Matched(s) == Announced(s[0])
  }

  /** Well-formed UTF-8: a sequence of whole characters. */
  predicate IsText(s: bytes) {
    s == [] || (StartsWithCharacter(s) && IsText(s[Announced(s[0])..]))
  }

  /** The byte test the program makes before it slices a string. */
  predicate CharBoundary(s: bytes, i: nat)
    requires i <= |s|
  {
    i == 0 || i == |s| || !Continuation(s[i])
  }

  /** The replacement character U+FFFD. */
  const REPLACEMENT: bytes := [0xEF, 0xBF, 0xBD]

  /** Lossy decoding: every maximal ill-formed part becomes one U+FFFD. */
  function Lossy(s: bytes): (t: bytes) {
    if s == [] then []
    else if StartsWithCharacter(s) then
      var n := Announced(s[0]);
      s[..n] + Lossy(s[n..])
    else
      var n := if Matched(s) == 0 then 1 else Matched(s);
      REPLACEMENT + Lossy(s[n..])
  }

  lemma CharacterIsLocal(s: bytes, t: bytes)
    requires StartsWithCharacter(s)
    requires |t| >= Announced(s[0]) && t[..Announced(s[0])] == s[..Announced(s[0])]
    ensures StartsWithCharacter(t) && t[0] == s[0]
  {
    var n := Announced(s[0]);
    assert forall k | 0 <= k < n :: t[k] == t[..n][k] == s[..n][k] == s[k];
  }

  lemma PrependCharacter(c: bytes, rest: bytes)
    requires StartsWithCharacter(c) && |c| == Announced(c[0])
    requires IsText(rest)
    ensures IsText(c + rest)
  {
    CharacterIsLocal(c, c + rest);
    assert (c + rest)[|c|..] == rest;
  }

  lemma SplitConcat(a: bytes, b: bytes, n: nat)
    requires n <= |a|
    ensures a[..n] + (a[n..] + b) == a + b
  {
  }

  lemma {:induction false} TextConcat(a: bytes, b: bytes)
    requires IsText(a) && IsText(b)
    ensures IsText(a + b)
  {
    if a == [] {
      assert a + b == b;
    } else {
      var n := Announced(a[0]);
      TextConcat(a[n..], b);
      CharacterIsLocal(a, a[..n]);
      PrependCharacter(a[..n], a[n..] + b);
      SplitConcat(a, b, n);
    }
  }

  /** In well-formed text the byte test finds exactly the positions that
      separate two well-formed texts, so a slice taken there is text again. */
  lemma {:induction false} BoundarySplitsText(s: bytes, i: nat)
    requires IsText(s) && i <= |s|
    ensures CharBoundary(s, i) <==> IsText(s[..i]) && IsText(s[i..])
    ensures CharBoundary(s, i) <==> IsText(s[i..])
  {
    if i == 0 {
      assert s[..0] == [] && s[0..] == s;
    } else {
      var n := Announced(s[0]);
      if i < n {
        assert Continuation(s[i]);
        assert s[i..][0] == s[i];
      } else {
        var rest := s[n..];
        BoundarySplitsText(rest, i - n);
        assert rest[i - n..] == s[i..];
        assert s[..i][n..] == rest[..i - n];
        CharacterIsLocal(s, s[..i]);
        if i == n < |s| {
          assert rest[0] == s[n];
        }
      }
    }
  }

  lemma ReplacementLeads(rest: bytes)
    requires IsText(rest)
    ensures IsText(REPLACEMENT + rest) && |REPLACEMENT| == 3
  {
    PrependCharacter(REPLACEMENT, rest);
  }

  /** Lossy decoding yields text, never loses bytes, and changes nothing
      exactly when its input was text already. */
  lemma {:induction false} LossyIsText(s: bytes)
    ensures IsText(Lossy(s))
    ensures |Lossy(s)| >= |s|
    ensures Lossy(s) == s <==> IsText(s)
  {
    if s != [] {
      if StartsWithCharacter(s) {
        var n := Announced(s[0]);
        var t := s[..n] + Lossy(s[n..]);
        LossyIsText(s[n..]);
        CharacterIsLocal(s, t);
        hide StartsWithCharacter, Announced, Matched;
        assert t[n..] == Lossy(s[n..]) && t[..n] == s[..n];
        assert s == s[..n] + s[n..];
      } else {
        var n := if Matched(s) == 0 then 1 else Matched(s);
        var t := REPLACEMENT + Lossy(s[n..]);
        LossyIsText(s[n..]);
        ReplacementLeads(Lossy(s[n..]));
        hide StartsWithCharacter, Announced, REPLACEMENT;
      }
    }
  }

  // ---- Bytes and characters ----

  /** The bytes of a character (section 3 of RFC 3629). */
  function EncodeChar(c: char): bytes {
    var n := c as int;
    var m := n / 64;
    var l := m / 64;
    if n < 0x80 then [n]
    else if n < 0x800 then [0xC0 + m, 0x80 + n % 64]
    else if n < 0x10000 then [0xE0 + l, 0x80 + m % 64, 0x80 + n % 64]
    else [0xF0 + l / 64, 0x80 + l % 64, 0x80 + m % 64, 0x80 + n % 64]
  }

  function Encode(s: string): bytes {
    if s == "" then [] else EncodeChar(s[0]) + Encode(s[1..])
  }

  /** Six more bits. */
  function Shifted(n: int, b: byte): int {
    64 * n + b - 0x80
  }

  /** The number a character's bytes spell. */
  function Spelt(s: bytes): int
    requires StartsWithCharacter(s)
  {
    var first: int := s[0];
    match Announced(s[0])
    case 1 => first
    case 2 => Shifted(first - 0xC0, s[1])
    case 3 => Shifted(Shifted(first - 0xE0, s[1]), s[2])
    case _ => Shifted(Shifted(Shifted(first - 0xF0, s[1]), s[2]), s[3])
  }

  lemma ShiftedBack(n: int, b: byte)
    requires 0x80 <= b < 0xC0
    ensures Shifted(n, b) / 64 == n && Shifted(n, b) % 64 == b - 0x80
  {
  }

  lemma TwoBytes(a: byte, b: byte)
    requires 0xC2 <= a < 0xE0 && Continuation(b)
    ensures var n := Shifted(a as int - 0xC0, b);
            0x80 <= n < 0x800 && EncodeChar(n as char) == [a, b]
  {
    ShiftedBack(a as int - 0xC0, b);
  }

  lemma ThreeBytes(a: byte, b: byte, c: byte)
    requires 0xE0 <= a < 0xF0 && SecondByte(a, b) && Continuation(c)
    ensures var n := Shifted(Shifted(a as int - 0xE0, b), c);
            && (0x800 <= n < 0xD800 || 0xE000 <= n < 0x10000)
            && EncodeChar(n as char) == [a, b, c]
  {
    ShiftedBack(a as int - 0xE0, b);
    ShiftedBack(Shifted(a as int - 0xE0, b), c);
  }

  lemma FourBytes(a: byte, b: byte, c: byte, d: byte)
    requires 0xF0 <= a < 0xF5 && SecondByte(a, b) && Continuation(c) && Continuation(d)
    ensures var n := Shifted(Shifted(Shifted(a as int - 0xF0, b), c), d);
            0x10000 <= n < 0x110000 && EncodeChar(n as char) == [a, b, c, d]
  {
    ShiftedBack(a as int - 0xF0, b);
    ShiftedBack(Shifted(a as int - 0xF0, b), c);
    ShiftedBack(Shifted(Shifted(a as int - 0xF0, b), c), d);
  }

  lemma SpeltIsCharacter(s: bytes)
    requires StartsWithCharacter(s)
    ensures 0 <= Spelt(s) < 0xD800 || 0xE000 <= Spelt(s) < 0x110000
    ensures EncodeChar(Spelt(s) as char) == s[..Announced(s[0])]
  {
    hide Shifted;
    match Announced(s[0])
    case 1 =>
    case 2 => TwoBytes(s[0], s[1]);
    case 3 => ThreeBytes(s[0], s[1], s[2]);
    case _ => FourBytes(s[0], s[1], s[2], s[3]);
  }

  lemma CharacterIsSpelt(c: char)
    ensures var s := EncodeChar(c);
            StartsWithCharacter(s) && |s| == Announced(s[0]) && Spelt(s) == c as int
  {
    var n := c as int;
    var m := n / 64;
    var l := m / 64;
    assert n == 64 * m + n % 64 && m == 64 * l + m % 64 && l == 64 * (l / 64) + l % 64;
  }

  function Decode(t: bytes): string
    requires IsText(t)
  {
    if t == [] then ""
    else
      SpeltIsCharacter(t);
      [Spelt(t) as char] + Decode(t[Announced(t[0])..])
  }

  /** Well-formed text is exactly what strings are encoded as, and no two
      strings are encoded alike. */
  lemma {:induction false} EncodedIsText(s: string)
    ensures IsText(Encode(s)) && Decode(Encode(s)) == s
  {
    if s != "" {
      var c, rest := EncodeChar(s[0]), Encode(s[1..]);
      hide EncodeChar;
      CharacterIsSpelt(s[0]);
      EncodedIsText(s[1..]);
      PrependCharacter(c, rest);
      CharacterIsLocal(c, c + rest);
      assert (c + rest)[|c|..] == rest;
    }
  }

  lemma {:induction false} TextIsEncoded(t: bytes)
    requires IsText(t)
    ensures Encode(Decode(t)) == t
  {
    if t != [] {
      SpeltIsCharacter(t);
      hide EncodeChar, Spelt, StartsWithCharacter;
      TextIsEncoded(t[Announced(t[0])..]);
    }
  }
}
