/** Percent-encoding of section 2.1 of RFC 3986 over UTF-8, as JavaScript's encodeURIComponent and its inverse do it. */
module PercentCoding {
  import opened JsText

  // ---------- Bytes ----------

  function HexDigit(n: nat): char
    requires n < 16
  {
    if n < 10 then '0' + n as char else 'A' + (n - 10) as char
  }

  function HexValue(c: char): Option<nat> {
    if '0' <= c <= '9' then Some((c - '0') as nat)
    else if 'A' <= c <= 'F' then Some((c - 'A') as nat + 10)
    else if 'a' <= c <= 'f' then Some((c - 'a') as nat + 10)
    else None
  }

  /** One byte as an escape. */
  function Escape(b: nat): (r: string)
    requires b < 256
    ensures |r| == 3
  {
    ['%', HexDigit(b / 16), HexDigit(b % 16)]
  }

  /** The byte escaped at the start of s. */
  function EscapedByte(s: string): (b: Option<nat>)
    ensures b.Some? ==> b.value < 256 && |s| >= 3
  {
    if |s| < 3 || s[0] != '%' || HexValue(s[1]).None? || HexValue(s[2]).None? then None
    else
      assert HexValue(s[1]).value < 16 && HexValue(s[2]).value < 16;
      Some(16 * HexValue(s[1]).value + HexValue(s[2]).value)
  }

  lemma HexInverse(n: nat)
    requires n < 16
    ensures HexValue(HexDigit(n)) == Some(n)
  {
  }

  lemma EscapeInverse(b: nat, rest: string)
    requires b < 256
    ensures EscapedByte(Escape(b) + rest) == Some(b)
    ensures (Escape(b) + rest)[3..] == rest
  {
    HexInverse(b / 16);
    HexInverse(b % 16);
    var s := Escape(b) + rest;
    assert s[0] == '%' && s[1] == HexDigit(b / 16) && s[2] == HexDigit(b % 16);
    assert 16 * (b / 16) + b % 16 == b;
  }

  // ---------- Encoding ----------

  predicate Unreserved(c: char) {
    'a' <= c <= 'z' || 'A' <= c <= 'Z' || '0' <= c <= '9'
    || c == '-' || c == '_' || c == '.' || c == '!' || c == '~' || c == '*' || c == '\'' || c == '(' || c == ')'
  }

  predicate Continuation(b: nat) {
    0x80 <= b < 0xC0
  }

  /** The UTF-8 escapes of one character. */
  function EscapeChar(c: char): string {
    var n := c as nat;
    if n < 0x80 then Escape(n)
    else if n < 0x800 then Escape(0xC0 + n / 64) + Escape(0x80 + n % 64)
    else if n < 0x10000 then Escape(0xE0 + n / 4096) + (Escape(0x80 + n / 64 % 64) + Escape(0x80 + n % 64))
    else
      Escape(0xF0 + n / 262144) + (Escape(0x80 + n / 4096 % 64) + (Escape(0x80 + n / 64 % 64) + Escape(0x80 + n % 64)))
  }

  function EncodeUnit(c: char): string {
    if Unreserved(c) then [c] else EscapeChar(c)
  }

  function EncodeUriComponent(s: string): string {
    if s == "" then "" else EncodeUnit(s[0]) + EncodeUriComponent(s[1..])
  }

  // ---------- Decoding ----------

  /** How many bytes a UTF-8 sequence has by its first byte, and what that byte contributes; zero if it starts none. */
  function SequenceLength(b: nat): nat {
    if b < 0x80 then 1
    else if 0xC2 <= b < 0xE0 then 2
    else if 0xE0 <= b < 0xF0 then 3
    else if 0xF0 <= b < 0xF5 then 4
    else 0
  }

  function LeadBits(b: nat): nat {
    if b < 0x80 then b else if b < 0xE0 then b % 32 else if b < 0xF0 then b % 16 else b % 8
  }

  /** Reads n escaped continuation bytes onto the bits read so far. */
  function Continue(s: string, n: nat, bits: nat): Option<(nat, string)> {
    if n == 0 then Some((bits, s))
    else
      var b := EscapedByte(s);
      if b.None? || !Continuation(b.value) then None else Continue(s[3..], n - 1, 64 * bits + b.value % 64)
  }

  /** Scalar values in their shortest form only. */
  predicate WellFormedScalar(n: nat, length: nat) {
    match length
    case 1 => n < 0x80
    case 2 => 0x80 <= n < 0x800
    case 3 => 0x800 <= n < 0xD800 || 0xE000 <= n < 0x10000
    case 4 => 0x10000 <= n < 0x110000
    case _ => false
  }

  /** The character escaped at the start of s and what follows it. */
  function DecodeChar(s: string): (r: Option<(char, string)>)
    ensures r.Some? ==> |r.value.1| < |s|
  {
    var lead := EscapedByte(s);
    if lead.None? then None
    else
      var length := SequenceLength(lead.value);
      if length == 0 then None
      else
        ContinueShortens(s[3..], length - 1, LeadBits(lead.value));
        var read := Continue(s[3..], length - 1, LeadBits(lead.value));
        if read.None? || !WellFormedScalar(read.value.0, length) then None
        else Some((read.value.0 as char, read.value.1))
  }

  lemma ContinueShortens(s: string, n: nat, bits: nat)
    ensures var r := Continue(s, n, bits); r.Some? ==> |r.value.1| <= |s|
  {
  }

  /** None stands for the URIError that is thrown. */
  function DecodeUriComponent(s: string): Option<string>
    decreases |s|
  {
    if s == "" then Some("")
    else if s[0] != '%' then
      var rest := DecodeUriComponent(s[1..]);
      if rest.None? then None else Some([s[0]] + rest.value)
    else
      var c := DecodeChar(s);
      if c.None? then None
      else
        var rest := DecodeUriComponent(c.value.1);
        if rest.None? then None else Some([c.value.0] + rest.value)
  }

  // ---------- Decoding undoes encoding ----------

  lemma ContinueStep(b: nat, rest: string, n: nat, bits: nat)
    requires Continuation(b)
    ensures Continue(Escape(b) + rest, n + 1, bits) == Continue(rest, n, 64 * bits + b % 64)
  {
    EscapeInverse(b, rest);
  }

  lemma DecodeStep(b: nat, rest: string)
    requires b < 256 && SequenceLength(b) > 0
    ensures var r := Continue(rest, SequenceLength(b) - 1, LeadBits(b));
      DecodeChar(Escape(b) + rest) ==
        if r.Some? && WellFormedScalar(r.value.0, SequenceLength(b)) then Some((r.value.0 as char, r.value.1)) else None
  {
    EscapeInverse(b, rest);
  }

  lemma SixBits(x: nat)
    requires x < 64
    ensures Continuation(0x80 + x) && (0x80 + x) % 64 == x
  {
  }

  lemma Lead(h: nat)
    ensures 2 <= h < 32 ==> SequenceLength(0xC0 + h) == 2 && LeadBits(0xC0 + h) == h
    ensures h < 16 ==> SequenceLength(0xE0 + h) == 3 && LeadBits(0xE0 + h) == h
    ensures h < 5 ==> SequenceLength(0xF0 + h) == 4 && LeadBits(0xF0 + h) == h
  {
  }

  lemma ContinueWith(x: nat, rest: string, n: nat, bits: nat)
    requires x < 64
    ensures Continue(Escape(0x80 + x) + rest, n + 1, bits) == Continue(rest, n, 64 * bits + x)
  {
    hide Continue, Escape;
    SixBits(x);
    ContinueStep(0x80 + x, rest, n, bits);
  }

  lemma DecodeTwo(h: nat, l: nat, rest: string)
    requires 2 <= h < 32 && l < 64
    ensures DecodeChar(Escape(0xC0 + h) + (Escape(0x80 + l) + rest)) == Some(((64 * h + l) as char, rest))
  {
    hide Escape, DecodeChar, SequenceLength, LeadBits;
    Lead(h);
    DecodeStep(0xC0 + h, Escape(0x80 + l) + rest);
    ContinueWith(l, rest, 0, h);
  }

  lemma DecodeThree(h: nat, m: nat, l: nat, rest: string)
    requires h < 16 && m < 64 && l < 64 && WellFormedScalar(64 * (64 * h + m) + l, 3)
    ensures DecodeChar(Escape(0xE0 + h) + (Escape(0x80 + m) + (Escape(0x80 + l) + rest)))
         == Some(((64 * (64 * h + m) + l) as char, rest))
  {
    hide Escape, DecodeChar, SequenceLength, LeadBits;
    Lead(h);
    DecodeStep(0xE0 + h, Escape(0x80 + m) + (Escape(0x80 + l) + rest));
    ContinueWith(m, Escape(0x80 + l) + rest, 1, h);
    ContinueWith(l, rest, 0, 64 * h + m);
  }

  lemma DecodeFour(h: nat, g: nat, m: nat, l: nat, rest: string)
    requires h < 5 && g < 64 && m < 64 && l < 64 && WellFormedScalar(64 * (64 * (64 * h + g) + m) + l, 4)
    ensures DecodeChar(Escape(0xF0 + h) + (Escape(0x80 + g) + (Escape(0x80 + m) + (Escape(0x80 + l) + rest))))
         == Some(((64 * (64 * (64 * h + g) + m) + l) as char, rest))
  {
    hide Escape, DecodeChar, SequenceLength, LeadBits;
    Lead(h);
    DecodeStep(0xF0 + h, Escape(0x80 + g) + (Escape(0x80 + m) + (Escape(0x80 + l) + rest)));
    ContinueWith(g, Escape(0x80 + m) + (Escape(0x80 + l) + rest), 2, h);
    ContinueWith(m, Escape(0x80 + l) + rest, 1, 64 * h + g);
    ContinueWith(l, rest, 0, 64 * (64 * h + g) + m);
  }

  /** Digits to the base 64. */
  lemma Base64Digits(n: nat)
    ensures 64 * (n / 64) + n % 64 == n
    ensures 64 * (64 * (n / 4096) + n / 64 % 64) + n % 64 == n
    ensures 64 * (64 * (64 * (n / 262144) + n / 4096 % 64) + n / 64 % 64) + n % 64 == n
  {
    assert n / 4096 == n / 64 / 64 && n / 262144 == n / 64 / 64 / 64;
  }

  /** Any character's escapes are read back as that character, whatever follows. */
  lemma DecodeEscaped(c: char, rest: string)
    ensures DecodeChar(EscapeChar(c) + rest) == Some((c, rest))
  {
    hide DecodeChar, Escape;
    var n := c as nat;
    Base64Digits(n);
    var g, m, l := n / 4096 % 64, n / 64 % 64, n % 64;
    if n < 0x80 {
      DecodeOne(n, rest);
    } else if n < 0x800 {
      DecodeTwo(n / 64, l, rest);
      assert EscapeChar(c) + rest == Escape(0xC0 + n / 64) + (Escape(0x80 + l) + rest);
    } else if n < 0x10000 {
      DecodeThree(n / 4096, m, l, rest);
      assert EscapeChar(c) + rest == Escape(0xE0 + n / 4096) + (Escape(0x80 + m) + (Escape(0x80 + l) + rest));
    } else {
      DecodeFour(n / 262144, g, m, l, rest);
      assert EscapeChar(c) + rest
          == Escape(0xF0 + n / 262144) + (Escape(0x80 + g) + (Escape(0x80 + m) + (Escape(0x80 + l) + rest)));
    }
  }

  lemma DecodeOne(n: nat, rest: string)
    requires n < 0x80
    ensures DecodeChar(Escape(n) + rest) == Some((n as char, rest))
  {
    DecodeStep(n, rest);
  }

  lemma DecodeUnit(c: char, rest: string)
    ensures DecodeUriComponent(EncodeUnit(c) + rest)
         == var r := DecodeUriComponent(rest); if r.None? then None else Some([c] + r.value)
  {
    hide DecodeChar, EscapeChar;
    if Unreserved(c) {
      assert ([c] + rest)[1..] == rest;
    } else {
      DecodeEscaped(c, rest);
      EscapesStart(c);
      assert (EscapeChar(c) + rest)[0] == '%';
    }
  }

  lemma EscapesStart(c: char)
    ensures EscapeChar(c) != "" && EscapeChar(c)[0] == '%'
  {
  }

  lemma {:induction false} DecodeEncoded(s: string)
    ensures DecodeUriComponent(EncodeUriComponent(s)) == Some(s)
  {
    if s != "" {
      DecodeEncoded(s[1..]);
      DecodeUnit(s[0], EncodeUriComponent(s[1..]));
      assert s == [s[0]] + s[1..];
    }
  }

  // ---------- Nothing else decodes ----------

  lemma HexBack(c: char, n: nat)
    ensures HexValue(c) == Some(n) ==> n < 16 && HexDigit(n) == UpperChar(c)
    ensures n < 16 ==> HexValue(HexDigit(n)) == Some(n) && HexValue(LowerChar(HexDigit(n))) == Some(n)
  {
  }

  /** An escape is a percent sign and two hexadecimal digits, in either case. */
  lemma EscapeIsHex(s: string, b: nat)
    requires |s| >= 3
    ensures EscapedByte(s) == Some(b) <==> b < 256 && Upper(s[..3]) == Escape(b)
  {
    if EscapedByte(s) == Some(b) {
      HexBack(s[1], HexValue(s[1]).value);
      HexBack(s[2], HexValue(s[2]).value);
      assert b / 16 == HexValue(s[1]).value && b % 16 == HexValue(s[2]).value;
      assert Upper(s[..3]) == Escape(b);
    }
    if b < 256 && Upper(s[..3]) == Escape(b) {
      var u := Upper(s[..3]);
      assert u[0] == UpperChar(s[0]) && u[1] == UpperChar(s[1]) && u[2] == UpperChar(s[2]);
      assert u[0] == '%' && u[1] == HexDigit(b / 16) && u[2] == HexDigit(b % 16);
      DigitOf(s[1], b / 16);
      DigitOf(s[2], b % 16);
      assert s[0] == '%';
    }
  }

  lemma DigitOf(c: char, n: nat)
    requires n < 16 && UpperChar(c) == HexDigit(n)
    ensures HexValue(c) == Some(n)
  {
  }

  lemma UpperOfBoth(a: string, b: string)
    ensures Upper(a + b) == Upper(a) + Upper(b)
  {
  }

  /** The bytes of a sequence as they stand in the text, and the text that follows. */
  ghost predicate Bytes(s: string, bytes: seq<nat>, rest: string)
    decreases |bytes|
  {
    if bytes == [] then rest == s
    else |s| >= 3 && EscapedByte(s) == Some(bytes[0]) && Bytes(s[3..], bytes[1..], rest)
  }

  /** Six bits each. */
  predicate Sextets(xs: seq<nat>) {
    forall i :: 0 <= i < |xs| ==> xs[i] < 64
  }

  function Folded(bits: nat, xs: seq<nat>): nat
    decreases |xs|
  {
    if xs == [] then bits else Folded(64 * bits + xs[0], xs[1..])
  }

  function Tails(xs: seq<nat>): (bytes: seq<nat>)
    ensures |bytes| == |xs|
  {
    seq(|xs|, i requires 0 <= i < |xs| => 0x80 + xs[i])
  }

  lemma {:induction false} ContinueReads(s: string, n: nat, bits: nat) returns (xs: seq<nat>)
    requires Continue(s, n, bits).Some?
    ensures |xs| == n && Sextets(xs) && Bytes(s, Tails(xs), Continue(s, n, bits).value.1)
    ensures Continue(s, n, bits).value.0 == Folded(bits, xs)
    decreases n
  {
    xs := [];
    if n > 0 {
      var b := EscapedByte(s).value;
      var more := ContinueReads(s[3..], n - 1, 64 * bits + b % 64);
      assert 0x80 + b % 64 == b;
      xs := [b % 64] + more;
      assert xs[1..] == more && Tails(xs)[1..] == Tails(more);
    }
  }

  /** The text of the bytes, whatever the case of its digits. */
  function Escapes(bytes: seq<nat>): string
    requires forall i :: 0 <= i < |bytes| ==> bytes[i] < 256
  {
    if bytes == [] then "" else Escape(bytes[0]) + Escapes(bytes[1..])
  }

  lemma {:induction false} BytesAreEscapes(s: string, bytes: seq<nat>, rest: string)
    requires Bytes(s, bytes, rest) && forall i :: 0 <= i < |bytes| ==> bytes[i] < 256
    ensures |s| == 3 * |bytes| + |rest| && s[3 * |bytes|..] == rest
    ensures Upper(s[..3 * |bytes|]) == Escapes(bytes)
    decreases |bytes|
  {
    hide Escape;
    if bytes != [] {
      BytesAreEscapes(s[3..], bytes[1..], rest);
      EscapeIsHex(s, bytes[0]);
      var k := 3 * |bytes|;
      assert s[..k] == s[..3] + s[3..][..k - 3];
      UpperOfBoth(s[..3], s[3..][..k - 3]);
    }
  }

  lemma TwoBytes(h: nat, l: nat)
    requires l < 64
    ensures (64 * h + l) / 64 == h && (64 * h + l) % 64 == l
  {
  }

  lemma FourBytes(h: nat, g: nat, m: nat, l: nat)
    requires g < 64 && m < 64 && l < 64
    ensures var n := 64 * (64 * (64 * h + g) + m) + l;
      n / 262144 == h && n / 4096 % 64 == g && n / 64 % 64 == m && n % 64 == l
  {
    TwoBytes(64 * (64 * h + g) + m, l);
    TwoBytes(64 * h + g, m);
    TwoBytes(h, g);
    var n := 64 * (64 * (64 * h + g) + m) + l;
    assert n / 4096 == n / 64 / 64 && n / 262144 == n / 64 / 64 / 64;
  }

  lemma Unfold(a: nat, more: seq<nat>)
    requires a < 256 && forall i :: 0 <= i < |more| ==> more[i] < 256
    ensures Escapes([a] + more) == Escape(a) + Escapes(more)
  {
    assert ([a] + more)[1..] == more;
  }

  lemma LeadIs(b: nat)
    ensures SequenceLength(b) == 1 ==> b < 0x80 && LeadBits(b) == b
    ensures SequenceLength(b) == 2 ==> b < 0xE0 && 0xC0 + LeadBits(b) == b
    ensures SequenceLength(b) == 3 ==> b < 0xF0 && 0xE0 + LeadBits(b) == b
    ensures SequenceLength(b) == 4 ==> b < 0x100 && 0xF0 + LeadBits(b) == b
  {
  }

  lemma CharOfTwo(h: nat, l: nat)
    requires l < 64 && h < 32 && WellFormedScalar(64 * h + l, 2)
    ensures EscapeChar((64 * h + l) as char) == Escapes([0xC0 + h, 0x80 + l])
  {
    TwoBytes(h, l);
    hide Escape;
    Unfold(0xC0 + h, [0x80 + l]);
    Unfold(0x80 + l, []);
    assert [0xC0 + h] + [0x80 + l] == [0xC0 + h, 0x80 + l] && [0x80 + l] + [] == [0x80 + l];
  }

  lemma CharOfThree(h: nat, m: nat, l: nat)
    requires m < 64 && l < 64 && h < 16 && WellFormedScalar(64 * (64 * h + m) + l, 3)
    ensures EscapeChar((64 * (64 * h + m) + l) as char) == Escapes([0xE0 + h, 0x80 + m, 0x80 + l])
  {
    ThreeBytes(h, m, l);
    EscapesOfThree(0xE0 + h, 0x80 + m, 0x80 + l);
    hide Escape, Escapes;
    EscapeCharOfThree(64 * (64 * h + m) + l);
  }

  lemma ThreeBytes(h: nat, m: nat, l: nat)
    requires m < 64 && l < 64
    ensures var n := 64 * (64 * h + m) + l; n / 4096 == h && n / 64 % 64 == m && n % 64 == l
  {
    TwoBytes(64 * h + m, l);
    TwoBytes(h, m);
    var n := 64 * (64 * h + m) + l;
    assert n / 4096 == n / 64 / 64;
  }

  lemma EscapeCharOfThree(n: nat)
    requires WellFormedScalar(n, 3)
    ensures EscapeChar(n as char)
         == Escape(0xE0 + n / 4096) + (Escape(0x80 + n / 64 % 64) + Escape(0x80 + n % 64))
  {
    hide Escape;
  }

  lemma EscapesOfOne(a: nat)
    requires a < 256
    ensures Escapes([a]) == Escape(a)
  {
    hide Escape;
    assert [a][1..] == [];
  }

  lemma EscapesOfThree(a: nat, b: nat, c: nat)
    requires a < 256 && b < 256 && c < 256
    ensures Escapes([a, b, c]) == Escape(a) + (Escape(b) + Escape(c))
  {
    EscapesOfOne(c);
    hide Escape, Escapes;
    Unfold(a, [b, c]);
    Unfold(b, [c]);
    assert [a] + [b, c] == [a, b, c] && [b] + [c] == [b, c];
  }

  lemma CharOfFour(h: nat, g: nat, m: nat, l: nat)
    requires g < 64 && m < 64 && l < 64 && h < 16 && WellFormedScalar(64 * (64 * (64 * h + g) + m) + l, 4)
    ensures EscapeChar((64 * (64 * (64 * h + g) + m) + l) as char)
         == Escapes([0xF0 + h, 0x80 + g, 0x80 + m, 0x80 + l])
  {
    FourBytes(h, g, m, l);
    EscapesOfFour(0xF0 + h, 0x80 + g, 0x80 + m, 0x80 + l);
    hide Escape, Escapes;
    var n := 64 * (64 * (64 * h + g) + m) + l;
    EscapeCharOfFour(n);
  }

  lemma EscapeCharOfFour(n: nat)
    requires WellFormedScalar(n, 4)
    ensures EscapeChar(n as char) ==
      Escape(0xF0 + n / 262144)
      + (Escape(0x80 + n / 4096 % 64) + (Escape(0x80 + n / 64 % 64) + Escape(0x80 + n % 64)))
  {
    hide Escape;
  }

  lemma EscapesOfFour(a: nat, b: nat, c: nat, d: nat)
    requires a < 256 && b < 256 && c < 256 && d < 256
    ensures Escapes([a, b, c, d]) == Escape(a) + (Escape(b) + (Escape(c) + Escape(d)))
  {
    hide Escape, Escapes;
    Unfold(a, [b, c, d]);
    EscapesOfThree(b, c, d);
    assert [a] + [b, c, d] == [a, b, c, d];
  }

  lemma TailsAreBytes(xs: seq<nat>)
    requires Sextets(xs)
    ensures forall i :: 0 <= i < |xs| ==> Tails(xs)[i] < 256
  {
  }

  lemma TailsOf(lead: nat, xs: seq<nat>)
    ensures |xs| == 0 ==> [lead] + Tails(xs) == [lead]
    ensures |xs| == 1 ==> [lead] + Tails(xs) == [lead, 0x80 + xs[0]]
    ensures |xs| == 2 ==> [lead] + Tails(xs) == [lead, 0x80 + xs[0], 0x80 + xs[1]]
    ensures |xs| == 3 ==> [lead] + Tails(xs) == [lead, 0x80 + xs[0], 0x80 + xs[1], 0x80 + xs[2]]
  {
  }

  lemma AllBytes(lead: nat, xs: seq<nat>)
    requires lead < 256 && Sextets(xs)
    ensures forall i :: 0 <= i < |[lead] + Tails(xs)| ==> ([lead] + Tails(xs))[i] < 256
  {
    TailsAreBytes(xs);
  }

  lemma LongChars(h: nat, xs: seq<nat>, n: nat)
    requires h < 16 && Sextets(xs) && n == Folded(h, xs) && WellFormedScalar(n, |xs| + 1)
    ensures |xs| == 2 ==> EscapeChar(n as char) == Escapes([0xE0 + h, 0x80 + xs[0], 0x80 + xs[1]])
    ensures |xs| == 3 ==> EscapeChar(n as char) == Escapes([0xF0 + h, 0x80 + xs[0], 0x80 + xs[1], 0x80 + xs[2]])
  {
    hide Folded, EscapeChar, Escapes, WellFormedScalar;
    if |xs| == 2 {
      FoldedTwo(h, xs);
      CharOfThree(h, xs[0], xs[1]);
    } else if |xs| == 3 {
      FoldedThree(h, xs);
      CharOfFour(h, xs[0], xs[1], xs[2]);
    }
  }

  lemma ShortChars(h: nat, xs: seq<nat>, n: nat)
    requires |xs| <= 1 && Sextets(xs) && n == Folded(h, xs) && WellFormedScalar(n, |xs| + 1)
    requires |xs| == 1 ==> h < 32
    ensures |xs| == 0 ==> n == h < 0x80 && EscapeChar(n as char) == Escapes([h])
    ensures |xs| == 1 ==> EscapeChar(n as char) == Escapes([0xC0 + h, 0x80 + xs[0]])
  {
    FoldedShort(h, xs);
    hide Folded, EscapeChar, Escapes;
    if |xs| == 0 { CharOfOne(h); } else { CharOfTwo(h, xs[0]); }
  }

  /** The escapes of a character are those of the bytes read. */
  lemma BytesOfChar(lead: nat, xs: seq<nat>)
    requires lead < 256 && SequenceLength(lead) == |xs| + 1 && Sextets(xs)
    requires WellFormedScalar(Folded(LeadBits(lead), xs), |xs| + 1)
    ensures forall i :: 0 <= i < |[lead] + Tails(xs)| ==> ([lead] + Tails(xs))[i] < 256
    ensures Escapes([lead] + Tails(xs)) == EscapeChar(Folded(LeadBits(lead), xs) as char)
  {
    LeadIs(lead);
    AllBytes(lead, xs);
    TailsOf(lead, xs);
    var h, n := LeadBits(lead), Folded(LeadBits(lead), xs);
    hide LeadBits, EscapeChar, Escapes, WellFormedScalar, Folded, Tails, Sextets;
    if |xs| <= 1 { ShortChars(h, xs, n); } else { LongChars(h, xs, n); }
  }

  lemma FoldedShort(bits: nat, xs: seq<nat>)
    ensures |xs| == 0 ==> Folded(bits, xs) == bits
    ensures |xs| == 1 ==> Folded(bits, xs) == 64 * bits + xs[0]
  {
    if |xs| == 1 { assert xs[1..] == []; }
  }

  lemma FoldedTwo(bits: nat, xs: seq<nat>)
    requires |xs| == 2
    ensures Folded(bits, xs) == 64 * (64 * bits + xs[0]) + xs[1]
  {
    assert xs[1..][1..] == [];
    assert Folded(bits, xs) == Folded(64 * bits + xs[0], xs[1..]);
    assert Folded(64 * bits + xs[0], xs[1..]) == Folded(64 * (64 * bits + xs[0]) + xs[1], []);
  }

  lemma FoldedThree(bits: nat, xs: seq<nat>)
    requires |xs| == 3
    ensures Folded(bits, xs) == 64 * (64 * (64 * bits + xs[0]) + xs[1]) + xs[2]
  {
    FoldedTwo(64 * bits + xs[0], xs[1..]);
  }

  lemma CharOfOne(n: nat)
    requires n < 0x80
    ensures EscapeChar(n as char) == Escapes([n])
  {
    hide Escape;
    Unfold(n, []);
    assert [n] + [] == [n];
  }

  /**
   * A character is only ever read from its own escapes, in either case: no overlong form, no surrogate, no stray byte
   * is accepted.
   */
  lemma OnlyEscapesDecode(s: string)
    requires DecodeChar(s).Some?
    ensures var (c, rest) := DecodeChar(s).value;
      var n := |s| - |rest|;
      n > 0 && s[n..] == rest && Upper(s[..n]) == EscapeChar(c)
  {
    var lead := EscapedByte(s).value;
    var length := SequenceLength(lead);
    var read := Continue(s[3..], length - 1, LeadBits(lead));
    var xs := ContinueReads(s[3..], length - 1, LeadBits(lead));
    BytesOfChar(lead, xs);
    hide EscapedByte, Continue, EscapeChar, Escapes, LeadBits, Folded, Tails, Sextets;
    var bytes := [lead] + Tails(xs);
    assert bytes[1..] == Tails(xs);
    assert Bytes(s, bytes, read.value.1);
    BytesAreEscapes(s, bytes, read.value.1);
  }
}
