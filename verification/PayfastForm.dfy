/** PayFast's form encoding: parameter strings, how they are read back, and the text a signature is computed over. */
module PayfastForm {
  import opened JsText
  import opened PercentCoding

  /** One entry of a payload object, which keeps its entries in order. */
  datatype Entry = Entry(key: string, value: string)

  // ---------- '+' for space ----------

  const SPACE: string := "%20"

  /** replace(/%20/g, '+') */
  function PlusForSpace(s: string): string
    decreases |s|
  {
    if s == "" then ""
    else if SPACE <= s then "+" + PlusForSpace(s[3..])
    else [s[0]] + PlusForSpace(s[1..])
  }

  /** replace(/\+/g, '%20') */
  function SpaceForPlus(s: string): string {
    if s == "" then "" else (if s[0] == '+' then SPACE else [s[0]]) + SpaceForPlus(s[1..])
  }

  /** The escapes of encodeURIComponent are in upper case already. */
  function EncodePayfast(value: string): string {
    PlusForSpace(EncodeUriComponent(value))
  }

  function DecodeFormUrlComponent(value: string): string {
    var decoded := DecodeUriComponent(SpaceForPlus(value));
    if decoded.Some? then decoded.value else value
  }

  /** An encoded text consists of unreserved characters, escapes and plus signs: nothing that separates parameters. */
  predicate Encoded(s: string) {
    forall i :: 0 <= i < |s| ==> Unreserved(s[i]) || s[i] == '%' || s[i] == '+'
  }

  predicate NoPlus(s: string) {
    '+' !in s
  }

  lemma EscapeIsPlain(b: nat)
    requires b < 256
    ensures Encoded(Escape(b)) && NoPlus(Escape(b)) && Escape(b)[1] != '%' && Escape(b)[2] != '%'
  {
  }

  lemma EscapeCharIsPlain(c: char)
    ensures Encoded(EscapeChar(c)) && NoPlus(EscapeChar(c))
  {
    hide Escape, Unreserved;
    var n := c as nat;
    if n < 0x80 {
      EscapeIsPlain(n);
    } else if n < 0x800 {
      EscapeIsPlain(0xC0 + n / 64);
      EscapeIsPlain(0x80 + n % 64);
    } else if n < 0x10000 {
      EscapeIsPlain(0xE0 + n / 4096);
      EscapeIsPlain(0x80 + n / 64 % 64);
      EscapeIsPlain(0x80 + n % 64);
    } else {
      EscapeIsPlain(0xF0 + n / 262144);
      EscapeIsPlain(0x80 + n / 4096 % 64);
      EscapeIsPlain(0x80 + n / 64 % 64);
      EscapeIsPlain(0x80 + n % 64);
    }
  }

  lemma {:induction false} UriIsPlain(s: string)
    ensures Encoded(EncodeUriComponent(s)) && NoPlus(EncodeUriComponent(s))
  {
    if s != "" {
      hide EscapeChar;
      UriIsPlain(s[1..]);
      EscapeCharIsPlain(s[0]);
    }
  }

  lemma {:induction false} PlusForSpaceEncodes(s: string)
    requires Encoded(s)
    ensures Encoded(PlusForSpace(s))
    decreases |s|
  {
    hide Unreserved;
    if s != "" {
      if SPACE <= s {
        PlusForSpaceEncodes(s[3..]);
      } else {
        PlusForSpaceEncodes(s[1..]);
      }
    }
  }

  /** No text without a plus sign is changed by writing '+' for "%20" and back. */
  lemma {:induction false} PlusAndBack(s: string)
    requires NoPlus(s)
    ensures SpaceForPlus(PlusForSpace(s)) == s
    decreases |s|
  {
    if s != "" {
      if SPACE <= s {
        PlusAndBack(s[3..]);
        var t := PlusForSpace(s[3..]);
        assert ("+" + t)[1..] == t;
        assert s == s[..3] + s[3..] && s[..3] == SPACE;
      } else {
        PlusAndBack(s[1..]);
        var t := PlusForSpace(s[1..]);
        assert ([s[0]] + t)[1..] == t;
        assert s[0] in s;
      }
    }
  }

  /** Every value, of any characters, is read back as it was encoded, and its code holds no separator. */
  lemma ValueRoundTrip(value: string)
    ensures DecodeFormUrlComponent(EncodePayfast(value)) == value
    ensures Encoded(EncodePayfast(value))
  {
    UriIsPlain(value);
    PlusAndBack(EncodeUriComponent(value));
    DecodeEncoded(value);
    PlusForSpaceEncodes(EncodeUriComponent(value));
  }

  // ---------- Building and reading a parameter string ----------

  function Segment(e: Entry): string {
    e.key + ['='] + EncodePayfast(Trim(e.value))
  }

  /** Entries in the order they are given, which is the sorted order when a parameter string is built. */
  function Segments(entries: seq<Entry>): (r: seq<string>)
    ensures |r| == |entries|
  {
    seq(|entries|, i requires 0 <= i < |entries| => Segment(entries[i]))
  }

  function WithoutSignature(entries: seq<Entry>): seq<Entry> {
    if entries == [] then []
    else (if entries[0].key == "signature" then [] else [entries[0]]) + WithoutSignature(entries[1..])
  }

  function BuildPayfastParamString(entries: seq<Entry>, includeSignature: bool): string {
    Join(Segments(if includeSignature then entries else WithoutSignature(entries)), '&')
  }

  function TrimmedSegments(parts: seq<string>): seq<string> {
    if parts == [] then []
    else (if Trim(parts[0]) == "" then [] else [Trim(parts[0])]) + TrimmedSegments(parts[1..])
  }

  function KeyPart(segment: string): string {
    segment[..IndexOf(segment, '=')]
  }

  function ValuePart(segment: string): string {
    var i := IndexOf(segment, '=');
    if i == |segment| then "" else segment[i + 1..]
  }

  predicate IsSignature(key: string) {
    Lower(key) == "signature"
  }

  function WithoutSignatureSegments(segments: seq<string>): seq<string> {
    if segments == [] then []
    else
      var first := if IsSignature(Trim(KeyPart(segments[0]))) then [] else [segments[0]];
      first + WithoutSignatureSegments(segments[1..])
  }

  function Decoded(segment: string): Entry {
    Entry(DecodeFormUrlComponent(KeyPart(segment)), DecodeFormUrlComponent(ValuePart(segment)))
  }

  function DecodedAll(segments: seq<string>): (r: seq<Entry>)
    ensures |r| == |segments|
  {
    seq(|segments|, i requires 0 <= i < |segments| => Decoded(segments[i]))
  }

  /** The entries of a raw body in order, the signature left out. */
  function ParseEntries(rawBody: string): seq<Entry> {
    DecodedAll(WithoutSignatureSegments(TrimmedSegments(Split(rawBody, '&'))))
  }

  /** Object.fromEntries: a later entry wins over an earlier one with the same key. */
  function FromEntries(entries: seq<Entry>): map<string, string> {
    if entries == [] then map[]
    else FromEntries(entries[..|entries| - 1])[entries[|entries| - 1].key := entries[|entries| - 1].value]
  }

  function ParsePayfastParams(rawBody: string): map<string, string> {
    FromEntries(ParseEntries(rawBody))
  }

  // ---------- The signature base ----------

  function WithPassphrase(segments: seq<string>, passphrase: Option<string>): seq<string> {
    var p := TrimToNull(passphrase);
    if p.Some? then segments + ["passphrase=" + EncodePayfast(p.value)] else segments
  }

  function WithoutAnySignature(entries: seq<Entry>): seq<Entry> {
    if entries == [] then []
    else (if IsSignature(entries[0].key) then [] else [entries[0]]) + WithoutAnySignature(entries[1..])
  }

  function BaseFromPayload(entries: seq<Entry>, passphrase: Option<string>): string {
    Join(WithPassphrase(Segments(WithoutAnySignature(entries)), passphrase), '&')
  }

  function BaseFromRawBody(rawBody: string, passphrase: Option<string>): Option<string> {
    var segments := TrimmedSegments(Split(rawBody, '&'));
    if segments == [] then None else Some(Join(WithPassphrase(WithoutSignatureSegments(segments), passphrase), '&'))
  }

  /** The raw body is used when it yields anything, otherwise the payload. */
  function SignatureBase(entries: seq<Entry>, passphrase: Option<string>, rawBody: Option<string>): string {
    var fromRawBody :=
      if rawBody.Some? && rawBody.value != "" then BaseFromRawBody(rawBody.value, passphrase) else None;
    if fromRawBody.Some? && fromRawBody.value != "" then fromRawBody.value else BaseFromPayload(entries, passphrase)
  }

  // ---------- Round trips ----------

  /** Keys that need no encoding and have no space around them. */
  predicate WellFormedKey(key: string) {
    Trimmed(key) && '&' !in key && '=' !in key && '+' !in key && '%' !in key
  }

  predicate WellFormed(entries: seq<Entry>) {
    forall i :: 0 <= i < |entries| ==> WellFormedKey(entries[i].key)
  }

  lemma {:induction false} PlainDecodes(s: string)
    requires '%' !in s && '+' !in s
    ensures SpaceForPlus(s) == s && DecodeUriComponent(s) == Some(s)
  {
    if s != "" {
      assert s[0] in s;
      PlainDecodes(s[1..]);
      assert s == [s[0]] + s[1..];
    }
  }

  lemma UnreservedIsNoSpace(s: string)
    requires Encoded(s)
    ensures '&' !in s && '=' !in s && forall i :: 0 <= i < |s| ==> !IsSpace(s[i])
  {
    assert forall c :: Unreserved(c) || c == '%' || c == '+' ==> c != '&' && c != '=' && !IsSpace(c);
  }

  lemma PartsOf(key: string, code: string)
    requires '=' !in key
    ensures KeyPart(key + ['='] + code) == key && ValuePart(key + ['='] + code) == code
  {
    var s := key + ['='] + code;
    IndexOfUnique(key, code, '=');
    hide IndexOf;
    assert s[..|key|] == key && s[|key| + 1..] == code;
  }

  lemma SegmentIsTrimmed(key: string, code: string)
    requires Trimmed(key) && forall i :: 0 <= i < |code| ==> !IsSpace(code[i])
    ensures Trim(key + ['='] + code) == key + ['='] + code
  {
    hide Trim;
    var s := key + ['='] + code;
    assert s[|s| - 1] == if code == "" then '=' else code[|code| - 1];
    assert s[0] == if key == "" then '=' else key[0];
    TrimKeepsTrimmed(s);
  }

  /** A segment survives trimming, holds no separator and falls apart into its key and its encoded value. */
  lemma SegmentParts(e: Entry)
    requires WellFormedKey(e.key)
    ensures var s := Segment(e);
      && Trim(s) == s && s != "" && '&' !in s
      && KeyPart(s) == e.key && ValuePart(s) == EncodePayfast(Trim(e.value))
  {
    hide EncodePayfast, Encoded, Unreserved, Trim, KeyPart, ValuePart, Trimmed, IsSpace;
    var code := EncodePayfast(Trim(e.value));
    ValueRoundTrip(Trim(e.value));
    UnreservedIsNoSpace(code);
    PartsOf(e.key, code);
    SegmentIsTrimmed(e.key, code);
  }

  lemma SegmentDecodes(e: Entry)
    requires WellFormedKey(e.key)
    ensures Decoded(Segment(e)) == Entry(e.key, Trim(e.value))
  {
    SegmentParts(e);
    PlainDecodes(e.key);
    ValueRoundTrip(Trim(e.value));
    hide Segment, KeyPart, ValuePart, EncodePayfast;
  }

  lemma {:induction false} TrimmingKeepsSegments(entries: seq<Entry>)
    requires WellFormed(entries)
    ensures TrimmedSegments(Segments(entries)) == Segments(entries)
  {
    hide Segment, Trim, WellFormedKey;
    if entries != [] {
      SegmentParts(entries[0]);
      TrimmingKeepsSegments(entries[1..]);
      assert Segments(entries)[1..] == Segments(entries[1..]);
      assert Segments(entries) == [Segment(entries[0])] + Segments(entries[1..]);
    }
  }

  lemma SplitSegments(entries: seq<Entry>)
    requires WellFormed(entries) && entries != []
    ensures Split(Join(Segments(entries), '&'), '&') == Segments(entries)
  {
    hide Segment, WellFormedKey;
    forall i | 0 <= i < |entries|
      ensures '&' !in Segments(entries)[i]
    {
      SegmentParts(entries[i]);
    }
    SplitJoin(Segments(entries), '&');
  }

  /** Reading a built string segment by segment. */
  lemma BuiltSegments(entries: seq<Entry>)
    requires WellFormed(entries)
    ensures TrimmedSegments(Split(Join(Segments(entries), '&'), '&')) == Segments(entries)
  {
    hide WellFormed, Segment;
    if entries == [] {
      NothingToSplit();
    } else {
      SplitSegments(entries);
      TrimmingKeepsSegments(entries);
    }
  }

  lemma NothingToSplit()
    ensures TrimmedSegments(Split("", '&')) == []
  {
    assert Split("", '&') == [""];
    assert [""][1..] == [];
  }

  lemma {:induction false} SignatureSegments(entries: seq<Entry>)
    requires WellFormed(entries)
    ensures WithoutSignatureSegments(Segments(entries)) == Segments(WithoutAnySignature(entries))
    ensures WellFormed(WithoutAnySignature(entries))
  {
    hide Segment, WellFormedKey, IsSignature, KeyPart, Trim;
    if entries != [] {
      SegmentParts(entries[0]);
      KeyIsTrimmed(entries[0].key);
      SignatureSegments(entries[1..]);
      assert Segments(entries)[1..] == Segments(entries[1..]);
      var rest := WithoutAnySignature(entries[1..]);
      assert Segments([entries[0]] + rest) == [Segment(entries[0])] + Segments(rest);
      if IsSignature(entries[0].key) {
        assert [] + rest == rest;
      }
    }
  }

  lemma KeyIsTrimmed(key: string)
    requires WellFormedKey(key)
    ensures Trim(key) == key
  {
    TrimKeepsTrimmed(key);
  }

  lemma {:induction false} ExactSignatureFirst(entries: seq<Entry>)
    requires WellFormed(entries)
    ensures WithoutAnySignature(WithoutSignature(entries)) == WithoutAnySignature(entries)
    ensures WellFormed(WithoutSignature(entries))
  {
    hide WellFormedKey;
    if entries != [] {
      ExactSignatureFirst(entries[1..]);
      assert Lower("signature") == "signature";
      var rest := WithoutSignature(entries[1..]);
      if entries[0].key != "signature" {
        assert ([entries[0]] + rest)[1..] == rest;
      } else {
        assert [] + rest == rest;
      }
    }
  }

  /** The entries of a payload as they are sent: values trimmed, the signature left out. */
  function Sent(entries: seq<Entry>): seq<Entry> {
    var kept := WithoutAnySignature(entries);
    seq(|kept|, i requires 0 <= i < |kept| => Entry(kept[i].key, Trim(kept[i].value)))
  }

  lemma BuiltFrom(entries: seq<Entry>, includeSignature: bool)
    requires WellFormed(entries)
    ensures exists sent ::
      && WellFormed(sent) && WithoutAnySignature(sent) == WithoutAnySignature(entries)
      && BuildPayfastParamString(entries, includeSignature) == Join(Segments(sent), '&')
  {
    ExactSignatureFirst(entries);
    var sent := if includeSignature then entries else WithoutSignature(entries);
    assert WellFormed(sent) && BuildPayfastParamString(entries, includeSignature) == Join(Segments(sent), '&');
  }

  /** Parsing a built parameter string gives back every entry but the signature, in order, with its value trimmed. */
  lemma ParseUndoesBuild(entries: seq<Entry>, includeSignature: bool)
    requires WellFormed(entries)
    ensures ParseEntries(BuildPayfastParamString(entries, includeSignature)) == Sent(entries)
    ensures ParsePayfastParams(BuildPayfastParamString(entries, includeSignature)) == FromEntries(Sent(entries))
  {
    hide WellFormed, BuildPayfastParamString, Segments, Segment, Split, Join, FromEntries, Decoded, Trim;
    BuiltFrom(entries, includeSignature);
    var sent :| WellFormed(sent) && WithoutAnySignature(sent) == WithoutAnySignature(entries)
      && BuildPayfastParamString(entries, includeSignature) == Join(Segments(sent), '&');
    BuiltSegments(sent);
    SignatureSegments(sent);
    var kept := WithoutAnySignature(sent);
    SegmentsDecode(kept);
  }

  lemma SegmentsDecode(kept: seq<Entry>)
    requires WellFormed(kept)
    ensures DecodedAll(Segments(kept))
         == seq(|kept|, i requires 0 <= i < |kept| => Entry(kept[i].key, Trim(kept[i].value)))
  {
    hide Segment, Decoded, Trim, WellFormedKey;
    forall i | 0 <= i < |kept|
      ensures Decoded(Segments(kept)[i]) == Entry(kept[i].key, Trim(kept[i].value))
    {
      SegmentDecodes(kept[i]);
    }
  }

  predicate DistinctKeys(entries: seq<Entry>) {
    forall i, j :: 0 <= i < j < |entries| ==> entries[i].key != entries[j].key
  }

  /** The object built from entries with distinct keys holds each of them, and nothing else. */
  lemma {:induction false} FromDistinctEntries(entries: seq<Entry>, k: string)
    requires DistinctKeys(entries)
    ensures k in FromEntries(entries) <==> exists i :: 0 <= i < |entries| && entries[i].key == k
    ensures forall i :: 0 <= i < |entries| && entries[i].key == k ==> FromEntries(entries)[k] == entries[i].value
  {
    if entries != [] {
      var n := |entries| - 1;
      FromDistinctEntries(entries[..n], k);
      assert forall i :: 0 <= i < n ==> entries[..n][i] == entries[i];
      assert entries[n].key == k ==> k in FromEntries(entries);
    }
  }

  lemma {:induction false} KeptEntries(entries: seq<Entry>)
    ensures forall e :: e in WithoutAnySignature(entries) <==> e in entries && !IsSignature(e.key)
    ensures DistinctKeys(entries) ==> DistinctKeys(WithoutAnySignature(entries))
  {
    hide IsSignature;
    if entries != [] {
      KeptEntries(entries[1..]);
      assert forall e :: e in entries <==> e == entries[0] || e in entries[1..];
      var rest := WithoutAnySignature(entries[1..]);
      if DistinctKeys(entries) {
        forall i | 0 <= i < |rest|
          ensures rest[i].key != entries[0].key
        {
          assert rest[i] in entries[1..];
        }
      }
    }
  }

  /**
   * What the receiver's object holds of a payload with distinct keys: each entry but a signature, its value trimmed.
   */
  lemma ParsedObject(entries: seq<Entry>, includeSignature: bool, e: Entry)
    requires WellFormed(entries) && DistinctKeys(entries) && e in entries
    ensures var parsed := ParsePayfastParams(BuildPayfastParamString(entries, includeSignature));
      if IsSignature(e.key) then e.key !in parsed else e.key in parsed && parsed[e.key] == Trim(e.value)
  {
    hide BuildPayfastParamString, ParsePayfastParams, FromEntries, IsSignature, WellFormed, Trim;
    ParseUndoesBuild(entries, includeSignature);
    KeptEntries(entries);
    var kept, sent := WithoutAnySignature(entries), Sent(entries);
    FromDistinctEntries(sent, e.key);
    forall i | 0 <= i < |sent|
      ensures !IsSignature(sent[i].key)
    {
      assert kept[i] in kept;
    }
    if !IsSignature(e.key) {
      var i :| 0 <= i < |kept| && kept[i] == e;
      assert sent[i].key == e.key;
    }
  }

  /** So the sender's signature text is the receiver's, whether the receiver has the raw body or only the payload. */
  lemma SignatureBaseAgrees(entries: seq<Entry>, includeSignature: bool, passphrase: Option<string>)
    requires WellFormed(entries)
    ensures SignatureBase(entries, passphrase, Some(BuildPayfastParamString(entries, includeSignature)))
         == BaseFromPayload(entries, passphrase)
  {
    hide WellFormed, BuildPayfastParamString, Segments, Segment, Split, Join, Trim, WithPassphrase;
    BuiltFrom(entries, includeSignature);
    var sent :| WellFormed(sent) && WithoutAnySignature(sent) == WithoutAnySignature(entries)
      && BuildPayfastParamString(entries, includeSignature) == Join(Segments(sent), '&');
    BuiltSegments(sent);
    SignatureSegments(sent);
  }

  /** The raw body has the last word, in its own order of entries: whatever the payload is, unless nothing was sent. */
  lemma RawBodyIsPreferred(payload: seq<Entry>, sent: seq<Entry>, includeSignature: bool, passphrase: Option<string>)
    requires WellFormed(sent)
    ensures var body := BuildPayfastParamString(sent, includeSignature);
      SignatureBase(payload, passphrase, Some(body)) ==
        if body == "" || BaseFromPayload(sent, passphrase) == "" then BaseFromPayload(payload, passphrase)
        else BaseFromPayload(sent, passphrase)
    ensures SignatureBase(payload, passphrase, None) == BaseFromPayload(payload, passphrase)
  {
    hide WellFormed, BuildPayfastParamString, Segments, Segment, Split, Join, Trim, WithPassphrase;
    BuiltFrom(sent, includeSignature);
    var built :| WellFormed(built) && WithoutAnySignature(built) == WithoutAnySignature(sent)
      && BuildPayfastParamString(sent, includeSignature) == Join(Segments(built), '&');
    BuiltSegments(built);
    SignatureSegments(built);
    if built == [] {
      assert Join(Segments(built), '&') == "" by { NothingBuilt(); }
    }
  }

  lemma NothingBuilt()
    ensures Join(Segments([]), '&') == ""
  {
  }

  /** And it is the one computed from the payload parsed out of that body. */
  lemma SignatureBaseOfParsed(entries: seq<Entry>, includeSignature: bool, passphrase: Option<string>)
    requires WellFormed(entries)
    ensures BaseFromPayload(ParseEntries(BuildPayfastParamString(entries, includeSignature)), passphrase)
         == BaseFromPayload(entries, passphrase)
  {
    hide WellFormed, BuildPayfastParamString, ParseEntries, Join, WithPassphrase;
    ParseUndoesBuild(entries, includeSignature);
    SentAgain(entries);
  }

  // ---------- What the signature text says ----------

  function AppendTo(base: string, part: string): string {
    if base == "" then part else base + "&" + part
  }

  lemma {:induction false} JoinMore(parts: seq<string>, last: string)
    requires "" !in parts
    ensures Join(parts + [last], '&') == AppendTo(Join(parts, '&'), last)
    ensures parts != [] ==> Join(parts, '&') != ""
  {
    if parts == [] {
      assert parts + [last] == [last];
    } else if |parts| > 1 {
      JoinMore(parts[1..], last);
      assert (parts + [last])[1..] == parts[1..] + [last];
    } else {
      assert (parts + [last])[1..] == [last];
    }
  }

  lemma {:induction false} WithoutAnyOfMore(entries: seq<Entry>, e: Entry)
    ensures WithoutAnySignature(entries + [e])
         == WithoutAnySignature(entries) + if Lower(e.key) == "signature" then [] else [e]
  {
    if entries == [] {
      assert ([] + [e])[1..] == [];
    } else {
      WithoutAnyOfMore(entries[1..], e);
      assert (entries + [e])[1..] == entries[1..] + [e];
    }
  }

  /**
   * The text is made of the entries in their order: a signature, in whatever case its key is, adds nothing; any other
   * entry adds its key, an equals sign and the encoded trimmed value after an ampersand.
   */
  lemma BaseOfMore(entries: seq<Entry>, e: Entry)
    ensures BaseFromPayload([], None) == ""
    ensures BaseFromPayload(entries + [e], None) ==
      if Lower(e.key) == "signature" then BaseFromPayload(entries, None)
      else AppendTo(BaseFromPayload(entries, None), e.key + "=" + EncodePayfast(Trim(e.value)))
  {
    WithoutAnyOfMore(entries, e);
    hide WithoutAnySignature, Lower, EncodePayfast, Trim;
    assert BaseFromPayload([], None) == "" by { assert WithoutAnySignature([]) == [] by { NoEntries(); } }
    var kept := WithoutAnySignature(entries);
    if Lower(e.key) == "signature" {
      assert kept + [] == kept;
    } else {
      assert Segments(kept + [e]) == Segments(kept) + [Segment(e)];
      JoinMore(Segments(kept), Segment(e));
    }
  }

  lemma {:induction false} WithoutOfMore(entries: seq<Entry>, e: Entry)
    ensures WithoutSignature(entries + [e]) == WithoutSignature(entries) + if e.key == "signature" then [] else [e]
  {
    if entries == [] {
      assert ([] + [e])[1..] == [];
    } else {
      WithoutOfMore(entries[1..], e);
      assert (entries + [e])[1..] == entries[1..] + [e];
    }
  }

  lemma SegmentsOfMore(entries: seq<Entry>, e: Entry)
    ensures Join(Segments(entries + [e]), '&')
         == AppendTo(Join(Segments(entries), '&'), e.key + "=" + EncodePayfast(Trim(e.value)))
  {
    hide EncodePayfast, Trim, Join;
    assert Segments(entries + [e]) == Segments(entries) + [Segment(e)];
    JoinMore(Segments(entries), Segment(e));
  }

  /** What a parameter string is made of; without signatures the entry of exactly that name is left out. */
  lemma BuiltOfMore(entries: seq<Entry>, e: Entry, includeSignature: bool)
    ensures BuildPayfastParamString([], includeSignature) == ""
    ensures BuildPayfastParamString(entries + [e], includeSignature) ==
      if !includeSignature && e.key == "signature" then BuildPayfastParamString(entries, includeSignature)
      else AppendTo(BuildPayfastParamString(entries, includeSignature), e.key + "=" + EncodePayfast(Trim(e.value)))
  {
    WithoutOfMore(entries, e);
    assert WithoutSignature([]) == [];
    NothingBuilt();
    hide WithoutSignature, EncodePayfast, Trim, Join, Segments;
    SegmentsOfMore(entries, e);
    SegmentsOfMore(WithoutSignature(entries), e);
    assert WithoutSignature(entries) + [] == WithoutSignature(entries);
  }

  /** A segment without an equals sign is a key with nothing in it. */
  lemma KeyAlone(segment: string)
    requires '=' !in segment
    ensures Decoded(segment) == Entry(DecodeFormUrlComponent(segment), "")
  {
    hide DecodeUriComponent, SpaceForPlus;
    assert forall k :: 0 <= k < |segment| ==> segment[k] != '=';
    assert IndexOf(segment, '=') == |segment|;
    assert segment[..|segment|] == segment;
    assert DecodeFormUrlComponent("") == "" by { PlainDecodes(""); }
  }

  /** A text that is no valid code is taken as it stands. */
  lemma InvalidCodeIsKept(value: string)
    requires DecodeUriComponent(SpaceForPlus(value)).None?
    ensures DecodeFormUrlComponent(value) == value
  {
    hide DecodeUriComponent, SpaceForPlus;
  }

  lemma {:induction false} NoSegments(parts: seq<string>)
    requires forall part :: part in parts ==> Trim(part) == ""
    ensures TrimmedSegments(parts) == []
  {
    hide Trim;
    if parts != [] {
      assert parts[0] in parts;
      NoSegments(parts[1..]);
    }
  }

  /** A body of nothing but ampersands and space is no body: the payload is used. */
  lemma BlankBodyIsIgnored(payload: seq<Entry>, passphrase: Option<string>, rawBody: string)
    requires forall part :: part in Split(rawBody, '&') ==> Trim(part) == ""
    ensures SignatureBase(payload, passphrase, Some(rawBody)) == BaseFromPayload(payload, passphrase)
  {
    assert BaseFromRawBody(rawBody, passphrase).None? by { NoSegments(Split(rawBody, '&')); }
    hide BaseFromRawBody, BaseFromPayload;
  }

  lemma NoEntries()
    ensures WithoutAnySignature([]) == []
  {
  }

  predicate BlankPassphrase(passphrase: Option<string>) {
    passphrase.None? || Trim(passphrase.value) == ""
  }

  lemma SecretLast(segments: seq<string>, passphrase: Option<string>)
    requires "" !in segments
    ensures Join(WithPassphrase(segments, passphrase), '&') ==
      if BlankPassphrase(passphrase) then Join(segments, '&')
      else AppendTo(Join(segments, '&'), "passphrase=" + EncodePayfast(Trim(passphrase.value)))
  {
    hide Join, EncodePayfast, Trim;
    if !BlankPassphrase(passphrase) {
      JoinMore(segments, "passphrase=" + EncodePayfast(Trim(passphrase.value)));
    }
  }

  lemma {:induction false} KeptSegmentsAreNotEmpty(parts: seq<string>)
    ensures "" !in TrimmedSegments(parts)
  {
    hide Trim;
    if parts != [] {
      KeptSegmentsAreNotEmpty(parts[1..]);
    }
  }

  lemma {:induction false} WithoutIsPart(segments: seq<string>)
    ensures forall x :: x in WithoutSignatureSegments(segments) ==> x in segments
  {
    hide Trim, IsSignature, KeyPart;
    if segments != [] {
      WithoutIsPart(segments[1..]);
    }
  }

  /** The merchant's secret comes last, encoded and trimmed; a blank one adds nothing. */
  lemma PassphraseComesLast(entries: seq<Entry>, passphrase: Option<string>)
    ensures BaseFromPayload(entries, passphrase) ==
      if BlankPassphrase(passphrase) then BaseFromPayload(entries, None)
      else AppendTo(BaseFromPayload(entries, None), "passphrase=" + EncodePayfast(Trim(passphrase.value)))
  {
    hide WithoutAnySignature, Join, EncodePayfast, Trim, WithPassphrase;
    SecretLast(Segments(WithoutAnySignature(entries)), passphrase);
    SecretLast(Segments(WithoutAnySignature(entries)), None);
  }

  /** The same for the text taken from the raw body. */
  lemma PassphraseAfterRawBody(rawBody: string, passphrase: Option<string>)
    ensures var base, plain := BaseFromRawBody(rawBody, passphrase), BaseFromRawBody(rawBody, None);
      if plain.None? || BlankPassphrase(passphrase) then base == plain
      else base == Some(AppendTo(plain.value, "passphrase=" + EncodePayfast(Trim(passphrase.value))))
  {
    var segments := TrimmedSegments(Split(rawBody, '&'));
    KeptSegmentsAreNotEmpty(Split(rawBody, '&'));
    WithoutIsPart(segments);
    hide WithoutSignatureSegments, TrimmedSegments, Split, Join, EncodePayfast, Trim, WithPassphrase;
    SecretLast(WithoutSignatureSegments(segments), passphrase);
    SecretLast(WithoutSignatureSegments(segments), None);
  }

  /** So two secrets never give the same text for one payload. */
  lemma SecretsTellApart(entries: seq<Entry>, a: string, b: string)
    requires Trim(a) != Trim(b)
    ensures BaseFromPayload(entries, Some(a)) != BaseFromPayload(entries, Some(b))
  {
    PassphraseComesLast(entries, Some(a));
    PassphraseComesLast(entries, Some(b));
    ValueRoundTrip(Trim(a));
    ValueRoundTrip(Trim(b));
    hide BaseFromPayload, EncodePayfast, DecodeFormUrlComponent, Encoded, Trim, AppendTo;
    var base, p, q := BaseFromPayload(entries, None), EncodePayfast(Trim(a)), EncodePayfast(Trim(b));
    CodesTellApart(base, p, q);
    CodesTellApart(base, q, p);
  }

  lemma CodesTellApart(base: string, p: string, q: string)
    requires p != q
    ensures AppendTo(base, "passphrase=" + p) != AppendTo(base, "passphrase=" + q)
    ensures AppendTo(base, "passphrase=" + p) != base
  {
    var front := AppendTo(base, "passphrase=");
    assert AppendTo(base, "passphrase=" + p) == front + p && AppendTo(base, "passphrase=" + q) == front + q;
    assert (front + p)[|front|..] == p && (front + q)[|front|..] == q;
  }

  // ---------- What the code of a value is ----------

  predicate HasMark(c: char) {
    c in "-_.!~*'()"
  }

  /**
   * A space becomes a plus sign; letters, digits and nine marks stay; any other ASCII character is escaped in upper
   * case.
   */
  function CodeOf(c: char): string
    requires c as nat < 0x80
  {
    if c == ' ' then "+"
    else if 'a' <= c <= 'z' || 'A' <= c <= 'Z' || '0' <= c <= '9' || HasMark(c) then [c]
    else ['%', "0123456789ABCDEF"[c as nat / 16], "0123456789ABCDEF"[c as nat % 16]]
  }

  lemma Hex(n: nat)
    requires n < 16
    ensures HexDigit(n) == "0123456789ABCDEF"[n] && HexDigit(n) != '%'
  {
  }

  lemma PlusForSpaceOfPlain(c: char, rest: string)
    requires c != '%'
    ensures PlusForSpace([c] + rest) == [c] + PlusForSpace(rest)
  {
    var s := [c] + rest;
    assert s[0] == c && s[1..] == rest && SPACE[0] == '%';
  }

  lemma PlusForSpaceOfEscape(b: nat, rest: string)
    requires b < 256
    ensures PlusForSpace(Escape(b) + rest) == (if b == 32 then "+" else Escape(b)) + PlusForSpace(rest)
  {
    var s := Escape(b) + rest;
    assert s[..3] == Escape(b) && s[3..] == rest;
    if b == 32 {
      assert s[..3] == SPACE by { assert Escape(32) == SPACE; }
    } else {
      if SPACE <= s {
        OnlySpace(b, s);
      }
      EscapeWithoutSpace(b, rest);
    }
  }

  lemma EscapeWithoutSpace(b: nat, rest: string)
    requires b < 256 && !(SPACE <= Escape(b) + rest)
    ensures PlusForSpace(Escape(b) + rest) == Escape(b) + PlusForSpace(rest)
  {
    var x, y := HexDigit(b / 16), HexDigit(b % 16);
    Hex(b / 16);
    Hex(b % 16);
    var s := Escape(b) + rest;
    assert s[1..] == [x] + ([y] + rest) && s[0] == '%';
    assert PlusForSpace(s) == ['%'] + PlusForSpace([x] + ([y] + rest));
    hide PlusForSpace, HexDigit;
    PlusForSpaceOfPlain(x, [y] + rest);
    PlusForSpaceOfPlain(y, rest);
    assert Escape(b) == ['%', x, y];
  }

  lemma OnlySpace(b: nat, s: string)
    requires b < 256 && |s| >= 3 && s[..3] == Escape(b) && SPACE <= s
    ensures b == 32
  {
    HexInverse(b / 16);
    HexInverse(b % 16);
    assert s[..3] == SPACE;
    assert SPACE[1] == '2' && SPACE[2] == '0' && Escape(b)[1] == HexDigit(b / 16) && Escape(b)[2] == HexDigit(b % 16);
    assert HexValue('2') == Some(2) && HexValue('0') == Some(0);
  }

  lemma {:induction false} CodeByCharacter(c: char, rest: string)
    requires c as nat < 0x80
    ensures EncodePayfast([c] + rest) == CodeOf(c) + EncodePayfast(rest)
  {
    var n := c as nat;
    var code := EncodeUriComponent(rest);
    assert ([c] + rest)[1..] == rest;
    Hex(n / 16);
    Hex(n % 16);
    if Unreserved(c) {
      PlusForSpaceOfPlain(c, code);
    } else {
      PlusForSpaceOfEscape(n, code);
    }
    hide PlusForSpace, EncodeUriComponent;
  }

  lemma {:induction false} AlreadyWithout(entries: seq<Entry>)
    requires forall i :: 0 <= i < |entries| ==> !IsSignature(entries[i].key)
    ensures WithoutAnySignature(entries) == entries
  {
    hide IsSignature;
    if entries != [] {
      AlreadyWithout(entries[1..]);
      assert entries == [entries[0]] + entries[1..];
    }
  }

  lemma SegmentOfTrimmed(e: Entry)
    ensures Segment(Entry(e.key, Trim(e.value))) == Segment(e)
  {
    TrimKeepsTrimmed(Trim(e.value));
    hide Trim, EncodePayfast;
  }

  lemma SentAgain(entries: seq<Entry>)
    ensures Segments(WithoutAnySignature(Sent(entries))) == Segments(WithoutAnySignature(entries))
  {
    KeptEntries(entries);
    var kept, sent := WithoutAnySignature(entries), Sent(entries);
    hide IsSignature, Segment, Trim, WithoutAnySignature, DistinctKeys;
    forall i | 0 <= i < |kept|
      ensures !IsSignature(sent[i].key) && Segment(sent[i]) == Segment(kept[i])
    {
      assert kept[i] in kept;
      SegmentOfTrimmed(kept[i]);
    }
    AlreadyWithout(sent);
  }
}
