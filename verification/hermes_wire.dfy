/**
 * The size bound of a Hermes request (recorder_next/hermes_wire.py:46-143): the length of a serialised body is
 * the length of its skeleton plus its text, and the text of well-formed images is paid for by their charges.
 * An object lists its members in serialisation order, which is the order of its keys.
 */
module HermesWire {
  import opened Wrappers

  type byte = x: int | 0 <= x < 256

  datatype Member = Member(key: string, value: Json)

  datatype Json =
    | JNull
    | JBool(b: bool)
    | JInt(n: int)
    | JFloat(text: seq<byte>)
    | JStr(s: string)
    | JArr(items: seq<Json>)
    | JObj(members: seq<Member>)

  // ---- serialisation ------------------------------------------------------------------------

  const QUOTE: byte := 0x22
  const BACKSLASH: byte := 0x5C
  const COMMA: byte := 0x2C
  const COLON: byte := 0x3A

  function Hex(n: int): byte
    requires 0 <= n < 16
  {
    if n < 10 then 0x30 + n else 0x61 + n - 10
  }

  function Utf8(c: char): (b: seq<byte>)
    ensures 1 <= |b| <= 4
  {
    var n := c as int;
    if n < 0x80 then [n]
    else if n < 0x800 then [0xC0 + n / 0x40, 0x80 + n % 0x40]
    else if n < 0x1_0000 then [0xE0 + n / 0x1000, 0x80 + n / 0x40 % 0x40, 0x80 + n % 0x40]
    else [0xF0 + n / 0x4_0000 % 8, 0x80 + n / 0x1000 % 0x40, 0x80 + n / 0x40 % 0x40, 0x80 + n % 0x40]
  }

  function EscapeChar(c: char): (b: seq<byte>)
    ensures |b| >= 1
  {
    var n := c as int;
    if c == '"' then [BACKSLASH, QUOTE]
    else if c == '\\' then [BACKSLASH, BACKSLASH]
    else if n == 10 then [BACKSLASH, 0x6E]
    else if n == 13 then [BACKSLASH, 0x72]
    else if n == 9 then [BACKSLASH, 0x74]
    else if n == 8 then [BACKSLASH, 0x62]
    else if n == 12 then [BACKSLASH, 0x66]
    else if n < 0x20 then [BACKSLASH, 0x75, 0x30, 0x30, Hex(n / 16), Hex(n % 16)]
    else Utf8(c)
  }

  function Escape(s: string): seq<byte> {
    if s == "" then [] else EscapeChar(s[0]) + Escape(s[1..])
  }

  function Digits(n: nat): seq<byte> {
    if n < 10 then [0x30 + n] else Digits(n / 10) + [0x30 + n % 10]
  }

  function Quoted(s: string): seq<byte> {
    [QUOTE] + Escape(s) + [QUOTE]
  }

  function Serialize(v: Json): seq<byte>
    decreases v, 0
  {
    match v
    case JNull => [0x6E, 0x75, 0x6C, 0x6C]
    case JBool(b) => if b then [0x74, 0x72, 0x75, 0x65] else [0x66, 0x61, 0x6C, 0x73, 0x65]
    case JInt(n) => if n < 0 then [0x2D] + Digits(-n) else Digits(n)
    case JFloat(text) => text
    case JStr(s) => Quoted(s)
    case JArr(items) => [0x5B] + SerializeItems(items) + [0x5D]
    case JObj(members) => [0x7B] + SerializeMembers(members) + [0x7D]
  }

  function SerializeItems(items: seq<Json>): seq<byte>
    decreases items
  {
    if items == [] then []
    else Serialize(items[0]) + (if |items| > 1 then [COMMA] else []) + SerializeItems(items[1..])
  }

  function SerializeMembers(members: seq<Member>): seq<byte>
    decreases members
  {
    if members == [] then []
    else Quoted(members[0].key) + [COLON] + Serialize(members[0].value) +
         (if |members| > 1 then [COMMA] else []) + SerializeMembers(members[1..])
  }

  // ---- the skeleton -------------------------------------------------------------------------

  function ZeroText(v: Json): Json
    decreases v, 0
  {
    match v
    case JStr(_) => JStr("")
    case JArr(items) => JArr(ZeroItems(items))
    case JObj(members) => JObj(ZeroMembers(members))
    case _ => v
  }

  function ZeroItems(items: seq<Json>): (r: seq<Json>)
    ensures |r| == |items|
    decreases items
  {
    if items == [] then [] else [ZeroText(items[0])] + ZeroItems(items[1..])
  }

  function ZeroMembers(members: seq<Member>): (r: seq<Member>)
    ensures |r| == |members|
    decreases members
  {
    if members == [] then [] else [Member(members[0].key, ZeroText(members[0].value))] + ZeroMembers(members[1..])
  }

  /** The escaped length of every string value; keys are part of the skeleton. */
  function TextBytes(v: Json): nat
    decreases v, 0
  {
    match v
    case JStr(s) => |Escape(s)|
    case JArr(items) => TextOfItems(items)
    case JObj(members) => TextOfMembers(members)
    case _ => 0
  }

  function TextOfItems(items: seq<Json>): nat
    decreases items
  {
    if items == [] then 0 else TextBytes(items[0]) + TextOfItems(items[1..])
  }

  function TextOfMembers(members: seq<Member>): nat
    decreases members
  {
    if members == [] then 0 else TextBytes(members[0].value) + TextOfMembers(members[1..])
  }

  /** A serialised body is as long as its skeleton and its text together. */
  lemma {:induction false} SkeletonPlusText(v: Json)
    ensures |Serialize(v)| == |Serialize(ZeroText(v))| + TextBytes(v)
    decreases v, 0
  {
    match v
    case JStr(s) => assert Escape("") == [];
    case JArr(items) => ItemsPlusText(items);
    case JObj(members) => MembersPlusText(members);
    case _ =>
  }

  lemma {:induction false} ItemsPlusText(items: seq<Json>)
    ensures |SerializeItems(items)| == |SerializeItems(ZeroItems(items))| + TextOfItems(items)
    decreases items
  {
    if items != [] {
      SkeletonPlusText(items[0]);
      ItemsPlusText(items[1..]);
      assert ZeroItems(items)[1..] == ZeroItems(items[1..]);
    }
  }

  lemma {:induction false} MembersPlusText(members: seq<Member>)
    ensures |SerializeMembers(members)| == |SerializeMembers(ZeroMembers(members))| + TextOfMembers(members)
    decreases members
  {
    if members != [] {
      SkeletonPlusText(members[0].value);
      MembersPlusText(members[1..]);
      assert ZeroMembers(members)[1..] == ZeroMembers(members[1..]);
    }
  }

  /** The bytes a character of a string takes: short and six-byte escapes, otherwise its UTF-8 length. */
  lemma WhatCharactersCost(c: char)
    ensures |EscapeChar(c)| ==
            if c == '"' || c == '\\' || c == '\n' || c == '\r' || c == '\t' || c as int == 8 || c as int == 12 then 2
            else if c as int <= 31 then 6
            else if c as int <= 127 then 1
            else if c as int <= 2047 then 2
            else if c as int <= 65535 then 3 else 4
  {
  }

  /** The skeleton holds no text at all. */
  lemma {:induction false} SkeletonHasNoText(v: Json)
    ensures TextBytes(ZeroText(v)) == 0
    decreases v, 0
  {
    match v
    case JStr(_) => assert Escape("") == [];
    case JArr(items) => ZeroItemsHaveNoText(items);
    case JObj(members) => ZeroMembersHaveNoText(members);
    case _ =>
  }

  lemma {:induction false} ZeroItemsHaveNoText(items: seq<Json>)
    ensures TextOfItems(ZeroItems(items)) == 0
    decreases items
  {
    if items != [] {
      SkeletonHasNoText(items[0]);
      ZeroItemsHaveNoText(items[1..]);
      assert ZeroItems(items)[1..] == ZeroItems(items[1..]);
    }
  }

  lemma {:induction false} ZeroMembersHaveNoText(members: seq<Member>)
    ensures TextOfMembers(ZeroMembers(members)) == 0
    decreases members
  {
    if members != [] {
      SkeletonHasNoText(members[0].value);
      ZeroMembersHaveNoText(members[1..]);
      assert ZeroMembers(members)[1..] == ZeroMembers(members[1..]);
    }
  }

  // ---- base64 -------------------------------------------------------------------------------

  function Base64Symbols(bytes: nat): nat {
    4 * ((bytes + 2) / 3)
  }

  function StripPadding(s: string): (t: string)
    ensures t <= s
    ensures forall i | |t| <= i < |s| :: s[i] == '='
    ensures t != "" ==> t[|t| - 1] != '='
  {
    if s != "" && s[|s| - 1] == '=' then StripPadding(s[..|s| - 1]) else s
  }

  function InferredBytes(payload: string): nat {
    |StripPadding(payload)| * 3 / 4
  }

  /** Padded to a multiple of four with at most two signs. */
  predicate Padded(payload: string) {
    |payload| % 4 == 0 && |payload| - |StripPadding(payload)| <= 2
  }

  /**
   * The charge for the bytes inferred from a payload is the payload's own length exactly when it is properly padded.
   */
  lemma InferredChargeIsExact(payload: string)
    ensures Base64Symbols(InferredBytes(payload)) == |payload| <==> Padded(payload)
  {
    ChargeOfSymbols(|StripPadding(payload)|);
  }

  /**
   * In general the charge is the stripped length rounded up to four, except that one leftover symbol is not paid for.
   */
  lemma ChargeOfSymbols(u: nat)
    ensures Base64Symbols(u * 3 / 4) == if u % 4 == 1 then u - 1 else u + (4 - u % 4) % 4
  {
    var q, r := u / 4, u % 4;
    assert u * 3 == 4 * (3 * q) + 3 * r;
    assert u * 3 / 4 == 3 * q + 3 * r / 4;
    assert (3 * q + 3 * r / 4 + 2) / 3 == q + (3 * r / 4 + 2) / 3;
  }

  // ---- images -------------------------------------------------------------------------------

  function Get(members: seq<Member>, key: string): Option<Json> {
    if members == [] then None
    else if members[0].key == key then Some(members[0].value)
    else Get(members[1..], key)
  }

  function CountAt(members: seq<Member>, key: string): Option<nat> {
    var v := Get(members, key);
    if v.Some? && v.value.JInt? && v.value.n >= 0 then Some(v.value.n) else None
  }

  function AfterComma(s: string): Option<string> {
    if s == "" then None else if s[0] == ',' then Some(s[1..]) else AfterComma(s[1..])
  }

  /** The text after the comma of a data URL held directly in image_url. */
  function DataPayload(members: seq<Member>): Option<string> {
    var url := Get(members, "image_url");
    if url.Some? && url.value.JStr? && "data:" <= url.value.s then AfterComma(url.value.s) else None
  }

  function ImageDeclaredBytes(members: seq<Member>): Option<nat> {
    var a, b, c := CountAt(members, "declared_bytes"), CountAt(members, "byte_count"), CountAt(members, "bytes");
    if a.Some? then a
    else if b.Some? then b
    else if c.Some? then c
    else
      var payload := DataPayload(members);
      if payload.Some? then Some(InferredBytes(payload.value)) else None
  }

  predicate Counts(members: seq<Member>, key: string, n: nat) {
    Get(members, key) == Some(JInt(n))
  }

  ghost predicate CountsNothing(members: seq<Member>, key: string) {
    forall n: nat :: !Counts(members, key, n)
  }

  /** The size of an image: the first count it declares, or what its own data URL holds. */
  lemma WhatImageDeclares(members: seq<Member>, n: nat)
    ensures ImageDeclaredBytes(members) == Some(n) <==>
            || Counts(members, "declared_bytes", n)
            || (CountsNothing(members, "declared_bytes") && Counts(members, "byte_count", n))
            || (CountsNothing(members, "declared_bytes") && CountsNothing(members, "byte_count")
                && Counts(members, "bytes", n))
            || (CountsNothing(members, "declared_bytes") && CountsNothing(members, "byte_count")
                && CountsNothing(members, "bytes")
                && DataPayload(members).Some? && n == |StripPadding(DataPayload(members).value)| * 3 / 4)
  {
    CountIs(members, "declared_bytes");
    CountIs(members, "byte_count");
    CountIs(members, "bytes");
  }

  lemma CountIs(members: seq<Member>, key: string)
    ensures forall n: nat :: CountAt(members, key) == Some(n) <==> Counts(members, key, n)
    ensures CountAt(members, key) == None <==> CountsNothing(members, key)
  {
    if CountAt(members, key).Some? {
      assert Counts(members, key, CountAt(members, key).value);
    }
  }

  predicate IsImage(members: seq<Member>) {
    var kind := Get(members, "type");
    kind.Some? && kind.value in {JStr("input_image"), JStr("image"), JStr("image_url")}
  }

  /** The sizes the walk over a body yields, in its order. */
  function ImageSizes(v: Json): seq<nat>
    decreases v, 0
  {
    match v
    case JObj(members) =>
      (if IsImage(members) && ImageDeclaredBytes(members).Some? then [ImageDeclaredBytes(members).value] else []) +
      SizesOfMembers(members)
    case JArr(items) => SizesOfItems(items)
    case _ => []
  }

  function SizesOfItems(items: seq<Json>): seq<nat>
    decreases items
  {
    if items == [] then [] else ImageSizes(items[0]) + SizesOfItems(items[1..])
  }

  function SizesOfMembers(members: seq<Member>): seq<nat>
    decreases members
  {
    if members == [] then [] else ImageSizes(members[0].value) + SizesOfMembers(members[1..])
  }

  function Charge(sizes: seq<nat>): nat {
    if sizes == [] then 0 else Base64Symbols(sizes[0]) + Charge(sizes[1..])
  }

  /** `declared` overrides the sizes found in the body. */
  function Estimate(body: Json, textReserve: nat, sessionReserve: nat, declared: Option<seq<nat>>): nat {
    |Serialize(ZeroText(body))| + textReserve + sessionReserve +
    Charge(if declared.Some? then declared.value else ImageSizes(body))
  }

  // ---- when the estimate is a bound ---------------------------------------------------------

  /** The estimate bounds the body exactly when reserves and charges together pay for its text. */
  lemma WhenEstimateBounds(body: Json, textReserve: nat, sessionReserve: nat, declared: Option<seq<nat>>)
    ensures |Serialize(body)| <= Estimate(body, textReserve, sessionReserve, declared) <==>
            TextBytes(body) <= textReserve + sessionReserve +
                               Charge(if declared.Some? then declared.value else ImageSizes(body))
  {
    SkeletonPlusText(body);
  }

  /** The escaped length of the payloads of the body's image objects. */
  function PayloadBytes(v: Json): nat
    decreases v, 0
  {
    match v
    case JObj(members) =>
      (if IsImage(members) && DataPayload(members).Some? then |Escape(DataPayload(members).value)| else 0) +
      PayloadOfMembers(members)
    case JArr(items) => PayloadOfItems(items)
    case _ => 0
  }

  function PayloadOfItems(items: seq<Json>): nat
    decreases items
  {
    if items == [] then 0 else PayloadBytes(items[0]) + PayloadOfItems(items[1..])
  }

  function PayloadOfMembers(members: seq<Member>): nat
    decreases members
  {
    if members == [] then 0 else PayloadBytes(members[0].value) + PayloadOfMembers(members[1..])
  }

  predicate PlainChar(c: char) {
    'A' <= c <= 'Z' || 'a' <= c <= 'z' || '0' <= c <= '9' || c == '+' || c == '/' || c == '=' || c == '-' || c == '_'
  }

  /** A base64 payload, padded, and not declared to be smaller than it is. */
  predicate HonestImage(members: seq<Member>) {
    var payload := DataPayload(members);
    payload.Some? ==>
      && (forall c | c in payload.value :: PlainChar(c))
      && Padded(payload.value)
      && ImageDeclaredBytes(members).Some? && ImageDeclaredBytes(members).value >= InferredBytes(payload.value)
  }

  predicate Honest(v: Json)
    decreases v, 0
  {
    match v
    case JObj(members) => (IsImage(members) ==> HonestImage(members)) && HonestMembers(members)
    case JArr(items) => HonestItems(items)
    case _ => true
  }

  predicate HonestItems(items: seq<Json>)
    decreases items
  {
    items != [] ==> Honest(items[0]) && HonestItems(items[1..])
  }

  predicate HonestMembers(members: seq<Member>)
    decreases members
  {
    members != [] ==> Honest(members[0].value) && HonestMembers(members[1..])
  }

  lemma {:induction false} PlainTextLength(s: string)
    requires forall c | c in s :: PlainChar(c)
    ensures |Escape(s)| == |s|
  {
    if s != "" {
      assert PlainChar(s[0]);
      PlainTextLength(s[1..]);
    }
  }

  lemma ChargeGrows(m: nat, n: nat)
    requires m <= n
    ensures Base64Symbols(m) <= Base64Symbols(n)
  {
  }

  lemma {:induction false} ChargeOfBoth(a: seq<nat>, b: seq<nat>)
    ensures Charge(a + b) == Charge(a) + Charge(b)
  {
    if a == [] {
      assert a + b == b;
    } else {
      ChargeOfBoth(a[1..], b);
      assert (a + b)[1..] == a[1..] + b;
    }
  }

  lemma ImageIsPaidFor(members: seq<Member>)
    requires HonestImage(members) && DataPayload(members).Some?
    ensures |Escape(DataPayload(members).value)| <= Base64Symbols(ImageDeclaredBytes(members).value)
  {
    var payload := DataPayload(members).value;
    PlainTextLength(payload);
    InferredChargeIsExact(payload);
    ChargeGrows(InferredBytes(payload), ImageDeclaredBytes(members).value);
  }

  /** The charges of honest images cover their payloads, wherever they are nested. */
  lemma {:induction false} ImagesArePaidFor(v: Json)
    requires Honest(v)
    ensures PayloadBytes(v) <= Charge(ImageSizes(v))
    decreases v, 0
  {
    match v
    case JObj(members) =>
      MembersArePaidFor(members);
      if IsImage(members) && ImageDeclaredBytes(members).Some? {
        var size := ImageDeclaredBytes(members).value;
        ChargeOfBoth([size], SizesOfMembers(members));
        assert Charge([size]) == Base64Symbols(size);
        if DataPayload(members).Some? {
          ImageIsPaidFor(members);
        }
      } else {
        assert [] + SizesOfMembers(members) == SizesOfMembers(members);
      }
    case JArr(items) => ItemsArePaidFor(items);
    case _ =>
  }

  lemma {:induction false} ItemsArePaidFor(items: seq<Json>)
    requires HonestItems(items)
    ensures PayloadOfItems(items) <= Charge(SizesOfItems(items))
    decreases items
  {
    if items != [] {
      ImagesArePaidFor(items[0]);
      ItemsArePaidFor(items[1..]);
      ChargeOfBoth(ImageSizes(items[0]), SizesOfItems(items[1..]));
    }
  }

  lemma {:induction false} MembersArePaidFor(members: seq<Member>)
    requires HonestMembers(members)
    ensures PayloadOfMembers(members) <= Charge(SizesOfMembers(members))
    decreases members
  {
    if members != [] {
      ImagesArePaidFor(members[0].value);
      MembersArePaidFor(members[1..]);
      ChargeOfBoth(ImageSizes(members[0].value), SizesOfMembers(members[1..]));
    }
  }

  /** The promise: with honest images the estimate is a bound as soon as all other text fits the two reserves. */
  lemma EstimateIsBound(body: Json, textReserve: nat, sessionReserve: nat)
    requires Honest(body) && TextBytes(body) - PayloadBytes(body) <= textReserve + sessionReserve
    ensures |Serialize(body)| <= Estimate(body, textReserve, sessionReserve, None)
  {
    ImagesArePaidFor(body);
    WhenEstimateBounds(body, textReserve, sessionReserve, None);
  }

  // ---- images that are not paid for -------------------------------------------------------------

  lemma {:induction false} EscapeAppends(a: string, b: string)
    ensures Escape(a + b) == Escape(a) + Escape(b)
  {
    if a == "" {
      assert a + b == b;
    } else {
      assert (a + b)[1..] == a[1..] + b;
      EscapeAppends(a[1..], b);
    }
  }

  predicate Printable(c: char) {
    0x20 <= c as int < 0x80 && c != '"' && c != '\\'
  }

  lemma {:induction false} PrintableLength(s: string)
    requires forall i | 0 <= i < |s| :: Printable(s[i])
    ensures |Escape(s)| == |s|
  {
    if s != "" {
      assert Printable(s[0]);
      PrintableLength(s[1..]);
    }
  }

  lemma EscapedWord(s: string)
    requires s == "data:," || s == "image_url"
    ensures |Escape(s)| == |s|
  {
    PrintableLength(s);
  }

  function DataUrl(payload: string): Json {
    JStr("data:," + payload)
  }

  lemma DataUrlText(payload: string)
    requires forall c | c in payload :: PlainChar(c)
    ensures TextBytes(DataUrl(payload)) == 6 + |payload|
  {
    EscapedWord("data:,");
    EscapeAppends("data:,", payload);
    PlainTextLength(payload);
  }

  lemma {:induction false} CommaEnds(s: string, t: string)
    requires forall i | 0 <= i < |s| :: s[i] != ','
    ensures AfterComma(s + "," + t) == Some(t)
  {
    if s == "" {
      assert s + "," + t == "," + t && ("," + t)[1..] == t;
    } else {
      assert (s + "," + t)[1..] == s[1..] + "," + t;
      CommaEnds(s[1..], t);
    }
  }

  lemma DataUrlPayload(payload: string)
    ensures "data:" <= "data:," + payload && AfterComma("data:," + payload) == Some(payload)
  {
    var s := "data:";
    CommaEnds(s, payload);
    assert s + "," == "data:,";
  }

  /** An image part whose image_url is the string itself, or an object that holds it. */
  function ImagePart(url: Json): seq<Member> {
    [Member("image_url", url), Member("type", JStr("image_url"))]
  }

  lemma PartText(url: Json)
    ensures TextBytes(JObj(ImagePart(url))) == TextBytes(url) + 9
    ensures SizesOfMembers(ImagePart(url)) == ImageSizes(url)
    ensures PayloadOfMembers(ImagePart(url)) == PayloadBytes(url)
  {
    StringCosts("image_url");
    ShortPart(ImagePart(url), url, ImagePart(url)[1].value);
  }

  lemma StringCosts(word: string)
    requires word == "data:," || word == "image_url"
    ensures TextBytes(JStr(word)) == |word| && ImageSizes(JStr(word)) == [] && PayloadBytes(JStr(word)) == 0
  {
    EscapedWord(word);
  }

  lemma ShortPart(part: seq<Member>, url: Json, kind: Json)
    requires |part| == 2 && part[0].value == url && part[1].value == kind && kind.JStr?
    ensures TextBytes(JObj(part)) == TextBytes(url) + TextBytes(kind)
    ensures SizesOfMembers(part) == ImageSizes(url) && PayloadOfMembers(part) == PayloadBytes(url)
  {
    TwoMembers(part[0], part[1]);
    assert part == [part[0], part[1]];
    assert ImageSizes(url) + [] == ImageSizes(url);
  }

  lemma TwoMembers(a: Member, b: Member)
    ensures TextOfMembers([a, b]) == TextBytes(a.value) + TextBytes(b.value)
    ensures SizesOfMembers([a, b]) == ImageSizes(a.value) + ImageSizes(b.value)
    ensures PayloadOfMembers([a, b]) == PayloadBytes(a.value) + PayloadBytes(b.value)
  {
    var both, last := [a, b], [b];
    assert both[1..] == last && last[1..] == [];
    assert TextOfMembers(last) == TextBytes(b.value) && PayloadOfMembers(last) == PayloadBytes(b.value);
    assert SizesOfMembers(last) == ImageSizes(b.value) + [] == ImageSizes(b.value);
  }

  lemma PartFields(url: Json)
    ensures IsImage(ImagePart(url)) && Get(ImagePart(url), "image_url") == Some(url)
    ensures CountAt(ImagePart(url), "declared_bytes").None?
    ensures CountAt(ImagePart(url), "byte_count").None? && CountAt(ImagePart(url), "bytes").None?
  {
    GetOfTwo(Member("image_url", url), Member("type", JStr("image_url")));
  }

  lemma GetOfTwo(a: Member, b: Member)
    ensures forall key :: Get([a, b], key) ==
              if key == a.key then Some(a.value) else if key == b.key then Some(b.value) else None
  {
    var both, last := [a, b], [b];
    assert both[1..] == last && last[1..] == [];
    assert forall key :: Get(last, key) == if key == b.key then Some(b.value) else None;
  }

  /** The image found in a nested url object is never charged: only the reserves pay for its payload. */
  lemma NestedImageIsNotPaidFor(payload: string, textReserve: nat, sessionReserve: nat)
    requires forall c | c in payload :: PlainChar(c)
    ensures var body := JObj(ImagePart(JObj([Member("url", DataUrl(payload))])));
            && ImageSizes(body) == []
            && (|Serialize(body)| <= Estimate(body, textReserve, sessionReserve, None) <==>
                  |payload| + 15 <= textReserve + sessionReserve)
  {
    var members := [Member("url", DataUrl(payload))];
    var body := JObj(ImagePart(JObj(members)));
    DataUrlText(payload);
    PartText(JObj(members));
    PartFields(JObj(members));
    assert members[1..] == [];
    assert TextOfMembers(members) == 6 + |payload|;
    assert ImageSizes(DataUrl(payload)) == [];
    assert SizesOfMembers(members) == [];
    assert Get(members, "type").None?;
    assert ImageSizes(JObj(members)) == [];
    WhenEstimateBounds(body, textReserve, sessionReserve, None);
  }

  /**
   * With one leftover symbol the charge is a byte short: reserves that pay for all the other text, 15 bytes
   * of it, are not enough.
   */
  lemma LeftoverSymbolIsNotPaidFor(payload: string, textReserve: nat, sessionReserve: nat)
    requires forall c | c in payload :: PlainChar(c)
    requires |payload| % 4 == 1 && payload[|payload| - 1] != '='
    ensures var body := JObj(ImagePart(DataUrl(payload)));
            && TextBytes(body) - PayloadBytes(body) == 15
            && (|Serialize(body)| <= Estimate(body, textReserve, sessionReserve, None) <==>
                  16 <= textReserve + sessionReserve)
  {
    var url := DataUrl(payload);
    var body := JObj(ImagePart(url));
    DataUrlText(payload);
    DataUrlPayload(payload);
    PartText(url);
    PartFields(url);
    PlainTextLength(payload);
    ChargeOfSymbols(|payload|);
    assert DataPayload(ImagePart(url)) == Some(payload);
    assert PayloadBytes(body) == |payload|;
    assert ImageSizes(body) == [InferredBytes(payload)] + [];
    assert Charge([InferredBytes(payload)]) == Base64Symbols(InferredBytes(payload)) == |payload| - 1;
    WhenEstimateBounds(body, textReserve, sessionReserve, None);
  }
}
