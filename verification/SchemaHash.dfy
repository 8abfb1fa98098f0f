/** The pre-image of the tool schema hash: a recursive, length-prefixed byte
    encoding that ignores the order of `Required` and of map iteration. */
module SchemaHash {
  import opened Prelude
  import opened ToolSchema

  const TWO_63: int := 0x8000_0000_0000_0000
  const TWO_64: int := 0x1_0000_0000_0000_0000

  type uint64 = n: int | 0 <= n < TWO_64

  /** What encoding/json makes of a value: its text, or the text of its error. */
  datatype AnyValue = Marshals(text: Text) | Unmarshalable(text: Text)

  /** A float64 is represented by its bits. */
  type HashedSchema = Schema<Text, uint64, AnyValue>

  datatype Descriptor = Descriptor(name: Text, description: Text, risk: Text, parameters: HashedSchema)

  // ----- fixed-width big-endian words

  function BigEndian(n: int, width: nat): Text
    decreases width, n
  {
    if width == 0 then [] else BigEndian(n / 256, width - 1) + [(n % 256) as byte]
  }

  function BigEndianValue(bytes: Text): int {
    if bytes == [] then 0
    else BigEndianValue(bytes[..|bytes| - 1]) * 256 + bytes[|bytes| - 1] as int
  }

  function Power256(width: nat): int {
    if width == 0 then 1 else 256 * Power256(width - 1)
  }

  lemma {:induction false} BigEndianRoundTrip(n: int, width: nat)
    requires 0 <= n < Power256(width)
    ensures |BigEndian(n, width)| == width && BigEndianValue(BigEndian(n, width)) == n
  {
    if width > 0 {
      BigEndianRoundTrip(n / 256, width - 1);
      var high, bytes := BigEndian(n / 256, width - 1), BigEndian(n, width);
      assert bytes[..|bytes| - 1] == high;
    }
  }

  // ----- encoding

  /** writeToolSchemaHashUint64, after Go's conversion to uint64. */
  function EncodeWord(n: int): Text { BigEndian(n % TWO_64, 8) }

  function EncodeBool(b: bool): Text { EncodeWord(if b then 1 else 0) }

  function EncodeText(t: Text): Text { EncodeWord(|t|) + t }

  function EncodeOptionalWord(value: Option<int>): Text {
    match value
    case None => EncodeBool(false)
    case Some(n) => EncodeBool(true) + EncodeWord(n)
  }

  function EncodeOptionalBool(value: Option<bool>): Text {
    match value
    case None => EncodeBool(false)
    case Some(b) => EncodeBool(true) + EncodeBool(b)
  }

  function EncodeOptionalAny(value: Option<AnyValue>): Text {
    match value
    case None => EncodeBool(false)
    case Some(v) => EncodeBool(true) + EncodeText(v.text)
  }

  function EncodeTexts(texts: seq<Text>): Text {
    if texts == [] then [] else EncodeText(texts[0]) + EncodeTexts(texts[1..])
  }

  function EncodeTextList(texts: seq<Text>): Text { EncodeWord(|texts|) + EncodeTexts(texts) }

  function AnyTexts(values: seq<AnyValue>): seq<Text> { seq(|values|, i requires 0 <= i < |values| => values[i].text) }

  ghost function Names(s: HashedSchema): seq<Text> { Arranged(multiset(s.properties.Keys)) }

  lemma NamesAreKeys(s: HashedSchema)
    ensures forall name :: name in Names(s) <==> name in s.properties
    ensures |Names(s)| == |s.properties|
  {
    var keys := s.properties.Keys;
    ArrangedKeepsBag(multiset(keys));
    assert forall name :: name in Names(s) <==> name in multiset(Names(s));
    assert |multiset(keys)| == |keys|;
  }

  function EncodeLabels(s: HashedSchema): Text {
    EncodeText(s.typ) + (EncodeText(s.description) + (EncodeTextList(AnyTexts(s.enum)) + EncodeOptionalAny(s.default)))
  }

  function EncodeBounds(s: HashedSchema): Text {
    EncodeOptionalWord(s.minimum) + (EncodeOptionalWord(s.maximum)
    + (EncodeOptionalWord(s.minLength) + (EncodeOptionalWord(s.maxLength)
    + (EncodeOptionalWord(s.minItems) + EncodeOptionalWord(s.maxItems)))))
  }

  ghost function EncodeRules(s: HashedSchema): Text {
    EncodeText(s.pattern) + (EncodeOptionalBool(s.additionalProperties) + EncodeTextList(Arranged(multiset(s.required))))
  }

  ghost function EncodeSchema(s: HashedSchema): Text
    decreases s, 1
  {
    NamesAreKeys(s);
    EncodeBool(true) + (EncodeLabels(s) + (EncodeBounds(s) + (EncodeRules(s)
    + (EncodeWord(|Names(s)|) + (EncodeProperties(s, Names(s)) + EncodeItems(s))))))
  }

  ghost function EncodeItems(s: HashedSchema): Text
    decreases s, 0, 0
  {
    match s.items case None => EncodeBool(false) case Some(item) => EncodeSchema(item)
  }

  ghost function EncodeProperties(s: HashedSchema, names: seq<Text>): Text
    requires forall name :: name in names ==> name in s.properties
    decreases s, 0, |names|
  {
    if names == [] then []
    else EncodeText(names[0]) + (EncodeSchema(s.properties[names[0]]) + EncodeProperties(s, names[1..]))
  }

  const HASH_ALGORITHM: Text := [
    99, 117, 98, 101, 45, 97, 103, 101, 110, 116, 45, 115, 100, 107, 45, 116, 111, 111, 108, 45,
    115, 99, 104, 101, 109, 97, 45, 104, 97, 115, 104, 45, 118, 49] // cube-agent-sdk-tool-schema-hash-v1

  ghost function PreImage(d: Descriptor): Text {
    EncodeText(HASH_ALGORITHM) + (EncodeText(d.name) + (EncodeText(d.description) + (EncodeText(d.risk)
    + EncodeSchema(d.parameters))))
  }

  // ----- decoding

  datatype Parsed<+T> = Malformed | Got(value: T, rest: Text) {
    predicate IsFailure() { Malformed? }
    function PropagateFailure<U>(): Parsed<U> requires Malformed? { Malformed }
    function Extract(): (T, Text) requires Got? { (value, rest) }
  }

  function DecodeWord(bytes: Text): (p: Parsed<int>)
    ensures p.Got? ==> |p.rest| < |bytes|
  {
    if |bytes| < 8 then Malformed else Got(BigEndianValue(bytes[..8]), bytes[8..])
  }

  function DecodeBool(bytes: Text): (p: Parsed<bool>)
    ensures p.Got? ==> |p.rest| < |bytes|
  {
    var (n, rest) :- DecodeWord(bytes);
    if n == 0 then Got(false, rest) else if n == 1 then Got(true, rest) else Malformed
  }

  function DecodeText(bytes: Text): (p: Parsed<Text>)
    ensures p.Got? ==> |p.rest| < |bytes|
  {
    var (n, rest) :- DecodeWord(bytes);
    if 0 <= n <= |rest| then Got(rest[..n], rest[n..]) else Malformed
  }

  function DecodeOptionalUnsigned(bytes: Text): (p: Parsed<Option<uint64>>)
    ensures p.Got? ==> |p.rest| < |bytes|
  {
    var (present, rest) :- DecodeBool(bytes);
    if !present then Got(None, rest) else
    var (n, rest') :- DecodeWord(rest);
    if 0 <= n < TWO_64 then Got(Some(n), rest') else Malformed
  }

  function DecodeOptionalSigned(bytes: Text): (p: Parsed<Option<int>>)
    ensures p.Got? ==> |p.rest| < |bytes|
  {
    var (value, rest) :- DecodeOptionalUnsigned(bytes);
    Got(match value case None => None case Some(n) => Some(if n < TWO_63 then n else n - TWO_64), rest)
  }

  function DecodeOptionalBool(bytes: Text): (p: Parsed<Option<bool>>)
    ensures p.Got? ==> |p.rest| < |bytes|
  {
    var (present, rest) :- DecodeBool(bytes);
    if !present then Got(None, rest) else
    var (b, rest') :- DecodeBool(rest);
    Got(Some(b), rest')
  }

  function DecodeOptionalAny(bytes: Text): (p: Parsed<Option<AnyValue>>)
    ensures p.Got? ==> |p.rest| < |bytes|
  {
    var (present, rest) :- DecodeBool(bytes);
    if !present then Got(None, rest) else
    var (text, rest') :- DecodeText(rest);
    Got(Some(Marshals(text)), rest')
  }

  function DecodeTexts(bytes: Text, count: int): (p: Parsed<seq<Text>>)
    ensures p.Got? ==> |p.rest| <= |bytes|
    decreases |bytes|
  {
    if count <= 0 then Got([], bytes) else
    var (text, rest) :- DecodeText(bytes);
    var (texts, rest') :- DecodeTexts(rest, count - 1);
    Got([text] + texts, rest')
  }

  function DecodeTextList(bytes: Text): (p: Parsed<seq<Text>>)
    ensures p.Got? ==> |p.rest| < |bytes|
  {
    var (count, rest) :- DecodeWord(bytes);
    DecodeTexts(rest, count)
  }

  function AnyValues(texts: seq<Text>): seq<AnyValue> { seq(|texts|, i requires 0 <= i < |texts| => Marshals(texts[i])) }

  const BLANK: HashedSchema := Schema([], [], map[], [], None, [], None, None, None, None, None, None, None, [], None)

  function DecodeLabels(bytes: Text): (p: Parsed<HashedSchema>)
    ensures p.Got? ==> |p.rest| < |bytes|
  {
    var (typ, b1) :- DecodeText(bytes);
    var (description, b2) :- DecodeText(b1);
    var (enum, b3) :- DecodeTextList(b2);
    var (default, b4) :- DecodeOptionalAny(b3);
    Got(BLANK.(typ := typ, description := description, enum := AnyValues(enum), default := default), b4)
  }

  function DecodeBounds(s: HashedSchema, bytes: Text): (p: Parsed<HashedSchema>)
    ensures p.Got? ==> |p.rest| < |bytes|
  {
    var (minimum, b1) :- DecodeOptionalUnsigned(bytes);
    var (maximum, b2) :- DecodeOptionalUnsigned(b1);
    var (minLength, b3) :- DecodeOptionalSigned(b2);
    var (maxLength, b4) :- DecodeOptionalSigned(b3);
    var (minItems, b5) :- DecodeOptionalSigned(b4);
    var (maxItems, b6) :- DecodeOptionalSigned(b5);
    Got(s.(minimum := minimum, maximum := maximum, minLength := minLength, maxLength := maxLength,
           minItems := minItems, maxItems := maxItems), b6)
  }

  function DecodeRules(s: HashedSchema, bytes: Text): (p: Parsed<HashedSchema>)
    ensures p.Got? ==> |p.rest| < |bytes|
  {
    var (pattern, b1) :- DecodeText(bytes);
    var (additional, b2) :- DecodeOptionalBool(b1);
    var (required, b3) :- DecodeTextList(b2);
    Got(s.(pattern := pattern, additionalProperties := additional, required := required), b3)
  }

  function DecodeSchema(bytes: Text): (p: Parsed<Option<HashedSchema>>)
    ensures p.Got? ==> |p.rest| < |bytes|
    decreases |bytes|, 0
  {
    var (present, b0) :- DecodeBool(bytes);
    if !present then Got(None, b0) else
    var (labels, b1) :- DecodeLabels(b0);
    var (bounds, b2) :- DecodeBounds(labels, b1);
    var (rules, b3) :- DecodeRules(bounds, b2);
    var (count, b4) :- DecodeWord(b3);
    var (properties, b5) :- DecodeProperties(b4, count);
    var (items, b6) :- DecodeSchema(b5);
    Got(Some(rules.(properties := properties, items := items)), b6)
  }

  function DecodeProperties(bytes: Text, count: int): (p: Parsed<map<Text, HashedSchema>>)
    ensures p.Got? ==> |p.rest| <= |bytes|
    decreases |bytes|, 1
  {
    if count <= 0 then Got(map[], bytes) else
    var (name, b1) :- DecodeText(bytes);
    var (property, b2) :- DecodeSchema(b1);
    if property.None? then Malformed else
    var (others, b3) :- DecodeProperties(b2, count - 1);
    Got(others[name := property.value], b3)
  }

  // ----- what the hash can see

  predicate IsInt64(value: Option<int>) { value.Some? ==> -TWO_63 <= value.value < TWO_63 }

  /** Go lengths and ints fit in 64 signed bits. */
  ghost predicate InMemory(s: HashedSchema) {
    && |s.typ| < TWO_63 && |s.description| < TWO_63 && |s.pattern| < TWO_63
    && |s.enum| < TWO_63 && (forall v :: v in s.enum ==> |v.text| < TWO_63)
    && (s.default.Some? ==> |s.default.value.text| < TWO_63)
    && IsInt64(s.minLength) && IsInt64(s.maxLength) && IsInt64(s.minItems) && IsInt64(s.maxItems)
    && |s.required| < TWO_63 && (forall name :: name in s.required ==> |name| < TWO_63)
    && |s.properties| < TWO_63
    && (forall name :: name in s.properties ==> |name| < TWO_63 && InMemory(s.properties[name]))
    && (s.items.Some? ==> InMemory(s.items.value))
  }

  ghost function Canonical(s: HashedSchema): HashedSchema {
    s.(enum := AnyValues(AnyTexts(s.enum)),
       default := (match s.default case None => None case Some(v) => Some(Marshals(v.text))),
       required := Arranged(multiset(s.required)),
       properties := (map name | name in s.properties :: Canonical(s.properties[name])),
       items := match s.items case None => None case Some(item) => Some(Canonical(item)))
  }

  // ----- every field is read back, whatever follows it

  lemma WordRoundTrip(n: int, rest: Text)
    ensures DecodeWord(EncodeWord(n) + rest) == Got(n % TWO_64, rest)
  {
    assert Power256(8) == TWO_64 by {
      assert Power256(4) == 0x1_0000_0000;
    }
    BigEndianRoundTrip(n % TWO_64, 8);
    var bytes := EncodeWord(n) + rest;
    assert bytes[..8] == EncodeWord(n) && bytes[8..] == rest;
  }

  lemma SmallWordRoundTrip(n: uint64, rest: Text)
    ensures DecodeWord(EncodeWord(n) + rest) == Got(n, rest)
  {
    WordRoundTrip(n, rest);
  }

  lemma Reassociate(a: Text, b: Text, c: Text)
    ensures (a + b) + c == a + (b + c)
  {
  }

  lemma BoolRoundTrip(b: bool, rest: Text)
    ensures DecodeBool(EncodeBool(b) + rest) == Got(b, rest)
  {
    hide EncodeWord, DecodeWord;
    WordRoundTrip(if b then 1 else 0, rest);
  }

  lemma TextRoundTrip(t: Text, rest: Text)
    requires |t| < TWO_63
    ensures DecodeText(EncodeText(t) + rest) == Got(t, rest)
  {
    hide EncodeWord, DecodeWord;
    assert EncodeText(t) + rest == EncodeWord(|t|) + (t + rest);
    WordRoundTrip(|t|, t + rest);
  }

  lemma OptionalUnsignedRoundTrip(value: Option<uint64>, rest: Text)
    ensures DecodeOptionalUnsigned(EncodeOptionalWord(value) + rest) == Got(value, rest)
  {
    hide EncodeWord, DecodeWord;
    match value
    case None => BoolRoundTrip(false, rest);
    case Some(n) =>
      assert EncodeOptionalWord(value) + rest == EncodeBool(true) + (EncodeWord(n) + rest);
      BoolRoundTrip(true, EncodeWord(n) + rest);
      WordRoundTrip(n, rest);
  }

  lemma OptionalSignedRoundTrip(value: Option<int>, rest: Text)
    requires IsInt64(value)
    ensures DecodeOptionalSigned(EncodeOptionalWord(value) + rest) == Got(value, rest)
  {
    hide EncodeWord, DecodeWord;
    match value
    case None => BoolRoundTrip(false, rest);
    case Some(n) =>
      assert EncodeOptionalWord(value) + rest == EncodeBool(true) + (EncodeWord(n) + rest);
      BoolRoundTrip(true, EncodeWord(n) + rest);
      WordRoundTrip(n, rest);
  }

  lemma OptionalBoolRoundTrip(value: Option<bool>, rest: Text)
    ensures DecodeOptionalBool(EncodeOptionalBool(value) + rest) == Got(value, rest)
  {
    hide EncodeWord, DecodeWord;
    match value
    case None => BoolRoundTrip(false, rest);
    case Some(b) =>
      assert EncodeOptionalBool(value) + rest == EncodeBool(true) + (EncodeBool(b) + rest);
      BoolRoundTrip(true, EncodeBool(b) + rest);
      BoolRoundTrip(b, rest);
  }

  lemma OptionalAnyRoundTrip(value: Option<AnyValue>, rest: Text)
    requires value.Some? ==> |value.value.text| < TWO_63
    ensures DecodeOptionalAny(EncodeOptionalAny(value) + rest)
         == Got(match value case None => None case Some(v) => Some(Marshals(v.text)), rest)
  {
    hide EncodeWord, DecodeWord;
    match value
    case None => BoolRoundTrip(false, rest);
    case Some(v) =>
      assert EncodeOptionalAny(value) + rest == EncodeBool(true) + (EncodeText(v.text) + rest);
      BoolRoundTrip(true, EncodeText(v.text) + rest);
      TextRoundTrip(v.text, rest);
  }

  lemma {:induction false} TextsRoundTrip(texts: seq<Text>, rest: Text)
    requires forall t :: t in texts ==> |t| < TWO_63
    ensures DecodeTexts(EncodeTexts(texts) + rest, |texts|) == Got(texts, rest)
  {
    hide EncodeWord, DecodeWord;
    if texts == [] {
      assert EncodeTexts(texts) + rest == rest;
    } else {
      var tail := EncodeTexts(texts[1..]) + rest;
      assert EncodeTexts(texts) + rest == EncodeText(texts[0]) + tail;
      TextRoundTrip(texts[0], tail);
      TextsRoundTrip(texts[1..], rest);
      assert texts == [texts[0]] + texts[1..];
    }
  }

  lemma TextListRoundTrip(texts: seq<Text>, rest: Text)
    requires |texts| < TWO_63 && forall t :: t in texts ==> |t| < TWO_63
    ensures DecodeTextList(EncodeTextList(texts) + rest) == Got(texts, rest)
  {
    hide EncodeWord, DecodeWord;
    assert EncodeTextList(texts) + rest == EncodeWord(|texts|) + (EncodeTexts(texts) + rest);
    WordRoundTrip(|texts|, EncodeTexts(texts) + rest);
    TextsRoundTrip(texts, rest);
  }

  lemma LabelsFit(s: HashedSchema)
    requires InMemory(s)
    ensures |s.typ| < TWO_63 && |s.description| < TWO_63 && |AnyTexts(s.enum)| < TWO_63
    ensures forall t :: t in AnyTexts(s.enum) ==> |t| < TWO_63
    ensures s.default.Some? ==> |s.default.value.text| < TWO_63
  {
  }

  lemma CanonicalLabels(s: HashedSchema)
    ensures Canonical(s).enum == AnyValues(AnyTexts(s.enum))
    ensures Canonical(s).default == match s.default case None => None case Some(v) => Some(Marshals(v.text))
  {
  }

  lemma LabelsRoundTrip(s: HashedSchema, rest: Text)
    requires InMemory(s)
    ensures DecodeLabels(EncodeLabels(s) + rest)
         == Got(BLANK.(typ := s.typ, description := s.description, enum := Canonical(s).enum, default := Canonical(s).default), rest)
  {
    hide EncodeText, DecodeText, EncodeTextList, DecodeTextList, EncodeOptionalAny, DecodeOptionalAny, Canonical, InMemory;
    LabelsFit(s);
    CanonicalLabels(s);
    var e1, e2, e3, e4 := EncodeText(s.typ), EncodeText(s.description), EncodeTextList(AnyTexts(s.enum)), EncodeOptionalAny(s.default);
    var r3 := e4 + rest;
    var r2 := e3 + r3;
    var r1 := e2 + r2;
    Reassociate(e3, e4, rest);
    Reassociate(e2, e3 + e4, rest);
    Reassociate(e1, e2 + (e3 + e4), rest);
    TextRoundTrip(s.typ, r1);
    TextRoundTrip(s.description, r2);
    TextListRoundTrip(AnyTexts(s.enum), r3);
    OptionalAnyRoundTrip(s.default, rest);
  }

  lemma BoundsRoundTrip(s: HashedSchema, labels: HashedSchema, rest: Text)
    requires IsInt64(s.minLength) && IsInt64(s.maxLength) && IsInt64(s.minItems) && IsInt64(s.maxItems)
    ensures DecodeBounds(labels, EncodeBounds(s) + rest)
         == Got(labels.(minimum := s.minimum, maximum := s.maximum, minLength := s.minLength, maxLength := s.maxLength,
                        minItems := s.minItems, maxItems := s.maxItems), rest)
  {
    hide EncodeOptionalWord, DecodeOptionalUnsigned, DecodeOptionalSigned;
    var e1, e2, e3 := EncodeOptionalWord(s.minimum), EncodeOptionalWord(s.maximum), EncodeOptionalWord(s.minLength);
    var e4, e5, e6 := EncodeOptionalWord(s.maxLength), EncodeOptionalWord(s.minItems), EncodeOptionalWord(s.maxItems);
    Reassociate(e5, e6, rest);
    Reassociate(e4, e5 + e6, rest);
    Reassociate(e3, e4 + (e5 + e6), rest);
    Reassociate(e2, e3 + (e4 + (e5 + e6)), rest);
    Reassociate(e1, e2 + (e3 + (e4 + (e5 + e6))), rest);
    OptionalUnsignedRoundTrip(s.minimum, e2 + (e3 + (e4 + (e5 + (e6 + rest)))));
    OptionalUnsignedRoundTrip(s.maximum, e3 + (e4 + (e5 + (e6 + rest))));
    OptionalSignedRoundTrip(s.minLength, e4 + (e5 + (e6 + rest)));
    OptionalSignedRoundTrip(s.maxLength, e5 + (e6 + rest));
    OptionalSignedRoundTrip(s.minItems, e6 + rest);
    OptionalSignedRoundTrip(s.maxItems, rest);
  }

  lemma RulesFit(s: HashedSchema)
    requires InMemory(s)
    ensures |s.pattern| < TWO_63 && |Arranged(multiset(s.required))| < TWO_63
    ensures forall t :: t in Arranged(multiset(s.required)) ==> |t| < TWO_63
    ensures Canonical(s).required == Arranged(multiset(s.required))
  {
    var required := Arranged(multiset(s.required));
    ArrangedKeepsBag(multiset(s.required));
    assert |multiset(required)| == |multiset(s.required)|;
    assert forall name :: name in required <==> name in multiset(required);
  }

  lemma RulesRoundTrip(s: HashedSchema, bounds: HashedSchema, rest: Text)
    requires InMemory(s)
    ensures DecodeRules(bounds, EncodeRules(s) + rest)
         == Got(bounds.(pattern := s.pattern, additionalProperties := s.additionalProperties,
                        required := Canonical(s).required), rest)
  {
    hide EncodeText, DecodeText, EncodeTextList, DecodeTextList, EncodeOptionalBool, DecodeOptionalBool, Canonical, InMemory;
    var required := Arranged(multiset(s.required));
    RulesFit(s);
    var e1, e2, e3 := EncodeText(s.pattern), EncodeOptionalBool(s.additionalProperties), EncodeTextList(required);
    var r2 := e3 + rest;
    var r1 := e2 + r2;
    Reassociate(e2, e3, rest);
    Reassociate(e1, e2 + e3, rest);
    TextRoundTrip(s.pattern, r1);
    OptionalBoolRoundTrip(s.additionalProperties, r2);
    TextListRoundTrip(required, rest);
  }

  ghost function CanonicalOf(s: HashedSchema, names: seq<Text>): map<Text, HashedSchema>
    requires forall name :: name in names ==> name in s.properties
  {
    map name | name in names :: Canonical(s.properties[name])
  }

  lemma InMemoryParts(s: HashedSchema)
    requires InMemory(s)
    ensures |s.properties| < TWO_63
    ensures forall name :: name in s.properties ==> |name| < TWO_63 && InMemory(s.properties[name])
    ensures s.items.Some? ==> InMemory(s.items.value)
    ensures IsInt64(s.minLength) && IsInt64(s.maxLength) && IsInt64(s.minItems) && IsInt64(s.maxItems)
  {
  }

  lemma SchemaSplits(s: HashedSchema, rest: Text)
    ensures EncodeSchema(s) + rest
         == EncodeBool(true) + (EncodeLabels(s) + (EncodeBounds(s) + (EncodeRules(s)
            + (NamesAreKeys(s); EncodeWord(|Names(s)|) + (EncodeProperties(s, Names(s)) + (EncodeItems(s) + rest))))))
  {
    hide EncodeWord, EncodeBool, EncodeLabels, EncodeBounds, EncodeRules, EncodeProperties, Names;
    NamesAreKeys(s);
    var e1, e2, e3, e4 := EncodeBool(true), EncodeLabels(s), EncodeBounds(s), EncodeRules(s);
    var e5, e6, e7 := EncodeWord(|Names(s)|), EncodeProperties(s, Names(s)), EncodeItems(s);
    Reassociate(e6, e7, rest);
    Reassociate(e5, e6 + e7, rest);
    Reassociate(e4, e5 + (e6 + e7), rest);
    Reassociate(e3, e4 + (e5 + (e6 + e7)), rest);
    Reassociate(e2, e3 + (e4 + (e5 + (e6 + e7))), rest);
    Reassociate(e1, e2 + (e3 + (e4 + (e5 + (e6 + e7)))), rest);
  }

  lemma WritesInOrder(o: Text, e1: Text, e2: Text, e3: Text, e4: Text, e5: Text, e6: Text, e7: Text)
    ensures ((((((o + e1) + e2) + e3) + e4) + e5) + e6) + e7 == o + (e1 + (e2 + (e3 + (e4 + (e5 + (e6 + e7))))))
  {
    Reassociate(o, e1, e2 + (e3 + (e4 + (e5 + (e6 + e7)))));
    Reassociate(o + e1, e2, e3 + (e4 + (e5 + (e6 + e7))));
    Reassociate((o + e1) + e2, e3, e4 + (e5 + (e6 + e7)));
    Reassociate(((o + e1) + e2) + e3, e4, e5 + (e6 + e7));
    Reassociate((((o + e1) + e2) + e3) + e4, e5, e6 + e7);
    Reassociate(((((o + e1) + e2) + e3) + e4) + e5, e6, e7);
  }

  /** The decoder undoes the encoding of any schema, whatever bytes follow. */
  lemma {:induction false} SchemaRoundTrip(s: HashedSchema, rest: Text)
    requires InMemory(s)
    ensures DecodeSchema(EncodeSchema(s) + rest) == Got(Some(Canonical(s)), rest)
    decreases s, 1
  {
    hide EncodeWord, DecodeWord, EncodeBool, DecodeBool, EncodeLabels, DecodeLabels, EncodeBounds, DecodeBounds,
      EncodeRules, DecodeRules, EncodeProperties, DecodeProperties, EncodeSchema, InMemory, Names;
    NamesAreKeys(s);
    SchemaSplits(s, rest);
    InMemoryParts(s);
    var r5 := EncodeItems(s) + rest;
    var r4 := EncodeProperties(s, Names(s)) + r5;
    var r3 := EncodeWord(|Names(s)|) + r4;
    var r2 := EncodeRules(s) + r3;
    var r1 := EncodeBounds(s) + r2;
    BoolRoundTrip(true, EncodeLabels(s) + r1);
    LabelsRoundTrip(s, r1);
    var labels := DecodeLabels(EncodeLabels(s) + r1).value;
    BoundsRoundTrip(s, labels, r2);
    var bounds := DecodeBounds(labels, r1).value;
    RulesRoundTrip(s, bounds, r3);
    SmallWordRoundTrip(|Names(s)|, r4);
    PropertiesRoundTrip(s, Names(s), r5);
    assert CanonicalOf(s, Names(s)) == Canonical(s).properties;
    match s.items
    case None => BoolRoundTrip(false, rest);
    case Some(item) => SchemaRoundTrip(item, rest);
  }

  lemma {:induction false} PropertiesRoundTrip(s: HashedSchema, names: seq<Text>, rest: Text)
    requires InMemory(s) && forall name :: name in names ==> name in s.properties
    ensures DecodeProperties(EncodeProperties(s, names) + rest, |names|) == Got(CanonicalOf(s, names), rest)
    decreases s, 0, |names|
  {
    hide EncodeText, DecodeText, EncodeSchema, DecodeSchema, Canonical, InMemory;
    if names == [] {
      assert EncodeProperties(s, names) + rest == rest;
    } else {
      InMemoryParts(s);
      var name, property := names[0], s.properties[names[0]];
      var r2 := EncodeProperties(s, names[1..]) + rest;
      Reassociate(EncodeSchema(property), EncodeProperties(s, names[1..]), rest);
      Reassociate(EncodeText(name), EncodeSchema(property) + EncodeProperties(s, names[1..]), rest);
      TextRoundTrip(name, EncodeSchema(property) + r2);
      SchemaRoundTrip(property, r2);
      PropertiesRoundTrip(s, names[1..], rest);
      assert CanonicalOf(s, names) == CanonicalOf(s, names[1..])[name := Canonical(property)];
    }
  }

  // ----- exactly which descriptors collide before SHA-256

  /** The fields without nested schemas and required names agree; `any` values compare by
      their JSON text. */
  predicate SameFlat(a: HashedSchema, b: HashedSchema) {
    && a.typ == b.typ && a.description == b.description && a.pattern == b.pattern
    && |a.enum| == |b.enum| && (forall i :: 0 <= i < |a.enum| ==> a.enum[i].text == b.enum[i].text)
    && a.default.Some? == b.default.Some?
    && (a.default.Some? ==> a.default.value.text == b.default.value.text)
    && a.minimum == b.minimum && a.maximum == b.maximum
    && a.minLength == b.minLength && a.maxLength == b.maxLength
    && a.minItems == b.minItems && a.maxItems == b.maxItems
    && a.additionalProperties == b.additionalProperties
  }

  /** Equal up to the order of Required. */
  ghost predicate SameSchema(a: HashedSchema, b: HashedSchema) {
    && SameFlat(a, b)
    && multiset(a.required) == multiset(b.required)
    && a.properties.Keys == b.properties.Keys
    && (forall name :: name in a.properties ==> SameSchema(a.properties[name], b.properties[name]))
    && a.items.Some? == b.items.Some?
    && (a.items.Some? ==> SameSchema(a.items.value, b.items.value))
  }

  lemma {:induction false} CanonicalIsSame(a: HashedSchema, b: HashedSchema)
    requires Canonical(a) == Canonical(b)
    ensures SameSchema(a, b)
    decreases a
  {
    var ca, cb := Canonical(a), Canonical(b);
    assert |ca.enum| == |a.enum| && |cb.enum| == |b.enum|;
    forall i | 0 <= i < |a.enum| ensures a.enum[i].text == b.enum[i].text {
      assert ca.enum[i].text == a.enum[i].text && cb.enum[i].text == b.enum[i].text;
    }
    ArrangedKeepsBag(multiset(a.required));
    ArrangedKeepsBag(multiset(b.required));
    assert a.properties.Keys == ca.properties.Keys && b.properties.Keys == cb.properties.Keys;
    forall name | name in a.properties ensures SameSchema(a.properties[name], b.properties[name]) {
      assert ca.properties[name] == cb.properties[name];
      CanonicalIsSame(a.properties[name], b.properties[name]);
    }
    if a.items.Some? {
      CanonicalIsSame(a.items.value, b.items.value);
    }
  }

  lemma {:induction false} SameEncodesAlike(a: HashedSchema, b: HashedSchema)
    requires SameSchema(a, b)
    ensures EncodeSchema(a) == EncodeSchema(b)
    decreases a, 1
  {
    hide EncodeWord, EncodeText, EncodeTextList, EncodeOptionalWord, EncodeOptionalBool, EncodeProperties;
    NamesAreKeys(a);
    assert AnyTexts(a.enum) == AnyTexts(b.enum);
    SamePropertiesEncodeAlike(a, b, Names(a));
    if a.items.Some? {
      SameEncodesAlike(a.items.value, b.items.value);
    }
  }

  lemma {:induction false} SamePropertiesEncodeAlike(a: HashedSchema, b: HashedSchema, names: seq<Text>)
    requires SameSchema(a, b) && forall name :: name in names ==> name in a.properties
    ensures EncodeProperties(a, names) == EncodeProperties(b, names)
    decreases a, 0, |names|
  {
    hide EncodeSchema, EncodeText;
    if names != [] {
      assert names[0] in a.properties;
      SameEncodesAlike(a.properties[names[0]], b.properties[names[0]]);
      SamePropertiesEncodeAlike(a, b, names[1..]);
    }
  }

  /** Two descriptors hash the same bytes exactly when they are equal up to the
      order of Required; no two different schemas of any depth share a pre-image. */
  lemma PreImageIdentifiesDescriptor(d: Descriptor, e: Descriptor)
    requires |d.name| < TWO_63 && |d.description| < TWO_63 && |d.risk| < TWO_63 && InMemory(d.parameters)
    requires |e.name| < TWO_63 && |e.description| < TWO_63 && |e.risk| < TWO_63 && InMemory(e.parameters)
    ensures PreImage(d) == PreImage(e)
        <==> d.name == e.name && d.description == e.description && d.risk == e.risk && SameSchema(d.parameters, e.parameters)
  {
    hide EncodeText, DecodeText, EncodeSchema, DecodeSchema, Canonical, SameSchema, InMemory;
    PreImageReadsBack(d);
    PreImageReadsBack(e);
    if PreImage(d) == PreImage(e) {
      CanonicalIsSame(d.parameters, e.parameters);
    }
    if SameSchema(d.parameters, e.parameters) {
      SameEncodesAlike(d.parameters, e.parameters);
    }
  }

  function DecodePreImage(bytes: Text): Parsed<(Text, Text, Text, Text, Option<HashedSchema>)> {
    var (algorithm, b1) :- DecodeText(bytes);
    var (name, b2) :- DecodeText(b1);
    var (description, b3) :- DecodeText(b2);
    var (risk, b4) :- DecodeText(b3);
    var (parameters, b5) :- DecodeSchema(b4);
    Got((algorithm, name, description, risk, parameters), b5)
  }

  lemma PreImageReadsBack(d: Descriptor)
    requires |d.name| < TWO_63 && |d.description| < TWO_63 && |d.risk| < TWO_63 && InMemory(d.parameters)
    ensures DecodePreImage(PreImage(d))
         == Got((HASH_ALGORITHM, d.name, d.description, d.risk, Some(Canonical(d.parameters))), [])
  {
    hide EncodeText, DecodeText, EncodeSchema, DecodeSchema, Canonical, InMemory, HASH_ALGORITHM;
    var r3 := EncodeSchema(d.parameters);
    var r2 := EncodeText(d.risk) + r3;
    var r1 := EncodeText(d.description) + r2;
    AlgorithmIsShort();
    TextRoundTrip(HASH_ALGORITHM, EncodeText(d.name) + r1);
    TextRoundTrip(d.name, r1);
    TextRoundTrip(d.description, r2);
    TextRoundTrip(d.risk, r3);
    SchemaRoundTrip(d.parameters, []);
    assert r3 + [] == r3;
  }

  // ----- values that JSON can write are themselves what the hash sees

  /** No `any` value of the schema, at any depth, fails to marshal. */
  ghost predicate AllMarshal(s: HashedSchema) {
    && (forall v :: v in s.enum ==> v.Marshals?)
    && (s.default.Some? ==> s.default.value.Marshals?)
    && (forall name :: name in s.properties ==> AllMarshal(s.properties[name]))
    && (s.items.Some? ==> AllMarshal(s.items.value))
  }

  predicate EqualFlat(a: HashedSchema, b: HashedSchema) {
    && a.typ == b.typ && a.description == b.description && a.pattern == b.pattern
    && a.enum == b.enum && a.default == b.default
    && a.minimum == b.minimum && a.maximum == b.maximum
    && a.minLength == b.minLength && a.maxLength == b.maxLength
    && a.minItems == b.minItems && a.maxItems == b.maxItems
    && a.additionalProperties == b.additionalProperties
  }

  lemma SameFields(a: HashedSchema, b: HashedSchema)
    requires AllMarshal(a) && AllMarshal(b)
    ensures SameFlat(a, b) <==> EqualFlat(a, b)
  {
    if SameFlat(a, b) {
      forall i | 0 <= i < |a.enum| ensures a.enum[i] == b.enum[i] {
        assert a.enum[i] in a.enum && b.enum[i] in b.enum;
      }
    }
  }

  /** Equal field by field, but for the order of Required at any depth. */
  ghost predicate EqualButRequired(a: HashedSchema, b: HashedSchema) {
    && EqualFlat(a, b)
    && multiset(a.required) == multiset(b.required)
    && a.properties.Keys == b.properties.Keys
    && (forall name :: name in a.properties ==> EqualButRequired(a.properties[name], b.properties[name]))
    && a.items.Some? == b.items.Some?
    && (a.items.Some? ==> EqualButRequired(a.items.value, b.items.value))
  }

  lemma {:induction false} SameIsEqualButRequired(a: HashedSchema, b: HashedSchema)
    requires AllMarshal(a) && AllMarshal(b)
    ensures SameSchema(a, b) <==> EqualButRequired(a, b)
    decreases a
  {
    SameFields(a, b);
    hide SameFlat, EqualFlat;
    if a.properties.Keys == b.properties.Keys {
      forall name | name in a.properties
        ensures SameSchema(a.properties[name], b.properties[name]) <==> EqualButRequired(a.properties[name], b.properties[name])
      {
        assert name in b.properties;
        SameIsEqualButRequired(a.properties[name], b.properties[name]);
      }
    }
    if a.items.Some? && b.items.Some? {
      SameIsEqualButRequired(a.items.value, b.items.value);
    }
  }

  /** When every `any` value marshals, descriptors with one pre-image are one descriptor,
      its enum and default values included, but for the order of Required. */
  lemma {:induction false} PreImageIdentifiesValues(d: Descriptor, e: Descriptor)
    requires |d.name| < TWO_63 && |d.description| < TWO_63 && |d.risk| < TWO_63 && InMemory(d.parameters)
    requires |e.name| < TWO_63 && |e.description| < TWO_63 && |e.risk| < TWO_63 && InMemory(e.parameters)
    requires AllMarshal(d.parameters) && AllMarshal(e.parameters)
    ensures PreImage(d) == PreImage(e)
        <==> d.name == e.name && d.description == e.description && d.risk == e.risk && EqualButRequired(d.parameters, e.parameters)
    ensures PreImage(d) == PreImage(e)
        ==> d.parameters.enum == e.parameters.enum && d.parameters.default == e.parameters.default
  {
    hide PreImage, InMemory, AllMarshal, SameSchema;
    PreImageIdentifiesDescriptor(d, e);
    SameIsEqualButRequired(d.parameters, e.parameters);
  }

  lemma {:induction false} CanonicalKeepsValues(s: HashedSchema)
    requires AllMarshal(s)
    ensures EqualButRequired(Canonical(s), s)
    decreases s
  {
    var c := Canonical(s);
    ArrangedKeepsBag(multiset(s.required));
    assert |c.enum| == |s.enum|;
    forall i | 0 <= i < |s.enum| ensures c.enum[i] == s.enum[i] {
      assert s.enum[i] in s.enum;
    }
    assert c.enum == s.enum;
    assert c.properties.Keys == s.properties.Keys;
    forall name | name in s.properties ensures EqualButRequired(c.properties[name], s.properties[name]) {
      CanonicalKeepsValues(s.properties[name]);
    }
    if s.items.Some? {
      CanonicalKeepsValues(s.items.value);
    }
  }

  /** Every enum and default value that JSON can write is read back as it was, at any depth. */
  lemma {:induction false} ValuesReadBack(d: Descriptor)
    requires |d.name| < TWO_63 && |d.description| < TWO_63 && |d.risk| < TWO_63 && InMemory(d.parameters)
    requires AllMarshal(d.parameters)
    ensures DecodePreImage(PreImage(d)).Got? && DecodePreImage(PreImage(d)).value.4.Some?
    ensures var read := DecodePreImage(PreImage(d)).value.4.value;
      && read.enum == d.parameters.enum && read.default == d.parameters.default
      && EqualButRequired(read, d.parameters)
  {
    hide PreImage, InMemory, AllMarshal, Canonical, DecodePreImage;
    PreImageReadsBack(d);
    CanonicalKeepsValues(d.parameters);
  }

  lemma AlgorithmIsShort()
    ensures |HASH_ALGORITHM| < TWO_63
  {
  }

  // ----- the writers

  /** The running hash, as the bytes written into it so far. */
  class Hasher {
    var written: Text

    constructor ()
      ensures written == []
    {
      written := [];
    }

    method WriteUint64(n: int)
      modifies this
      ensures written == old(written) + EncodeWord(n)
    {
      written := written + BigEndian(n % TWO_64, 8);
    }

    method WriteBool(b: bool)
      modifies this
      ensures written == old(written) + EncodeBool(b)
    {
      if b {
        WriteUint64(1);
      } else {
        WriteUint64(0);
      }
    }

    method WriteText(t: Text)
      modifies this
      ensures written == old(written) + EncodeText(t)
    {
      hide EncodeWord;
      WriteUint64(|t|);
      written := written + t;
    }

    method WriteOptionalWord(value: Option<int>)
      modifies this
      ensures written == old(written) + EncodeOptionalWord(value)
    {
      hide EncodeWord;
      WriteBool(value.Some?);
      if value.Some? {
        WriteUint64(value.value);
      }
    }

    method WriteOptionalBool(value: Option<bool>)
      modifies this
      ensures written == old(written) + EncodeOptionalBool(value)
    {
      hide EncodeWord;
      WriteBool(value.Some?);
      if value.Some? {
        WriteBool(value.value);
      }
    }

    method WriteAny(value: AnyValue)
      modifies this
      ensures written == old(written) + EncodeText(value.text)
    {
      match value
      case Unmarshalable(message) => WriteText(message);
      case Marshals(json) => WriteText(json);
    }

    method WriteTextList(texts: seq<Text>)
      modifies this
      ensures written == old(written) + EncodeTextList(texts)
    {
      hide EncodeWord, EncodeText;
      WriteUint64(|texts|);
      var i := 0;
      while i < |texts|
        invariant i <= |texts|
        invariant written + EncodeTexts(texts[i..]) == old(written) + EncodeTextList(texts)
      {
        WriteText(texts[i]);
        i := i + 1;
      }
    }

    method WriteEnum(values: seq<AnyValue>)
      modifies this
      ensures written == old(written) + EncodeTextList(AnyTexts(values))
    {
      hide EncodeWord, EncodeText;
      ghost var texts := AnyTexts(values);
      WriteUint64(|values|);
      var i := 0;
      while i < |values|
        invariant i <= |values|
        invariant written + EncodeTexts(texts[i..]) == old(written) + EncodeTextList(texts)
      {
        WriteAny(values[i]);
        i := i + 1;
      }
    }

    method WriteLabels(s: HashedSchema)
      modifies this
      ensures written == old(written) + EncodeLabels(s)
    {
      hide EncodeWord, EncodeText, EncodeTextList;
      WriteText(s.typ);
      WriteText(s.description);
      WriteEnum(s.enum);
      WriteBool(s.default.Some?);
      if s.default.Some? {
        WriteAny(s.default.value);
      }
    }

    method WriteBounds(s: HashedSchema)
      modifies this
      ensures written == old(written) + EncodeBounds(s)
    {
      hide EncodeOptionalWord;
      WriteOptionalWord(s.minimum);
      WriteOptionalWord(s.maximum);
      WriteOptionalWord(s.minLength);
      WriteOptionalWord(s.maxLength);
      WriteOptionalWord(s.minItems);
      WriteOptionalWord(s.maxItems);
    }

    method WriteRules(s: HashedSchema)
      modifies this
      ensures written == old(written) + EncodeRules(s)
    {
      hide EncodeText, EncodeTextList, EncodeOptionalBool, Arranged;
      ghost var before := written;
      WriteText(s.pattern);
      WriteOptionalBool(s.additionalProperties);
      var required := SortedRequired(s);
      WriteTextList(required);
      ghost var e1, e2, e3 := EncodeText(s.pattern), EncodeOptionalBool(s.additionalProperties), EncodeTextList(required);
      Reassociate(before + e1, e2, e3);
      Reassociate(before, e1, e2 + e3);
    }

    method SortedRequired(s: HashedSchema) returns (sorted: seq<Text>)
      ensures sorted == Arranged(multiset(s.required))
    {
      var required := new Text[|s.required|](i requires 0 <= i < |s.required| => s.required[i]);
      assert required[..] == s.required;
      SortStrings(required);
      sorted := required[..];
    }

    /** Collects the property names in whatever order the map yields them, then sorts. */
    method SortedNames(s: HashedSchema) returns (sorted: seq<Text>)
      ensures sorted == Names(s)
    {
      var collected: seq<Text>, keys := [], s.properties.Keys;
      while keys != {}
        invariant keys <= s.properties.Keys
        invariant multiset(collected) + multiset(keys) == multiset(s.properties.Keys)
        decreases |keys|
      {
        var name :| name in keys;
        assert multiset(keys) == multiset(keys - {name}) + multiset{name};
        collected, keys := collected + [name], keys - {name};
      }
      assert multiset(keys) == multiset{};
      assert multiset(collected) == multiset(s.properties.Keys);
      var names := new Text[|collected|](i requires 0 <= i < |collected| => collected[i]);
      assert names[..] == collected;
      SortStrings(names);
      sorted := names[..];
    }

    method WriteSchema(s: HashedSchema)
      modifies this
      ensures written == old(written) + EncodeSchema(s)
      decreases s, 1
    {
      hide EncodeWord, EncodeBool, EncodeLabels, EncodeBounds, EncodeRules, EncodeProperties;
      WriteBool(true);
      WriteLabels(s);
      WriteBounds(s);
      WriteRules(s);
      var names := SortedNames(s);
      WriteUint64(|names|);
      NamesAreKeys(s);
      WriteProperties(s, names);
      if s.items.Some? {
        WriteSchema(s.items.value);
      } else {
        WriteBool(false);
      }
      WritesInOrder(old(written), EncodeBool(true), EncodeLabels(s), EncodeBounds(s), EncodeRules(s),
        EncodeWord(|names|), EncodeProperties(s, names), EncodeItems(s));
    }

    method WriteProperties(s: HashedSchema, names: seq<Text>)
      requires forall name :: name in names ==> name in s.properties
      modifies this
      ensures written == old(written) + EncodeProperties(s, names)
      decreases s, 0
    {
      hide EncodeText, EncodeSchema;
      var i := 0;
      while i < |names|
        invariant i <= |names|
        invariant written + EncodeProperties(s, names[i..]) == old(written) + EncodeProperties(s, names)
      {
        WriteText(names[i]);
        WriteSchema(s.properties[names[i]]);
        i := i + 1;
      }
    }
  }

  /** toolDescriptorSchemaHash up to SHA-256. */
  method HashPreImage(d: Descriptor) returns (bytes: Text)
    ensures bytes == PreImage(d)
  {
    hide EncodeText, EncodeSchema, HASH_ALGORITHM;
    var hasher := new Hasher();
    hasher.WriteText(HASH_ALGORITHM);
    hasher.WriteText(d.name);
    hasher.WriteText(d.description);
    hasher.WriteText(d.risk);
    hasher.WriteSchema(d.parameters);
    bytes := hasher.written;
  }
}
