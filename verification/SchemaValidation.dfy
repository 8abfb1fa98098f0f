/** Validating tool arguments against a parameter schema, and the schema's journey to
    JSON Schema and back through an MCP server. */
module SchemaValidation {
  import opened Prelude
  import opened Core
  import opened Decimal
  import ToolSchema

  type Schema = ToolSchema.Schema<string, real, Json>

  /** regexp.MatchString: pattern and text to a verdict, none for an invalid pattern. */
  type Matcher = (string, string) -> Option<bool>

  const KNOWN_TYPES := ["string", "number", "integer", "boolean", "object", "array"]

  /** The schema's type, or the one its structure implies; "" accepts everything. */
  function TypeOf(s: Schema): string {
    if s.typ != "" then s.typ
    else if s.properties != map[] || s.required != [] then "object"
    else if s.items.Some? then "array"
    else ""
  }

  // ----- what a schema means

  predicate Present(fields: map<string, Json>, name: string) { name in fields && fields[name] != Null }

  predicate AtLeast(n: int, low: Option<int>) { low.Some? ==> low.value <= n }

  predicate AtMost(n: int, high: Option<int>) { high.Some? ==> n <= high.value }

  predicate InRange(x: real, s: Schema) {
    (s.minimum.Some? ==> s.minimum.value <= x) && (s.maximum.Some? ==> x <= s.maximum.value)
  }

  predicate IsWhole(x: real) { x.Floor as real == x }

  predicate Listed(v: Json, s: Schema) { s.enum == [] || v in s.enum }

  predicate Matches(text: string, s: Schema, m: Matcher) { s.pattern == "" || m(s.pattern, text) == Some(true) }

  ghost predicate Satisfies(v: Json, s: Schema, m: Matcher)
    decreases s
  {
    var t := TypeOf(s);
    t == "" || (
      && t in KNOWN_TYPES
      && Listed(v, s)
      && (t == "object" ==>
        && v.Object?
        && (forall name :: name in s.required ==> Present(v.fields, name))
        && (forall name :: name in s.properties && Present(v.fields, name) ==> Satisfies(v.fields[name], s.properties[name], m))
        && (s.additionalProperties == Some(false) ==> v.fields.Keys <= s.properties.Keys))
      && (t == "array" ==>
        && v.List?
        && AtLeast(|v.items|, s.minItems) && AtMost(|v.items|, s.maxItems)
        && (s.items.Some? ==> forall k :: 0 <= k < |v.items| ==> Satisfies(v.items[k], s.items.value, m)))
      && (t == "string" ==>
        v.String? && AtLeast(|v.text|, s.minLength) && AtMost(|v.text|, s.maxLength) && Matches(v.text, s, m))
      && (t == "number" ==> v.Number? && InRange(v.value, s))
      && (t == "integer" ==> v.Number? && IsWhole(v.value) && InRange(v.value, s))
      && (t == "boolean" ==> v.Bool?))
  }

  // ----- what a reported problem means

  datatype Kind = ExpectedObject | MissingRequired | Unexpected | ExpectedArray | TooFewItems | TooManyItems
    | ExpectedString | TooShort | TooLong | InvalidPattern | NoMatch | ExpectedNumber | ExpectedInteger
    | BelowMinimum | AboveMaximum | ExpectedBoolean | UnsupportedType | NotInEnum

  datatype Problem = Problem(parameter: string, kind: Kind)

  function Shown(parameter: string): string { if parameter == "" then "$" else parameter }

  function Child(parent: string, child: string): string {
    if parent == "" || parent == "$" then child
    else if child != "" && child[0] == '[' then parent + child
    else parent + "." + child
  }

  function ItemName(k: nat): string { "[" + Render(k) + "]" }

  /** The value itself breaks the rule that the kind names. */
  predicate Violates(v: Json, s: Schema, kind: Kind, m: Matcher) {
    var t := TypeOf(s);
    match kind
    case ExpectedObject => t == "object" && !v.Object?
    case ExpectedArray => t == "array" && !v.List?
    case TooFewItems => t == "array" && v.List? && s.minItems.Some? && |v.items| < s.minItems.value
    case TooManyItems => t == "array" && v.List? && s.maxItems.Some? && |v.items| > s.maxItems.value
    case ExpectedString => t == "string" && !v.String?
    case TooShort => t == "string" && v.String? && s.minLength.Some? && |v.text| < s.minLength.value
    case TooLong => t == "string" && v.String? && s.maxLength.Some? && |v.text| > s.maxLength.value
    case InvalidPattern => t == "string" && v.String? && s.pattern != "" && m(s.pattern, v.text) == None
    case NoMatch => t == "string" && v.String? && s.pattern != "" && m(s.pattern, v.text) == Some(false)
    case ExpectedNumber => t == "number" && !v.Number?
    case ExpectedInteger => t == "integer" && (v.Number? ==> v.value.Floor as real != v.value)
    case BelowMinimum => t in ["number", "integer"] && v.Number? && s.minimum.Some? && v.value < s.minimum.value
    case AboveMaximum => t in ["number", "integer"] && v.Number? && s.maximum.Some? && s.maximum.value < v.value
    case ExpectedBoolean => t == "boolean" && !v.Bool?
    case UnsupportedType => t !in ["", "string", "number", "integer", "boolean", "object", "array"]
    case NotInEnum => t != "" && s.enum != [] && v !in s.enum
    case _ => false
  }

  /** A missing or unexpected entry of an object. */
  predicate ViolatesAt(v: Json, s: Schema, kind: Kind, name: string) {
    && TypeOf(s) == "object" && v.Object?
    && (if kind == MissingRequired then name in s.required && !Present(v.fields, name)
        else kind == Unexpected && s.additionalProperties == Some(false) && name in v.fields && name !in s.properties)
  }

  /** The problem is real: following its parameter into the value and the schema leads to
      a rule of the schema that the value there breaks. */
  ghost predicate Explains(p: Problem, parameter: string, v: Json, s: Schema, m: Matcher)
    decreases s
  {
    || (p.parameter == Shown(parameter) && Violates(v, s, p.kind, m))
    || (exists name :: ViolatesAt(v, s, p.kind, name) && p.parameter == Shown(Child(parameter, name)))
    || (TypeOf(s) == "object" && v.Object? && exists name ::
        name in s.properties && Present(v.fields, name) && Explains(p, Child(parameter, name), v.fields[name], s.properties[name], m))
    || (TypeOf(s) == "array" && v.List? && s.items.Some? && exists k ::
        0 <= k < |v.items| && Explains(p, Child(parameter, ItemName(k)), v.items[k], s.items.value, m))
  }

  lemma {:induction false} ExplainedIsRejected(p: Problem, parameter: string, v: Json, s: Schema, m: Matcher)
    requires Explains(p, parameter, v, s, m)
    ensures !Satisfies(v, s, m)
    decreases s
  {
    if p.parameter == Shown(parameter) && Violates(v, s, p.kind, m) {
    } else if name :| ViolatesAt(v, s, p.kind, name) && p.parameter == Shown(Child(parameter, name)) {
    } else if TypeOf(s) == "object" {
      var name :| name in s.properties && Present(v.fields, name)
        && Explains(p, Child(parameter, name), v.fields[name], s.properties[name], m);
      ExplainedIsRejected(p, Child(parameter, name), v.fields[name], s.properties[name], m);
    } else {
      var k :| 0 <= k < |v.items| && Explains(p, Child(parameter, ItemName(k)), v.items[k], s.items.value, m);
      ExplainedIsRejected(p, Child(parameter, ItemName(k)), v.items[k], s.items.value, m);
    }
  }

  // ----- the validator

  method EnumContains(typ: string, enum: seq<Json>, v: Json) returns (found: bool)
    ensures found <==> v in enum && (typ in ["number", "integer"] ==> v.Number?)
  {
    for k := 0 to |enum|
      invariant v in enum[..k] ==> typ in ["number", "integer"] && !v.Number?
    {
      var candidate := enum[k];
      if typ == "number" || typ == "integer" {
        if candidate.Number? && v.Number? && candidate.value == v.value {
          return true;
        }
        continue;
      }
      if candidate == v {
        return true;
      }
    }
    assert enum[..|enum|] == enum;
    return false;
  }

  method ValidateEnum(parameter: string, v: Json, s: Schema, m: Matcher) returns (r: Option<Problem>)
    requires TypeOf(s) != "" && (TypeOf(s) in ["number", "integer"] ==> v.Number?)
    ensures r.None? ==> Listed(v, s)
    ensures r.Some? ==> Explains(r.value, parameter, v, s, m)
  {
    if s.enum == [] {
      return None;
    }
    var found := EnumContains(s.typ, s.enum, v);
    if found {
      return None;
    }
    assert Violates(v, s, NotInEnum, m);
    r := Some(Problem(Shown(parameter), NotInEnum));
  }

  method ValidateBounds(parameter: string, v: Json, s: Schema, m: Matcher) returns (r: Option<Problem>)
    requires TypeOf(s) in ["number", "integer"] && v.Number?
    ensures r.None? ==> InRange(v.value, s)
    ensures r.Some? ==> Explains(r.value, parameter, v, s, m)
  {
    if s.minimum.Some? && v.value < s.minimum.value {
      assert Violates(v, s, BelowMinimum, m);
      return Some(Problem(Shown(parameter), BelowMinimum));
    }
    if s.maximum.Some? && v.value > s.maximum.value {
      assert Violates(v, s, AboveMaximum, m);
      return Some(Problem(Shown(parameter), AboveMaximum));
    }
    r := None;
  }

  method ValidateString(parameter: string, v: Json, s: Schema, m: Matcher) returns (r: Option<Problem>)
    requires TypeOf(s) == "string"
    ensures r.None? ==> v.String? && AtLeast(|v.text|, s.minLength) && AtMost(|v.text|, s.maxLength) && Matches(v.text, s, m)
    ensures r.Some? ==> Explains(r.value, parameter, v, s, m)
  {
    var kind := MissingRequired;
    if !v.String? {
      kind := ExpectedString;
    } else if s.minLength.Some? && |v.text| < s.minLength.value {
      kind := TooShort;
    } else if s.maxLength.Some? && |v.text| > s.maxLength.value {
      kind := TooLong;
    } else if s.pattern != "" {
      var matched := m(s.pattern, v.text);
      if matched == None {
        kind := InvalidPattern;
      } else if !matched.value {
        kind := NoMatch;
      } else {
        return None;
      }
    } else {
      return None;
    }
    assert Violates(v, s, kind, m);
    r := Some(Problem(Shown(parameter), kind));
  }

  /** Properties are visited in any order, as the source's map iteration does. */
  method ValidateObject(parameter: string, v: Json, s: Schema, m: Matcher) returns (r: Option<Problem>)
    requires TypeOf(s) == "object"
    ensures r.None? ==> (
      && v.Object?
      && (forall name :: name in s.required ==> Present(v.fields, name))
      && (forall name :: name in s.properties && Present(v.fields, name) ==> Satisfies(v.fields[name], s.properties[name], m))
      && (s.additionalProperties == Some(false) ==> v.fields.Keys <= s.properties.Keys))
    ensures r.Some? ==> Explains(r.value, parameter, v, s, m)
    decreases s, 0
  {
    if !v.Object? {
      assert Violates(v, s, ExpectedObject, m);
      return Some(Problem(Shown(parameter), ExpectedObject));
    }
    for k := 0 to |s.required|
      invariant forall j :: 0 <= j < k ==> Present(v.fields, s.required[j])
    {
      if s.required[k] !in v.fields || v.fields[s.required[k]] == Null {
        assert ViolatesAt(v, s, MissingRequired, s.required[k]);
        return Some(Problem(Shown(Child(parameter, s.required[k])), MissingRequired));
      }
    }
    var names := s.properties.Keys;
    while names != {}
      invariant names <= s.properties.Keys
      invariant forall name :: name in s.properties && name !in names && Present(v.fields, name) ==>
        Satisfies(v.fields[name], s.properties[name], m)
      decreases |names|
    {
      var name :| name in names;
      names := names - {name};
      if name in v.fields && v.fields[name] != Null {
        var problem := Validate(Child(parameter, name), v.fields[name], s.properties[name], m);
        if problem.Some? {
          return problem;
        }
      }
    }
    if s.additionalProperties == Some(false) {
      var seen := v.fields.Keys;
      while seen != {}
        invariant seen <= v.fields.Keys
        invariant forall name :: name in v.fields && name !in seen ==> name in s.properties
        decreases |seen|
      {
        var name :| name in seen;
        seen := seen - {name};
        if name !in s.properties {
          assert ViolatesAt(v, s, Unexpected, name);
          return Some(Problem(Shown(Child(parameter, name)), Unexpected));
        }
      }
    }
    r := None;
  }

  method ValidateArray(parameter: string, v: Json, s: Schema, m: Matcher) returns (r: Option<Problem>)
    requires TypeOf(s) == "array"
    ensures r.None? ==> (
      && v.List? && AtLeast(|v.items|, s.minItems) && AtMost(|v.items|, s.maxItems)
      && (s.items.Some? ==> forall k :: 0 <= k < |v.items| ==> Satisfies(v.items[k], s.items.value, m)))
    ensures r.Some? ==> Explains(r.value, parameter, v, s, m)
    decreases s, 0
  {
    if !v.List? {
      assert Violates(v, s, ExpectedArray, m);
      return Some(Problem(Shown(parameter), ExpectedArray));
    }
    if s.minItems.Some? && |v.items| < s.minItems.value {
      assert Violates(v, s, TooFewItems, m);
      return Some(Problem(Shown(parameter), TooFewItems));
    }
    if s.maxItems.Some? && |v.items| > s.maxItems.value {
      assert Violates(v, s, TooManyItems, m);
      return Some(Problem(Shown(parameter), TooManyItems));
    }
    if s.items == None {
      return None;
    }
    for k := 0 to |v.items|
      invariant forall j :: 0 <= j < k ==> Satisfies(v.items[j], s.items.value, m)
    {
      var problem := Validate(Child(parameter, ItemName(k)), v.items[k], s.items.value, m);
      if problem.Some? {
        return problem;
      }
    }
    r := None;
  }

  method ValidateNumber(parameter: string, v: Json, s: Schema, m: Matcher) returns (r: Option<Problem>)
    requires TypeOf(s) in ["number", "integer"]
    ensures r.None? ==> v.Number? && InRange(v.value, s) && (TypeOf(s) == "integer" ==> IsWhole(v.value))
    ensures r.Some? ==> Explains(r.value, parameter, v, s, m)
  {
    if TypeOf(s) == "number" && !v.Number? {
      assert Violates(v, s, ExpectedNumber, m);
      return Some(Problem(Shown(parameter), ExpectedNumber));
    }
    if TypeOf(s) == "integer" && !(v.Number? && IsWhole(v.value)) {
      assert Violates(v, s, ExpectedInteger, m);
      return Some(Problem(Shown(parameter), ExpectedInteger));
    }
    r := ValidateBounds(parameter, v, s, m);
  }

  /** Accepts exactly the values that satisfy the schema, whatever the map order, and
      reports only real problems. */
  method Validate(parameter: string, v: Json, s: Schema, m: Matcher) returns (r: Option<Problem>)
    ensures r.None? <==> Satisfies(v, s, m)
    ensures r.Some? ==> Explains(r.value, parameter, v, s, m)
    decreases s, 1
  {
    var t := TypeOf(s);
    if t == "" {
      return None;
    }
    if t == "object" {
      r := ValidateObject(parameter, v, s, m);
    } else if t == "array" {
      r := ValidateArray(parameter, v, s, m);
    } else if t == "string" {
      r := ValidateString(parameter, v, s, m);
    } else if t == "number" || t == "integer" {
      r := ValidateNumber(parameter, v, s, m);
    } else if t == "boolean" {
      r := None;
      if !v.Bool? {
        assert Violates(v, s, ExpectedBoolean, m);
        r := Some(Problem(Shown(parameter), ExpectedBoolean));
      }
    } else {
      assert Violates(v, s, UnsupportedType, m);
      r := Some(Problem(Shown(parameter), UnsupportedType));
    }
    if r == None {
      r := ValidateEnum(parameter, v, s, m);
    }
    if r.Some? {
      ExplainedIsRejected(r.value, parameter, v, s, m);
    }
  }

  method ValidateToolCallArguments(arguments: map<string, Json>, schema: Option<Schema>, m: Matcher) returns (r: Option<Problem>)
    ensures r.None? <==> schema.None? || Satisfies(Object(arguments), schema.value, m)
    ensures r.Some? ==> Explains(r.value, "", Object(arguments), schema.value, m)
  {
    if schema == None {
      return None;
    }
    r := Validate("", Object(arguments), schema.value, m);
  }

  // ----- printing as JSON Schema

  type Fields = map<string, Json>

  function With(m: Fields, key: string, given: bool, value: Json): Fields { if given then m[key := value] else m }

  function Limit(x: Option<real>): Json { if x.Some? then Number(x.value) else Null }

  function Bound(n: Option<int>): Json { if n.Some? then Number(n.value as real) else Null }

  function Heading(s: Schema): Fields {
    var m := With(map[], "type", s.typ != "", String(s.typ));
    With(m, "description", s.description != "", String(s.description))
  }

  function Ranges(s: Schema, m: Fields): Fields {
    var m := With(m, "minimum", s.minimum.Some?, Limit(s.minimum));
    var m := With(m, "maximum", s.maximum.Some?, Limit(s.maximum));
    var m := With(m, "minLength", s.minLength.Some?, Bound(s.minLength));
    var m := With(m, "maxLength", s.maxLength.Some?, Bound(s.maxLength));
    var m := With(m, "minItems", s.minItems.Some?, Bound(s.minItems));
    With(m, "maxItems", s.maxItems.Some?, Bound(s.maxItems))
  }

  function Constraints(s: Schema, m: Fields): Fields {
    var m := With(m, "enum", s.enum != [], List(s.enum));
    var m := With(m, "default", s.default.Some? && s.default.value != Null, if s.default.Some? then s.default.value else Null);
    var m := Ranges(s, m);
    var m := With(m, "pattern", s.pattern != "", String(s.pattern));
    With(m, "additionalProperties", s.additionalProperties.Some?, Bool(s.additionalProperties == Some(true)))
  }

  function Strings(names: seq<string>): seq<Json> { seq(|names|, k requires 0 <= k < |names| => String(names[k])) }

  function Printed(s: Schema): Fields
    decreases s, 1
  {
    var items := if s.items.Some? then Object(Printed(s.items.value)) else Null;
    Nested(s, Constraints(s, Heading(s)), PrintedProperties(s), items)
  }

  function Nested(s: Schema, m: Fields, properties: Fields, items: Json): Fields {
    var m := With(m, "properties", s.properties != map[], Object(properties));
    var m := With(m, "required", s.required != [], List(Strings(s.required)));
    With(m, "items", s.items.Some?, items)
  }

  function PrintedProperties(s: Schema): Fields
    decreases s, 0
  {
    map name | name in s.properties :: Object(Printed(s.properties[name]))
  }

  method PrintRanges(s: Schema, m: Fields) returns (schema: Fields)
    ensures schema == Ranges(s, m)
  {
    schema := m;
    if s.minimum.Some? {
      schema := schema["minimum" := Number(s.minimum.value)];
    }
    if s.maximum.Some? {
      schema := schema["maximum" := Number(s.maximum.value)];
    }
    if s.minLength.Some? {
      schema := schema["minLength" := Number(s.minLength.value as real)];
    }
    if s.maxLength.Some? {
      schema := schema["maxLength" := Number(s.maxLength.value as real)];
    }
    if s.minItems.Some? {
      schema := schema["minItems" := Number(s.minItems.value as real)];
    }
    if s.maxItems.Some? {
      schema := schema["maxItems" := Number(s.maxItems.value as real)];
    }
  }

  method PrintConstraints(s: Schema, m: Fields) returns (schema: Fields)
    ensures schema == Constraints(s, m)
  {
    hide Ranges;
    schema := m;
    if s.enum != [] {
      schema := schema["enum" := List(s.enum)];
    }
    if s.default.Some? && s.default.value != Null {
      schema := schema["default" := s.default.value];
    }
    schema := PrintRanges(s, schema);
    if s.pattern != "" {
      schema := schema["pattern" := String(s.pattern)];
    }
    if s.additionalProperties.Some? {
      schema := schema["additionalProperties" := Bool(s.additionalProperties.value)];
    }
  }

  method PrintProperties(s: Schema) returns (properties: Fields)
    ensures properties == PrintedProperties(s)
    decreases s, 0
  {
    properties := map[];
    var names := s.properties.Keys;
    while names != {}
      invariant names <= s.properties.Keys && properties.Keys == s.properties.Keys - names
      invariant forall name :: name in properties ==> properties[name] == Object(Printed(s.properties[name]))
      decreases |names|
    {
      var name :| name in names;
      names := names - {name};
      var property := JSONSchema(s.properties[name]);
      properties := properties[name := Object(property)];
    }
  }

  method JSONSchema(s: Schema) returns (schema: Fields)
    ensures schema == Printed(s)
    decreases s, 1
  {
    hide Constraints, PrintedProperties;
    schema := map[];
    if s.typ != "" {
      schema := schema["type" := String(s.typ)];
    }
    if s.description != "" {
      schema := schema["description" := String(s.description)];
    }
    schema := PrintConstraints(s, schema);
    if s.properties != map[] {
      var properties := PrintProperties(s);
      schema := schema["properties" := Object(properties)];
    }
    if s.required != [] {
      schema := schema["required" := List(Strings(s.required))];
    }
    if s.items.Some? {
      var items := JSONSchema(s.items.value);
      schema := schema["items" := Object(items)];
    }
  }

  // ----- reading JSON Schema from an MCP server

  function KnownType(text: string): string { if text in KNOWN_TYPES then text else "" }

  function TypeFrom(v: Json): string
    decreases v
  {
    match v
    case String(text) => KnownType(text)
    case List(items) => FirstType(items)
    case _ => ""
  }

  function FirstType(items: seq<Json>): string
    decreases items
  {
    if items == [] then "" else
    var t := TypeFrom(items[0]);
    if t != "" then t else FirstType(items[1..])
  }

  function StringsFrom(items: seq<Json>): seq<string> {
    if items == [] then []
    else (if items[0].String? then [items[0].text] else []) + StringsFrom(items[1..])
  }

  function At(m: Fields, key: string): Json { if key in m then m[key] else Null }

  function ConvertMCPSchema(schema: Json): Schema
    requires schema.Object?
    decreases schema, 1
  {
    var m := schema.fields;
    var description, required := At(m, "description"), At(m, "required");
    ToolSchema.Schema(
      TypeFrom(At(m, "type")),
      if description.String? then description.text else "",
      if "properties" in m && m["properties"].Object? then ConvertProperties(m["properties"]) else map[],
      if required.List? then StringsFrom(required.items) else [],
      if "items" in m && m["items"].Object? then Some(ConvertMCPSchema(m["items"])) else None,
      [], None, None, None, None, None, None, None, "", None)
  }

  function ConvertProperties(properties: Json): map<string, Schema>
    requires properties.Object?
    decreases properties, 0
  {
    map name | name in properties.fields && properties.fields[name].Object? :: ConvertMCPSchema(properties.fields[name])
  }

  /** What is left of a schema once its constraints and unsupported types are dropped. */
  function Erase(s: Schema): Schema
    decreases s, 1
  {
    ToolSchema.Schema(
      KnownType(s.typ), s.description, EraseProperties(s), s.required,
      if s.items.Some? then Some(Erase(s.items.value)) else None,
      [], None, None, None, None, None, None, None, "", None)
  }

  function EraseProperties(s: Schema): map<string, Schema>
    decreases s, 0
  {
    map name | name in s.properties :: Erase(s.properties[name])
  }

  predicate IsConstraint(key: string) {
    key in ["enum", "default", "pattern", "additionalProperties",
            "minimum", "maximum", "minLength", "maxLength", "minItems", "maxItems"]
  }

  lemma ShapeKeys()
    ensures forall key :: key in ["type", "description", "properties", "required", "items"] ==> !IsConstraint(key)
  {
  }

  lemma HeadingKeys(s: Schema)
    ensures var m := Heading(s);
      && At(m, "type") == (if s.typ != "" then String(s.typ) else Null)
      && At(m, "description") == (if s.description != "" then String(s.description) else Null)
      && At(m, "properties") == At(m, "required") == At(m, "items") == Null
  {
  }

  lemma NestedKeys(s: Schema, m: Fields, properties: Fields, items: Json)
    requires At(m, "properties") == At(m, "required") == At(m, "items") == Null
    ensures var n := Nested(s, m, properties, items);
      && At(n, "type") == At(m, "type") && At(n, "description") == At(m, "description")
      && At(n, "properties") == (if s.properties != map[] then Object(properties) else Null)
      && At(n, "required") == (if s.required != [] then List(Strings(s.required)) else Null)
      && At(n, "items") == (if s.items.Some? then items else Null)
  {
    hide Strings;
  }

  lemma PrintedKeys(s: Schema)
    ensures var m := Printed(s);
      && At(m, "type") == (if s.typ != "" then String(s.typ) else Null)
      && At(m, "description") == (if s.description != "" then String(s.description) else Null)
      && At(m, "properties") == (if s.properties != map[] then Object(PrintedProperties(s)) else Null)
      && At(m, "required") == (if s.required != [] then List(Strings(s.required)) else Null)
      && At(m, "items") == (if s.items.Some? then Object(Printed(s.items.value)) else Null)
  {
    hide Constraints, Heading, Nested, IsConstraint, At;
    var m := Constraints(s, Heading(s));
    ConstraintsKeep(s, Heading(s));
    ShapeKeys();
    HeadingKeys(s);
    var items := if s.items.Some? then Object(Printed(s.items.value)) else Null;
    NestedKeys(s, m, PrintedProperties(s), items);
  }

  lemma RangesKeep(s: Schema, m: Fields)
    ensures forall key :: !IsConstraint(key) ==> At(Ranges(s, m), key) == At(m, key)
  {
  }

  lemma ConstraintsKeep(s: Schema, m: Fields)
    ensures forall key :: !IsConstraint(key) ==> At(Constraints(s, m), key) == At(m, key)
  {
    hide Ranges;
    var m1 := With(m, "enum", s.enum != [], List(s.enum));
    var m2 := With(m1, "default", s.default.Some? && s.default.value != Null, if s.default.Some? then s.default.value else Null);
    RangesKeep(s, m2);
  }

  lemma {:induction false} StringsReadBack(names: seq<string>)
    ensures StringsFrom(Strings(names)) == names
  {
    if names != [] {
      assert Strings(names)[1..] == Strings(names[1..]);
      StringsReadBack(names[1..]);
    }
  }

  lemma ConvertShape(schema: Json, s: Schema)
    requires schema.Object?
    requires At(schema.fields, "type") == (if s.typ != "" then String(s.typ) else Null)
    requires At(schema.fields, "description") == (if s.description != "" then String(s.description) else Null)
    requires At(schema.fields, "properties") == (if s.properties != map[] then Object(PrintedProperties(s)) else Null)
    requires At(schema.fields, "required") == (if s.required != [] then List(Strings(s.required)) else Null)
    requires At(schema.fields, "items") == (if s.items.Some? then Object(Printed(s.items.value)) else Null)
    requires ConvertProperties(Object(PrintedProperties(s))) == EraseProperties(s)
    requires s.items.Some? ==> ConvertMCPSchema(Object(Printed(s.items.value))) == Erase(s.items.value)
    ensures ConvertMCPSchema(schema) == Erase(s)
  {
    hide Printed, StringsFrom, Strings, PrintedProperties, EraseProperties, ConvertProperties;
    StringsReadBack(s.required);
    NothingErased(s);
    var c := ConvertMCPSchema(schema);
    assert c.typ == KnownType(s.typ);
    assert c.required == s.required;
    assert c.properties == EraseProperties(s);
  }

  /** Converting a printed schema back erases constraints and nothing else. */
  lemma {:induction false} ConvertUndoesPrint(s: Schema)
    ensures ConvertMCPSchema(Object(Printed(s))) == Erase(s)
    decreases s
  {
    hide Constraints, Heading, Nested;
    forall name | name in s.properties
      ensures ConvertMCPSchema(Object(Printed(s.properties[name]))) == Erase(s.properties[name])
    {
      ConvertUndoesPrint(s.properties[name]);
    }
    if s.items.Some? {
      ConvertUndoesPrint(s.items.value);
    }
    hide ConvertMCPSchema, Printed, Erase, At;
    assert ConvertProperties(Object(PrintedProperties(s))) == EraseProperties(s);
    hide ConvertProperties, PrintedProperties, EraseProperties;
    PrintedKeys(s);
    ConvertShape(Object(Printed(s)), s);
  }

  lemma NothingErased(s: Schema)
    ensures s.properties == map[] ==> EraseProperties(s) == map[]
  {
  }

  /** Erasing only loosens: at any depth, an accepted value stays accepted. */
  lemma {:induction false} EraseLoosens(v: Json, s: Schema, m: Matcher)
    requires Satisfies(v, s, m)
    ensures Satisfies(v, Erase(s), m)
    decreases s
  {
    var t, e := TypeOf(s), Erase(s);
    assert e.properties.Keys == s.properties.Keys;
    if t == "object" {
      forall name | name in e.properties && Present(v.fields, name)
        ensures Satisfies(v.fields[name], e.properties[name], m)
      {
        EraseLoosens(v.fields[name], s.properties[name], m);
      }
    } else if t == "array" && s.items.Some? {
      forall k | 0 <= k < |v.items|
        ensures Satisfies(v.items[k], e.items.value, m)
      {
        EraseLoosens(v.items[k], s.items.value, m);
      }
    }
  }

  lemma PrintedSchemaLoosens(v: Json, s: Schema, m: Matcher)
    requires Satisfies(v, s, m)
    ensures Satisfies(v, ConvertMCPSchema(Object(Printed(s))), m)
  {
    hide Satisfies, Printed;
    ConvertUndoesPrint(s);
    EraseLoosens(v, s, m);
  }

  /** A second trip through an MCP server changes nothing more. */
  lemma {:induction false} EraseIsStable(s: Schema)
    ensures Erase(Erase(s)) == Erase(s)
    decreases s
  {
    var e := Erase(s);
    var properties := EraseProperties(s);
    assert e.properties == properties;
    forall name | name in s.properties
      ensures Erase(properties[name]) == properties[name]
    {
      EraseIsStable(s.properties[name]);
    }
    if s.items.Some? {
      EraseIsStable(s.items.value);
    }
    assert EraseProperties(e) == properties;
  }
}
