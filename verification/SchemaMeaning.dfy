/** What a parameter schema accepts, prints as and keeps on its journey, one type and one
    key at a time. */
module SchemaMeaning {
  import opened Prelude
  import opened Core
  import opened Decimal
  import opened SchemaValidation
  import ToolSchema

  // ----- what each type accepts

  predicate Allowed(v: Json, s: Schema) { s.enum == [] || exists k :: 0 <= k < |s.enum| && s.enum[k] == v }

  predicate Between(x: real, low: Option<real>, high: Option<real>) {
    (low.Some? ==> low.value <= x) && (high.Some? ==> x <= high.value)
  }

  predicate Sized(n: int, low: Option<int>, high: Option<int>) {
    (low.Some? ==> low.value <= n) && (high.Some? ==> n <= high.value)
  }

  /** The bounds of each type are inclusive, an integer is a whole number, and the list of
      allowed values applies to every type. */
  lemma ScalarsSatisfy(v: Json, s: Schema, m: Matcher)
    ensures s.typ == "string" ==>
      (Satisfies(v, s, m) <==>
        && v.String? && Sized(|v.text|, s.minLength, s.maxLength) && Allowed(v, s)
        && (s.pattern != "" ==> m(s.pattern, v.text) == Some(true)))
    ensures s.typ == "number" ==> (Satisfies(v, s, m) <==> v.Number? && Between(v.value, s.minimum, s.maximum) && Allowed(v, s))
    ensures s.typ == "integer" ==>
      (Satisfies(v, s, m) <==>
        v.Number? && v.value.Floor as real == v.value && Between(v.value, s.minimum, s.maximum) && Allowed(v, s))
    ensures s.typ == "boolean" ==> (Satisfies(v, s, m) <==> v.Bool? && Allowed(v, s))
    ensures s.typ !in ["", "string", "number", "integer", "boolean", "object", "array"] ==> !Satisfies(v, s, m)
  {
  }

  /** An object has its required entries, none of them null, properties that satisfy their
      schemas or are null or absent, and no others where those are ruled out. */
  lemma ObjectsSatisfy(v: Json, s: Schema, m: Matcher)
    requires s.typ == "object"
    ensures Satisfies(v, s, m) <==>
      && v.Object? && Allowed(v, s)
      && (forall k :: 0 <= k < |s.required| ==> s.required[k] in v.fields && !v.fields[s.required[k]].Null?)
      && (forall name :: name in s.properties && name in v.fields && !v.fields[name].Null? ==>
        Satisfies(v.fields[name], s.properties[name], m))
      && (s.additionalProperties == Some(false) ==> forall name :: name in v.fields ==> name in s.properties)
  {
    if v.Object? {
      forall k | 0 <= k < |s.required|
        ensures s.required[k] in s.required
      {
      }
    }
  }

  /** An array has its number of items, each satisfying the items' schema if there is one. */
  lemma ArraysSatisfy(v: Json, s: Schema, m: Matcher)
    requires s.typ == "array"
    ensures Satisfies(v, s, m) <==>
      && v.List? && Allowed(v, s) && Sized(|v.items|, s.minItems, s.maxItems)
      && (s.items.Some? ==> forall k :: 0 <= k < |v.items| ==> Satisfies(v.items[k], s.items.value, m))
  {
  }

  /** Without a type, properties or required names make an object's schema and items an
      array's; a schema without any of them accepts everything. */
  lemma UntypedSatisfy(v: Json, s: Schema, m: Matcher)
    requires s.typ == ""
    ensures s.properties != map[] || s.required != [] ==> (Satisfies(v, s, m) <==> Satisfies(v, s.(typ := "object"), m))
    ensures s.properties == map[] && s.required == [] && s.items.Some? ==>
      (Satisfies(v, s, m) <==> Satisfies(v, s.(typ := "array"), m))
    ensures s.properties == map[] && s.required == [] && s.items == None ==> Satisfies(v, s, m)
  {
  }

  /** Problems are located by dotted names and bracketed positions, the root by a dollar sign. */
  lemma ParametersAreNamed(parent: string, child: string, k: nat)
    ensures Shown("") == "$" && (parent != "" ==> Shown(parent) == parent)
    ensures Child("", child) == child && Child("$", child) == child
    ensures parent !in ["", "$"] && (child == "" || child[0] != '[') ==> Child(parent, child) == parent + "." + child
    ensures parent !in ["", "$"] ==> Child(parent, ItemName(k)) == parent + "[" + Render(k) + "]"
  {
    assert ItemName(k)[0] == '[';
    assert parent + ("[" + Render(k) + "]") == parent + "[" + Render(k) + "]";
  }

  // ----- what a schema prints as

  function WholeLimit(n: Option<int>): Json { if n.Some? then Number(n.value as real) else Null }

  function RealLimit(x: Option<real>): Json { if x.Some? then Number(x.value) else Null }

  predicate IsRange(key: string) { key in ["minimum", "maximum", "minLength", "maxLength", "minItems", "maxItems"] }

  /** The six limits, each under its own key and absent where the schema has none. */
  predicate PrintsLimits(p: Fields, s: Schema) {
    && At(p, "minimum") == RealLimit(s.minimum) && At(p, "maximum") == RealLimit(s.maximum)
    && At(p, "minLength") == WholeLimit(s.minLength) && At(p, "maxLength") == WholeLimit(s.maxLength)
    && At(p, "minItems") == WholeLimit(s.minItems) && At(p, "maxItems") == WholeLimit(s.maxItems)
  }

  /** The other constraints. */
  predicate PrintsRules(p: Fields, s: Schema) {
    && At(p, "enum") == (if s.enum == [] then Null else List(s.enum))
    && At(p, "default") == (if s.default.Some? then s.default.value else Null)
    && At(p, "pattern") == (if s.pattern == "" then Null else String(s.pattern))
    && At(p, "additionalProperties") == (match s.additionalProperties case None => Null case Some(allowed) => Bool(allowed))
  }

  lemma RangesPrint(s: Schema, m: Fields)
    requires forall key :: key in m ==> !IsRange(key)
    ensures PrintsLimits(Ranges(s, m), s)
  {
  }

  lemma RangesKeepOthers(s: Schema, m: Fields)
    ensures forall key :: !IsRange(key) ==> At(Ranges(s, m), key) == At(m, key)
  {
  }

  lemma LimitsSurvive(s: Schema, m: Fields, p: Fields)
    requires PrintsLimits(m, s) && forall key :: IsRange(key) ==> At(p, key) == At(m, key)
    ensures PrintsLimits(p, s)
  {
    hide At, RealLimit, WholeLimit;
  }

  lemma RulesSurvive(s: Schema, m: Fields, p: Fields)
    requires PrintsRules(m, s) && forall key :: IsConstraint(key) ==> At(p, key) == At(m, key)
    ensures PrintsRules(p, s)
  {
    hide At;
  }

  lemma WithSets(m: Fields, key: string, given: bool, value: Json)
    ensures At(With(m, key, given, value), key) == if given then value else At(m, key)
  {
  }

  lemma WithKeeps(m: Fields, key: string, given: bool, value: Json, other: string)
    requires other != key
    ensures At(With(m, key, given, value), other) == At(m, other)
  {
  }

  lemma RuleKeys()
    ensures !IsRange("enum") && !IsRange("default") && !IsRange("pattern") && !IsRange("additionalProperties")
    ensures IsConstraint("enum") && IsConstraint("default") && IsConstraint("pattern") && IsConstraint("additionalProperties")
    ensures "enum" != "default" && "enum" != "pattern" && "enum" != "additionalProperties"
    ensures "default" != "pattern" && "default" != "additionalProperties" && "pattern" != "additionalProperties"
  {
  }

  lemma ConstraintsPrint(s: Schema, m: Fields)
    requires forall key :: key in m ==> !IsConstraint(key)
    ensures PrintsRules(Constraints(s, m), s) && PrintsLimits(Constraints(s, m), s)
  {
    hide Ranges, PrintsLimits, PrintsRules, With, IsConstraint, IsRange, RealLimit, WholeLimit;
    RuleKeys();
    var m1 := With(m, "enum", s.enum != [], List(s.enum));
    var default := if s.default.Some? then s.default.value else Null;
    var m2 := With(m1, "default", s.default.Some? && s.default.value != Null, default);
    var m3 := Ranges(s, m2);
    var m4 := With(m3, "pattern", s.pattern != "", String(s.pattern));
    var allowed := Bool(s.additionalProperties == Some(true));
    var c := With(m4, "additionalProperties", s.additionalProperties.Some?, allowed);
    assert c == Constraints(s, m);
    HasNoRange(s, m, m1, m2);
    RangesPrint(s, m2);
    EnumPrints(s, m, m1, m2, m3, m4);
    DefaultPrints(s, m, m1, m2, m3, m4);
    RestPrints(s, m, m1, m2, m3, m4);
    forall key | IsRange(key)
      ensures At(c, key) == At(m3, key)
    {
      WithKeeps(m3, "pattern", s.pattern != "", String(s.pattern), key);
      WithKeeps(m4, "additionalProperties", s.additionalProperties.Some?, allowed, key);
    }
    LimitsSurvive(s, m3, c);
    RulesArePrinted(s, c);
  }

  lemma RulesArePrinted(s: Schema, c: Fields)
    requires At(c, "enum") == (if s.enum == [] then Null else List(s.enum))
    requires At(c, "default") == (if s.default.Some? then s.default.value else Null)
    requires At(c, "pattern") == (if s.pattern == "" then Null else String(s.pattern))
    requires At(c, "additionalProperties") == (match s.additionalProperties case None => Null case Some(allowed) => Bool(allowed))
    ensures PrintsRules(c, s)
  {
    hide At;
  }

  /** The constraint fields, one key added after the other. */
  ghost predicate InSteps(s: Schema, m: Fields, m1: Fields, m2: Fields, m3: Fields, m4: Fields) {
    && (forall key :: key in m ==> !IsConstraint(key))
    && m1 == With(m, "enum", s.enum != [], List(s.enum))
    && m2 == With(m1, "default", s.default.Some? && s.default.value != Null, if s.default.Some? then s.default.value else Null)
    && m3 == Ranges(s, m2)
    && m4 == With(m3, "pattern", s.pattern != "", String(s.pattern))
  }

  lemma EnumPrints(s: Schema, m: Fields, m1: Fields, m2: Fields, m3: Fields, m4: Fields)
    requires InSteps(s, m, m1, m2, m3, m4)
    ensures var c := With(m4, "additionalProperties", s.additionalProperties.Some?, Bool(s.additionalProperties == Some(true)));
      At(c, "enum") == if s.enum == [] then Null else List(s.enum)
  {
    hide Ranges, With, IsConstraint, IsRange;
    RuleKeys();
    var default := if s.default.Some? then s.default.value else Null;
    WithSets(m, "enum", s.enum != [], List(s.enum));
    WithKeeps(m1, "default", s.default.Some? && s.default.value != Null, default, "enum");
    RangesKeepOthers(s, m2);
    WithKeeps(m3, "pattern", s.pattern != "", String(s.pattern), "enum");
    WithKeeps(m4, "additionalProperties", s.additionalProperties.Some?, Bool(s.additionalProperties == Some(true)), "enum");
  }

  lemma DefaultPrints(s: Schema, m: Fields, m1: Fields, m2: Fields, m3: Fields, m4: Fields)
    requires InSteps(s, m, m1, m2, m3, m4)
    ensures var c := With(m4, "additionalProperties", s.additionalProperties.Some?, Bool(s.additionalProperties == Some(true)));
      At(c, "default") == if s.default.Some? then s.default.value else Null
  {
    hide Ranges, With, IsConstraint, IsRange;
    RuleKeys();
    var default := if s.default.Some? then s.default.value else Null;
    WithKeeps(m, "enum", s.enum != [], List(s.enum), "default");
    WithSets(m1, "default", s.default.Some? && s.default.value != Null, default);
    RangesKeepOthers(s, m2);
    WithKeeps(m3, "pattern", s.pattern != "", String(s.pattern), "default");
    WithKeeps(m4, "additionalProperties", s.additionalProperties.Some?, Bool(s.additionalProperties == Some(true)), "default");
  }

  lemma RestPrints(s: Schema, m: Fields, m1: Fields, m2: Fields, m3: Fields, m4: Fields)
    requires InSteps(s, m, m1, m2, m3, m4)
    ensures var c := With(m4, "additionalProperties", s.additionalProperties.Some?, Bool(s.additionalProperties == Some(true)));
      && At(c, "pattern") == (if s.pattern == "" then Null else String(s.pattern))
      && At(c, "additionalProperties") == (match s.additionalProperties case None => Null case Some(allowed) => Bool(allowed))
  {
    hide Ranges, With, IsConstraint, IsRange;
    RuleKeys();
    var default := if s.default.Some? then s.default.value else Null;
    var allowed := Bool(s.additionalProperties == Some(true));
    WithKeeps(m, "enum", s.enum != [], List(s.enum), "pattern");
    WithKeeps(m, "enum", s.enum != [], List(s.enum), "additionalProperties");
    WithKeeps(m1, "default", s.default.Some? && s.default.value != Null, default, "pattern");
    WithKeeps(m1, "default", s.default.Some? && s.default.value != Null, default, "additionalProperties");
    RangesKeepOthers(s, m2);
    WithSets(m3, "pattern", s.pattern != "", String(s.pattern));
    WithKeeps(m3, "pattern", s.pattern != "", String(s.pattern), "additionalProperties");
    WithKeeps(m4, "additionalProperties", s.additionalProperties.Some?, allowed, "pattern");
    WithSets(m4, "additionalProperties", s.additionalProperties.Some?, allowed);
  }

  lemma HasNoRange(s: Schema, m: Fields, m1: Fields, m2: Fields)
    requires forall key :: key in m ==> !IsConstraint(key)
    requires m1 == With(m, "enum", s.enum != [], List(s.enum))
    requires m2 == With(m1, "default", s.default.Some? && s.default.value != Null, if s.default.Some? then s.default.value else Null)
    ensures forall key :: key in m2 ==> !IsRange(key)
  {
    RangesAreConstraints();
    hide IsConstraint;
  }

  lemma NestedKeepsConstraints(s: Schema, m: Fields, properties: Fields, items: Json)
    ensures forall key :: IsConstraint(key) ==> At(Nested(s, m, properties, items), key) == At(m, key)
  {
    ShapeKeys();
  }

  lemma HeadingHasNoConstraints(s: Schema)
    ensures forall key :: key in Heading(s) ==> !IsConstraint(key)
  {
  }

  lemma RangesAreConstraints()
    ensures forall key :: IsRange(key) ==> IsConstraint(key)
  {
  }

  /** Every constraint of a schema is printed under its own key with its own value, and a
      constraint it does not have is not printed. */
  lemma {:induction false} PrintedConstraints(s: Schema)
    ensures PrintsRules(Printed(s), s) && PrintsLimits(Printed(s), s)
  {
    hide Constraints, Heading, Nested, At, PrintedProperties, PrintsRules, PrintsLimits, IsConstraint, IsRange;
    var m := Constraints(s, Heading(s));
    var items := if s.items.Some? then Object(Printed(s.items.value)) else Null;
    HeadingHasNoConstraints(s);
    ConstraintsPrint(s, Heading(s));
    NestedKeepsConstraints(s, m, PrintedProperties(s), items);
    RangesAreConstraints();
    RulesSurvive(s, m, Printed(s));
    LimitsSurvive(s, m, Printed(s));
  }

  // ----- what the journey keeps

  /** Erasing keeps the description, the required names, a supported type and the schemas
      of properties and items, erased in turn; every constraint is gone. */
  lemma ErasedKeeps(s: Schema)
    ensures var e := Erase(s);
      && e.description == s.description && e.required == s.required
      && e.typ == (if s.typ in ["string", "number", "integer", "boolean", "object", "array"] then s.typ else "")
      && e.properties.Keys == s.properties.Keys && (forall name :: name in s.properties ==> e.properties[name] == Erase(s.properties[name]))
      && e.items.Some? == s.items.Some? && (s.items.Some? ==> e.items.value == Erase(s.items.value))
      && e.enum == [] && e.default == None && e.pattern == "" && e.additionalProperties == None
      && e.minimum == e.maximum == None && e.minLength == e.maxLength == e.minItems == e.maxItems == None
  {
  }

  /** The type of a list of types is the first supported one. */
  lemma {:induction false} FirstSupportedType(names: seq<string>, k: nat)
    requires k <= |names| && forall j :: 0 <= j < k ==> names[j] !in KNOWN_TYPES
    requires k < |names| ==> names[k] in ["string", "number", "integer", "boolean", "object", "array"]
    ensures TypeFrom(List(Strings(names))) == if k < |names| then names[k] else ""
  {
    var items := Strings(names);
    assert TypeFrom(List(items)) == FirstType(items);
    if names != [] {
      assert items[1..] == Strings(names[1..]);
      if k > 0 {
        assert TypeFrom(items[0]) == "";
        FirstSupportedType(names[1..], k - 1);
        assert TypeFrom(List(items[1..])) == FirstType(items[1..]);
      }
    }
  }

  /** Entries of a list that are no strings are passed over. */
  lemma {:induction false} StringsAreFiltered(before: seq<Json>, item: Json, after: seq<Json>)
    ensures StringsFrom(before + [item] + after)
      == StringsFrom(before) + (if item.String? then [item.text] else []) + StringsFrom(after)
  {
    var all := before + [item] + after;
    if before == [] {
      assert all[1..] == after;
    } else {
      assert all[1..] == before[1..] + [item] + after;
      StringsAreFiltered(before[1..], item, after);
      var head := if before[0].String? then [before[0].text] else [];
      var mid, tail := if item.String? then [item.text] else [], StringsFrom(after);
      assert head + (StringsFrom(before[1..]) + mid + tail) == head + StringsFrom(before[1..]) + mid + tail;
    }
  }

  /** Any schema a server sends: its texts and lists are taken where they are of the right
      kind, its properties and items where they are objects, and nothing else. */
  lemma ConvertedKeeps(schema: Json)
    requires schema.Object?
    ensures var m, c := schema.fields, ConvertMCPSchema(schema);
      && (c.description == if "description" in m && m["description"].String? then m["description"].text else "")
      && (c.required == if "required" in m && m["required"].List? then StringsFrom(m["required"].items) else [])
      && (c.typ != "" ==> c.typ in ["string", "number", "integer", "boolean", "object", "array"])
      && (c.items == if "items" in m && m["items"].Object? then Some(ConvertMCPSchema(m["items"])) else None)
      && c.properties.Keys == (if "properties" in m && m["properties"].Object?
         then set name | name in m["properties"].fields && m["properties"].fields[name].Object? else {})
      && (forall name :: name in c.properties ==> c.properties[name] == ConvertMCPSchema(m["properties"].fields[name]))
      && c.enum == [] && c.default == None && c.pattern == "" && c.additionalProperties == None
      && c.minimum == c.maximum == None && c.minLength == c.maxLength == c.minItems == c.maxItems == None
  {
    TypeIsSupported(At(schema.fields, "type"));
    hide TypeFrom, StringsFrom;
  }

  lemma {:induction false} TypeIsSupported(v: Json)
    ensures TypeFrom(v) != "" ==> TypeFrom(v) in KNOWN_TYPES
    decreases v
  {
    if v.List? {
      FirstIsSupported(v.items);
    }
  }

  lemma {:induction false} FirstIsSupported(items: seq<Json>)
    ensures FirstType(items) != "" ==> FirstType(items) in KNOWN_TYPES
    decreases items
  {
    if items != [] {
      TypeIsSupported(items[0]);
      FirstIsSupported(items[1..]);
    }
  }
}
