/** Schema Objects built from the property metadata that the property
    decorators record on model classes (explorer/utils/schema_object.ts).

    The reflection store is an input: for each class name, the recorded
    property names (each stored with a one-character prefix) and, per
    property key, the metadata object of that property.
 */
module SchemaObject {
  import opened JsValues

  datatype ClassMetadata = ClassMetadata(recorded: seq<string>, properties: map<string, Object>)

  /** Model class name to its recorded property metadata. */
  type Registry = map<string, ClassMetadata>

  /** `getPropertyType`: the OpenAPI type name for a property's `type`. */
  function PropertyType(t: Value): (r: string)
    ensures r == "number" <==> t == Fn(NumberCtor) || t == Str("number")
    ensures r == "boolean" <==> t == Fn(BooleanCtor) || t == Str("boolean")
    ensures r == "string" || r == "number" || r == "boolean"
  {
    match t
    case Fn(StringCtor) => "string"
    case Fn(NumberCtor) => "number"
    case Fn(BooleanCtor) => "boolean"
    case Str(s) => if s == "string" || s == "number" || s == "boolean" then s else "string"
    case _ => "string"
  }

  /** `isPrimitiveType`: the three primitive wrapper constructors. */
  predicate IsPrimitiveType(t: Value) {
    t == Fn(StringCtor) || t == Fn(NumberCtor) || t == Fn(BooleanCtor)
  }

  /** A primitive constructor's type name is its own name in lower case. */
  lemma PrimitiveTypeIsLowerCtorName(t: Value)
    requires IsPrimitiveType(t)
    ensures PropertyType(t) == ToLower(CtorName(t.ctor))
  {
    var n := CtorName(t.ctor);
    assert ToLower(n)[0] == LowerChar(n[0]);
    if t == Fn(StringCtor) {
      assert ToLower(n) == "string";
    } else if t == Fn(NumberCtor) {
      assert ToLower(n) == "number";
    } else {
      assert ToLower(n) == "boolean";
    }
  }

  /** A type name normalised once normalises to itself. */
  lemma PropertyTypeIdempotent(t: Value)
    ensures PropertyType(Str(PropertyType(t))) == PropertyType(t)
  {
  }

  /** `typeof t === 'function' && !isPrimitiveType(t)`: a class whose schema
      is built from its own property metadata. */
  predicate IsModelType(t: Value) {
    t.Fn? && !IsPrimitiveType(t)
  }

  function ClassRank(rank: map<string, nat>, name: string): nat {
    if name in rank then rank[name] else 0
  }

  function CtorRank(rank: map<string, nat>, c: Ctor): nat {
    if c.ClassCtor? then ClassRank(rank, c.className) else 0
  }

  /** The recorded class graph is acyclic, witnessed by `rank`: a model-typed
      property of a class refers to a class of lower rank. On a cyclic graph
      the source recurses without end. */
  ghost predicate WellRanked(reg: Registry, rank: map<string, nat>) {
    forall name | name in reg ::
      forall key | key in reg[name].properties ::
        IsModelType(Get(reg[name].properties[key], "type")) ==>
          CtorRank(rank, Get(reg[name].properties[key], "type").ctor) < ClassRank(rank, name)
  }

  /** `prop.substring(1)`. */
  function PropertyKey(recorded: string): string {
    if |recorded| == 0 then "" else recorded[1..]
  }

  function EmptyObjectSchema(): Value {
    Obj(map["type" := Str("object"), "properties" := Obj(map[])])
  }

  /** The shape `buildSchemaObject` always returns. */
  predicate IsObjectSchema(v: Value) {
    && v.Obj?
    && v.fields.Keys == {"type", "properties"}
    && v.fields["type"] == Str("object")
    && v.fields["properties"].Obj?
  }

  /** The keys the schema of class `name` has: the recorded names with their
      first character removed, for those properties that have metadata. */
  function SchemaKeys(reg: Registry, name: string, recorded: seq<string>): set<string>
    requires name in reg
  {
    set r | r in recorded && PropertyKey(r) in reg[name].properties :: PropertyKey(r)
  }

  /** `buildSchemaObject(ctor)`. */
  function BuildSchemaObject(reg: Registry, ghost rank: map<string, nat>, c: Ctor): (r: Value)
    requires WellRanked(reg, rank)
    ensures IsObjectSchema(r)
    ensures c.ClassCtor? && c.className in reg ==>
              r.fields["properties"].fields.Keys == SchemaKeys(reg, c.className, reg[c.className].recorded)
    ensures c.ClassCtor? && c.className in reg && |reg[c.className].recorded| > 0 ==>
              r.fields["properties"] == Obj(SchemaProperties(reg, rank, c.className, reg[c.className].recorded))
    ensures !(c.ClassCtor? && c.className in reg && |reg[c.className].recorded| > 0) ==> r == EmptyObjectSchema()
    decreases CtorRank(rank, c), 2, 0
  {
    if c.ClassCtor? && c.className in reg && |reg[c.className].recorded| > 0 then
      var props := SchemaProperties(reg, rank, c.className, reg[c.className].recorded);
      Obj(map["type" := Str("object"), "properties" := Obj(props)])
    else
      EmptyObjectSchema()
  }

  /** The `reduce` over the recorded names: later names overwrite earlier ones
      with the same key; properties without metadata are left out. */
  function SchemaProperties(reg: Registry, ghost rank: map<string, nat>, name: string, recorded: seq<string>)
    : (m: map<string, Value>)
    requires WellRanked(reg, rank) && name in reg
    ensures m.Keys == SchemaKeys(reg, name, recorded)
    ensures forall k | k in m :: BuildSchemaProperty(reg, rank, name, k) == Some(m[k])
    decreases ClassRank(rank, name), 1, |recorded|
  {
    if |recorded| == 0 then map[]
    else
      var init := recorded[..|recorded| - 1];
      var acc := SchemaProperties(reg, rank, name, init);
      var key := PropertyKey(recorded[|recorded| - 1]);
      assert recorded == init + [recorded[|recorded| - 1]];
      match BuildSchemaProperty(reg, rank, name, key)
      case Some(p) => acc[key := p]
      case None => acc
  }

  /** The schema of a property whose metadata says `isArray`. */
  predicate IsArraySchemaOf(prop: Object, v: Value) {
    var t := Get(prop, "type");
    && v.Obj?
    && v.fields.Keys == prop.Keys - {"isArray"} + {"items", "type"}
    && v.fields["type"] == Str("array")
    && (IsModelType(t) ==> IsObjectSchema(v.fields["items"]))
    && (!IsModelType(t) ==> v.fields["items"] == Obj(map["type" := Str(PropertyType(t))]))
    && forall k | k in prop && k !in {"isArray", "items", "type"} :: v.fields[k] == prop[k]
  }

  /** The schema of a property of primitive type. */
  predicate IsPrimitiveSchemaOf(prop: Object, v: Value) {
    && v.Obj?
    && "type" in v.fields && v.fields["type"] == Str(PropertyType(Get(prop, "type")))
    && "isArray" !in v.fields
    && ("required" in v.fields <==> Truthy(Get(prop, "required")))
    && (forall k | k in v.fields && k != "type" :: k in prop && v.fields[k] == prop[k])
    && (forall k | k in prop && k !in {"type", "required", "isArray"} :: k in v.fields)
  }

  /** `buildSchemaProperty(instance, key)`. */
  function BuildSchemaProperty(reg: Registry, ghost rank: map<string, nat>, name: string, key: string)
    : (r: Option<Value>)
    requires WellRanked(reg, rank) && name in reg
    ensures r.None? <==> key !in reg[name].properties
    ensures r.Some? ==>
      var prop := reg[name].properties[key];
      var t := Get(prop, "type");
      var isArray := Truthy(Get(prop, "isArray"));
      && (!isArray && t == Fn(ArrayCtor) ==> r.value == Obj(map["type" := Str("array"), "items" := Obj(map[])]))
      && (!isArray && IsModelType(t) && t != Fn(ArrayCtor) ==> r.value == BuildSchemaObject(reg, rank, t.ctor))
      && (isArray ==> IsArraySchemaOf(prop, r.value))
      && (isArray && IsModelType(t) ==> r.value.fields["items"] == BuildSchemaObject(reg, rank, t.ctor))
      && (!isArray && !IsModelType(t) ==> IsPrimitiveSchemaOf(prop, r.value))
    decreases ClassRank(rank, name), 0, 0
  {
    if key !in reg[name].properties then None
    else
      var prop := reg[name].properties[key];
      var t := Get(prop, "type");
      var isArray := Truthy(Get(prop, "isArray"));
      if !isArray && t == Fn(ArrayCtor) then
        Some(Obj(map["type" := Str("array"), "items" := Obj(map[])]))
      else if !isArray && IsModelType(t) then
        Some(BuildSchemaObject(reg, rank, t.ctor))
      else if isArray then
        // the nested schema is an object, so the source's fallback for a
        // missing schema never applies
        var items := if IsModelType(t) then BuildSchemaObject(reg, rank, t.ctor)
                     else Obj(map["type" := Str(PropertyType(t))]);
        Some(ArraySchema(prop, items))
      else
        Some(PrimitiveSchema(prop))
  }

  /** The `isArray` branch: the metadata without `isArray`, with the given
      `items` and the type `array`. */
  function ArraySchema(prop: Object, items: Value): (r: Value)
    ensures r.Obj? && r.fields.Keys == prop.Keys - {"isArray"} + {"items", "type"}
    ensures r.fields["type"] == Str("array") && r.fields["items"] == items
    ensures forall k | k in prop && k !in {"isArray", "items", "type"} :: r.fields[k] == prop[k]
  {
    Obj((prop - {"isArray"})["items" := items]["type" := Str("array")])
  }

  /** The primitive branch: the type normalised, a falsy `required` and the
      `isArray` flag dropped. */
  function PrimitiveSchema(prop: Object): (r: Value)
    ensures IsPrimitiveSchemaOf(prop, r)
  {
    var typed := prop["type" := Str(PropertyType(Get(prop, "type")))];
    var withRequired := if !Truthy(Get(typed, "required")) then typed - {"required"} else typed;
    Obj(withRequired - {"isArray"})
  }

  /** The metadata after the primitive branch has stored the normalised
      `type` back into it (the source assigns `prop.type` on the stored
      metadata object before copying it). */
  function NormalisedRegistry(reg: Registry, name: string, key: string): Registry
    requires name in reg && key in reg[name].properties
  {
    var props := reg[name].properties;
    var prop := props[key];
    reg[name := reg[name].(properties := props[key := prop["type" := Str(PropertyType(Get(prop, "type")))]])]
  }

  /** Storing the normalised type back is harmless: building the property
      again from the updated metadata gives the same schema. */
  lemma NormalisationIsHarmless(reg: Registry, rank: map<string, nat>, name: string, key: string)
    requires WellRanked(reg, rank) && name in reg && key in reg[name].properties
    requires !Truthy(Get(reg[name].properties[key], "isArray"))
    requires !IsModelType(Get(reg[name].properties[key], "type"))
    ensures WellRanked(NormalisedRegistry(reg, name, key), rank)
    ensures BuildSchemaProperty(NormalisedRegistry(reg, name, key), rank, name, key)
         == BuildSchemaProperty(reg, rank, name, key)
  {
    var reg' := NormalisedRegistry(reg, name, key);
    var prop := reg[name].properties[key];
    var prop' := reg'[name].properties[key];
    assert Get(prop', "type") == Str(PropertyType(Get(prop, "type")));
    assert prop'["type" := Str(PropertyType(Get(prop', "type")))] == prop["type" := Str(PropertyType(Get(prop, "type")))];
  }
}
