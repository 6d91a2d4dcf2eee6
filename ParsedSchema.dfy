/**
 * The schema translator `ParsedSchema`: turns a JSON-Schema-like tool input
 * description into the parameter descriptors of the Gemini function-calling
 * API and the list of required parameter names.
 *
 * It reads a subset of JSON Schema 2020-12: `type` (section 6.1.1 of the
 * Validation vocabulary), `enum` (6.1.2), `required` (6.5.3), `items`
 * (section 10.3.1.2 of the Core specification) and `properties` (10.3.2.1),
 * plus the non-standard `name`, `description` and `format` members.
 *
 * `Parse` is the meaning of `parse` / `parseObject`; `parse(x.toString())`
 * reads back the object it is given, so both are `Parse` of the object.
 * `ParseObject` is the imperative `for` loop of the source, proved to
 * compute `Parse`.
 */
module SchemaTranslation {
  import opened Common
  import opened JsonValue

  /** The kinds of `com.google.ai.client.generativeai.type.Schema` the translator builds. */
  datatype Kind =
    | Str                          // Schema.str
    | Enum(values: seq<string>)    // Schema.enum
    | Int                          // Schema.int
    | Long                         // Schema.long
    | Double                       // Schema.double
    | Bool                         // Schema.bool
    | Arr(item: Option<Param>)     // Schema.arr, with or without an item schema
    | Obj(children: seq<Param>)    // Schema.obj

  datatype Param = Param(name: string, description: string, kind: Kind)

  datatype ParsedSchema = ParsedSchema(parameters: seq<Param>, requiredParameters: seq<string>)

  /** The org.json exceptions the translator lets escape. */
  datatype SchemaError =
    | SchemaTextNotAnObject          // `JSONObject(text)` on text that is not an object
    | PropertyNotAnObject(key: string) // `properties.getJSONObject(key)`
    | EnumNotAnArray(name: string)     // `getJSONArray("enum")`

  const KnownTypes: set<string> := {"string", "integer", "number", "boolean", "array", "object"}

  /** A node with a `type` and no `properties` is translated as one scalar parameter. */
  predicate IsScalarNode(node: seq<Member>) {
    Has(node, "type") && !Has(node, "properties")
  }

  /** The `type` of a property; a property without one is taken to be an object. */
  function DeclaredType(property: seq<Member>): string {
    if Has(property, "type") then GetString(property, "type") else "object"
  }

  /** The `required` array as strings; a missing or non-array value gives none. */
  function RequiredNames(node: seq<Member>): seq<string> {
    match OptArray(node, "required")
    case Some(items) => Texts(items)
    case None => []
  }

  /** `firstOrNull()` */
  function First(ps: seq<Param>): Option<Param> {
    if |ps| == 0 then None else Some(ps[0])
  }

  /** `parseObject`: the translation of one schema object. */
  function Parse(node: seq<Member>): Result<ParsedSchema, SchemaError>
    decreases MembersSize(node), 1
  {
    if IsScalarNode(node) then
      var t := GetString(node, "type");
      var p :- CreateSchemaForType(t, OptString(node, "name", "value"), OptString(node, "description", t), node);
      Ok(ParsedSchema([p], []))
    else
      match OptObject(node, "properties")
      case None => Ok(ParsedSchema([], []))
      case Some(props) =>
        var ps :- ParseProperties(props);
        Ok(ParsedSchema(ps, RequiredNames(node)))
  }

  /**
   * The parameters of `properties`, one per key in `keys()` order, each
   * read with `getJSONObject(key)`; the first failure wins.
   */
  function ParseProperties(props: seq<Member>): Result<seq<Param>, SchemaError>
    decreases MembersSize(props), 5
  {
    ParseKeys(props, KeyOrder(props))
  }

  /** The loop over the keys `keys`, in order. */
  function ParseKeys(props: seq<Member>, keys: seq<string>): Result<seq<Param>, SchemaError>
    decreases MembersSize(props), 4, |keys|
  {
    if |keys| == 0 then Ok([])
    else
      var init :- ParseKeys(props, keys[..|keys| - 1]);
      var p :- KeyParam(props, keys[|keys| - 1]);
      Ok(init + [p])
  }

  /** One iteration of the property loop: `getJSONObject(key)`, then its parameter. */
  function KeyParam(props: seq<Member>, key: string): Result<Param, SchemaError>
    decreases MembersSize(props), 3
  {
    match Get(props, key)
    case Some(value) => PropertyParam(Member(key, value))
    case None => Err(PropertyNotAnObject(key))
  }

  /** The parameter of one property object, named by its key. */
  function PropertyParam(m: Member): Result<Param, SchemaError>
    decreases Size(m.value), 2
  {
    match m.value
    case JObj(property) =>
      var t := DeclaredType(property);
      CreateSchemaForType(t, m.key, OptString(property, "description", t), property)
    case _ => Err(PropertyNotAnObject(m.key))
  }

  /** `createSchemaForType`: the parameter of one declared type. */
  function CreateSchemaForType(t: string, name: string, description: string, obj: seq<Member>): Result<Param, SchemaError>
    decreases MembersSize(obj), if OptObject(obj, "properties").Some? then 2 else 0
  {
    if t == "string" then
      if Has(obj, "enum") then
        match OptArray(obj, "enum")
        case Some(items) => Ok(Param(name, description, Enum(Texts(items))))
        case None => Err(EnumNotAnArray(name))
      else Ok(Param(name, description, Str))
    else if t == "integer" then
      Ok(Param(name, description, if OptString(obj, "format", "") == "int64" then Long else Int))
    else if t == "number" then Ok(Param(name, description, Double))
    else if t == "boolean" then Ok(Param(name, description, Bool))
    else if t == "array" then
      match OptObject(obj, "items")
      case Some(items) =>
        var nested :- Parse(items);
        Ok(Param(name, description, Arr(First(nested.parameters))))
      case None => Ok(Param(name, description, Arr(None)))
    else if t == "object" then
      match OptObject(obj, "properties")
      case Some(_) =>
        var nested :- Parse(obj);
        Ok(Param(name, description, Obj(nested.parameters)))
      case None => Ok(Param(name, description, Obj([])))
    else Ok(Param(name, description, Str))
  }

  /** The JSON Schema type name a parameter kind stands for. */
  function SchemaType(k: Kind): string {
    match k
    case Str => "string"
    case Enum(_) => "string"
    case Int => "integer"
    case Long => "integer"
    case Double => "number"
    case Bool => "boolean"
    case Arr(_) => "array"
    case Obj(_) => "object"
  }

  /**
   * `parseObject` as the source writes it: the scalar case, then a loop that
   * appends one parameter per property to a mutable list.
   */
  method ParseObject(node: seq<Member>) returns (r: Result<ParsedSchema, SchemaError>)
    ensures r == Parse(node)
  {
    if IsScalarNode(node) {
      var t := GetString(node, "type");
      var description := OptString(node, "description", t);
      var name := OptString(node, "name", "value");
      var parameter := CreateSchemaForType(t, name, description, node);
      if parameter.Err? {
        return Err(parameter.error);
      }
      return Ok(ParsedSchema([parameter.value], []));
    }
    var properties := OptObject(node, "properties");
    var required := RequiredNames(node);
    if properties.None? {
      return Ok(ParsedSchema([], []));
    }
    var props := properties.value;
    var keys := KeyOrder(props);
    var parameters: seq<Param> := [];
    var i := 0;
    while i < |keys|
      invariant 0 <= i <= |keys|
      invariant ParseKeys(props, keys[..i]) == Ok(parameters)
    {
      var key := keys[i];
      KeysStep(props, keys, i);
      var value := Get(props, key);
      if !(value.Some? && value.value.JObj?) {
        ParseKeysKeepsFailure(props, keys, i + 1);
        return Err(PropertyNotAnObject(key));
      }
      var property := value.value.members;
      var t := "object";
      if Has(property, "type") {
        t := GetString(property, "type");
      }
      var description := OptString(property, "description", t);
      var schema := CreateSchemaForType(t, key, description, property);
      if schema.Err? {
        ParseKeysKeepsFailure(props, keys, i + 1);
        return Err(schema.error);
      }
      parameters := parameters + [schema.value];
      i := i + 1;
    }
    assert keys[..|keys|] == keys;
    r := Ok(ParsedSchema(parameters, required));
  }

  /** Once the loop fails on a prefix of the keys, the whole loop fails with that error. */
  lemma {:induction false} ParseKeysKeepsFailure(props: seq<Member>, keys: seq<string>, k: nat)
    requires k <= |keys|
    requires ParseKeys(props, keys[..k]).Err?
    ensures ParseKeys(props, keys) == ParseKeys(props, keys[..k])
    decreases |keys| - k
  {
    if k < |keys| {
      var n := |keys|;
      assert keys[..n - 1][..k] == keys[..k];
      ParseKeysKeepsFailure(props, keys[..n - 1], k);
    } else {
      assert keys[..k] == keys;
    }
  }

  /**
   * A node with `type` and no `properties` gives exactly one parameter and no
   * required names; the parameter is named by `name` (default "value") and
   * described by `description` (default: the type).
   */
  lemma ScalarNodeGivesOneParameter(node: seq<Member>)
    requires IsScalarNode(node)
    ensures var t := GetString(node, "type");
      var r := Parse(node);
      && (r.Ok? <==> CreateSchemaForType(t, OptString(node, "name", "value"), OptString(node, "description", t), node).Ok?)
      && (r.Ok? ==>
            && |r.value.parameters| == 1
            && r.value.requiredParameters == []
            && r.value.parameters[0].name == OptString(node, "name", "value")
            && r.value.parameters[0].description == OptString(node, "description", t))
  {
    var t := GetString(node, "type");
    CreateSchemaForTypeNamesParameter(t, OptString(node, "name", "value"), OptString(node, "description", t), node);
  }

  /** A node that is neither scalar nor has an object `properties` gives nothing, even with `required`. */
  lemma NoPropertiesGivesNothing(node: seq<Member>)
    requires !IsScalarNode(node) && OptObject(node, "properties").None?
    ensures Parse(node) == Ok(ParsedSchema([], []))
  {
  }

  /**
   * `required` is copied from the `required` array when the node has
   * properties; a missing or non-array `required` gives an empty list and
   * never makes the translation fail.
   */
  lemma RequiredIsCopied(node: seq<Member>)
    requires !IsScalarNode(node) && OptObject(node, "properties").Some?
    ensures Parse(node).Ok? <==> ParseProperties(OptObject(node, "properties").value).Ok?
    ensures Parse(node).Ok? && OptArray(node, "required").Some? ==>
      Parse(node).value.requiredParameters == Texts(OptArray(node, "required").value)
    ensures Parse(node).Ok? && OptArray(node, "required").None? ==>
      Parse(node).value.requiredParameters == []
  {
  }

  /** One turn of the property loop, stated on the prefix of the keys it has walked. */
  lemma KeysStep(props: seq<Member>, keys: seq<string>, i: nat)
    requires i < |keys|
    ensures var init := ParseKeys(props, keys[..i]);
      var step := KeyParam(props, keys[i]);
      var value := Get(props, keys[i]);
      && (!(value.Some? && value.value.JObj?) ==> step == Err(PropertyNotAnObject(keys[i])))
      && (value.Some? && value.value.JObj? ==>
            var property := value.value.members;
            var t := DeclaredType(property);
            step == CreateSchemaForType(t, keys[i], OptString(property, "description", t), property))
      && ParseKeys(props, keys[..i + 1]) ==
           if init.Err? then Err(init.error)
           else if step.Err? then Err(step.error)
           else Ok(init.value + [step.value])
  {
    assert keys[..i + 1][..i] == keys[..i];
  }

  /** `ps` holds, in order, the parameter of every key of `props`, in `keys()` order. */
  ghost predicate OnePerKey(props: seq<Member>, ps: seq<Param>) {
    && |ps| == |KeyOrder(props)|
    && forall i :: 0 <= i < |ps| ==> KeyParam(props, KeyOrder(props)[i]) == Ok(ps[i])
  }

  /** The loop over any list of keys gives one parameter per key, in order, or the first failure. */
  lemma {:induction false} OneParameterPerKey(props: seq<Member>, keys: seq<string>)
    ensures ParseKeys(props, keys).Ok? <==> forall i :: 0 <= i < |keys| ==> KeyParam(props, keys[i]).Ok?
    ensures ParseKeys(props, keys).Ok? ==>
      && |ParseKeys(props, keys).value| == |keys|
      && forall i :: 0 <= i < |keys| ==> KeyParam(props, keys[i]) == Ok(ParseKeys(props, keys).value[i])
    decreases |keys|
  {
    if |keys| > 0 {
      var n := |keys|;
      var init := keys[..n - 1];
      OneParameterPerKey(props, init);
      var ri := ParseKeys(props, init);
      var rp := KeyParam(props, keys[n - 1]);
      if ri.Err? {
        var j :| 0 <= j < n - 1 && !KeyParam(props, init[j]).Ok?;
        assert init[j] == keys[j];
      } else if rp.Ok? {
        var ps := ri.value + [rp.value];
        forall i | 0 <= i < n
          ensures KeyParam(props, keys[i]) == Ok(ps[i])
        {
          if i < n - 1 {
            assert init[i] == keys[i];
          }
        }
      }
    }
  }

  /**
   * Exactly one parameter per distinct key of `properties`, in `keys()`
   * order, each translated from the key's last value; the loop succeeds iff
   * every key's property does.
   */
  lemma OneParameterPerProperty(props: seq<Member>)
    ensures var keys := KeyOrder(props);
      ParseProperties(props).Ok? <==> forall i :: 0 <= i < |keys| ==> KeyParam(props, keys[i]).Ok?
    ensures ParseProperties(props).Ok? ==> OnePerKey(props, ParseProperties(props).value)
    ensures forall k :: k in KeyOrder(props) ==>
      KeyParam(props, k) == PropertyParam(Member(k, Get(props, k).value))
  {
    assert ParseProperties(props) == ParseKeys(props, KeyOrder(props));
    OneParameterPerKey(props, KeyOrder(props));
    forall k | k in KeyOrder(props)
      ensures KeyParam(props, k) == PropertyParam(Member(k, Get(props, k).value))
    {
      assert k in Keys(props);
    }
  }

  /**
   * A key that appears twice in `properties` gives one parameter, at its
   * first place, translated from its last value.
   */
  lemma RepeatedKeyGivesOneParameter()
    ensures var props := [Member("a", JObj([Member("type", JStr("string"))])),
                          Member("a", JObj([Member("type", JStr("integer"))]))];
      ParseProperties(props) == Ok([Param("a", "integer", Int)])
  {
    var props := [Member("a", JObj([Member("type", JStr("string"))])),
                  Member("a", JObj([Member("type", JStr("integer"))]))];
    var property := [Member("type", JStr("integer"))];
    assert props[..1][..0] == [];
    assert KeyOrder(props[..1]) == ["a"];
    assert KeyOrder(props) == ["a"];
    assert Get(props, "a") == Some(JObj(property));
    IntegerProperty("a");
    assert KeyParam(props, "a") == Ok(Param("a", "integer", Int));
    OneKeyWalk(props, "a");
  }

  /** `{"type":"integer"}` under `key` gives an Int parameter named `key`, described "integer". */
  lemma IntegerProperty(key: string)
    ensures PropertyParam(Member(key, JObj([Member("type", JStr("integer"))]))) == Ok(Param(key, "integer", Int))
  {
    var property := [Member("type", JStr("integer"))];
    assert Get(property, "type") == Some(JStr("integer"));
    assert Get(property, "description") == None;
    assert Get(property, "format") == None;
    assert DeclaredType(property) == "integer";
    assert OptString(property, "description", "integer") == "integer";
  }

  /** Walking a single key gives that key's parameter alone. */
  lemma OneKeyWalk(props: seq<Member>, key: string)
    requires KeyParam(props, key).Ok?
    ensures ParseKeys(props, [key]) == Ok([KeyParam(props, key).value])
  {
    assert [key][..0] == [];
    assert ParseKeys(props, []) == Ok([]);
    assert [] + [KeyParam(props, key).value] == [KeyParam(props, key).value];
  }

  /**
   * Each property's parameter is named by its key and described by its
   * `description` (default: its type; a property without `type` is an object).
   */
  lemma PropertyParamNamedByKey(m: Member)
    ensures PropertyParam(m).Ok? ==> m.value.JObj?
    ensures PropertyParam(m).Ok? ==>
      var t := DeclaredType(m.value.members);
      && PropertyParam(m).value.name == m.key
      && PropertyParam(m).value.description == OptString(m.value.members, "description", t)
      && SchemaType(PropertyParam(m).value.kind) == (if t in KnownTypes then t else "string")
  {
    if m.value.JObj? {
      var property := m.value.members;
      var t := DeclaredType(property);
      CreateSchemaForTypeNamesParameter(t, m.key, OptString(property, "description", t), property);
      TypeNameRoundTrip(t, m.key, OptString(property, "description", t), property);
    }
  }

  /** A translated parameter carries the name and description it was given. */
  lemma CreateSchemaForTypeNamesParameter(t: string, name: string, description: string, obj: seq<Member>)
    ensures CreateSchemaForType(t, name, description, obj).Ok? ==>
      && CreateSchemaForType(t, name, description, obj).value.name == name
      && CreateSchemaForType(t, name, description, obj).value.description == description
  {
  }

  /**
   * The type mapping: the kind a translated parameter gets reads back as the
   * declared type when that type is one of the six known ones, and as
   * "string" for every other type; only a malformed `enum` or a failing
   * nested schema makes translation fail, never the type itself.
   */
  lemma TypeNameRoundTrip(t: string, name: string, description: string, obj: seq<Member>)
    ensures t !in {"string", "array", "object"} ==> CreateSchemaForType(t, name, description, obj).Ok?
    ensures CreateSchemaForType(t, name, description, obj).Ok? ==>
      SchemaType(CreateSchemaForType(t, name, description, obj).value.kind) == (if t in KnownTypes then t else "string")
  {
  }

  /** Strings: an `enum` array gives its values in order, otherwise free text. */
  lemma StringParameter(name: string, description: string, obj: seq<Member>)
    ensures var r := CreateSchemaForType("string", name, description, obj);
      && (!Has(obj, "enum") ==> r == Ok(Param(name, description, Str)))
      && (Has(obj, "enum") ==> (r.Ok? <==> OptArray(obj, "enum").Some?))
      && (r.Ok? && Has(obj, "enum") ==>
            && r.value.kind.Enum?
            && |r.value.kind.values| == |OptArray(obj, "enum").value|
            && forall i :: 0 <= i < |r.value.kind.values| ==>
                 r.value.kind.values[i] == Text(OptArray(obj, "enum").value[i]))
  {
  }

  /** Integers are 64-bit only for format "int64"; numbers are doubles, booleans booleans. */
  lemma NumericParameter(t: string, name: string, description: string, obj: seq<Member>)
    requires t in {"integer", "number", "boolean"}
    ensures var r := CreateSchemaForType(t, name, description, obj);
      && r.Ok?
      && (t == "integer" ==> (r.value.kind == Long <==> OptString(obj, "format", "") == "int64"))
      && (t == "integer" ==> r.value.kind in {Int, Long})
      && (t == "number" ==> r.value.kind == Double)
      && (t == "boolean" ==> r.value.kind == Bool)
  {
  }

  /**
   * Arrays: with an `items` object the item is the first parameter of the
   * items' translation (none if it has none); without one there is no item.
   */
  lemma ArrayParameter(name: string, description: string, obj: seq<Member>)
    ensures var r := CreateSchemaForType("array", name, description, obj);
      match OptObject(obj, "items")
      case None => r == Ok(Param(name, description, Arr(None)))
      case Some(items) =>
        && (r.Ok? <==> Parse(items).Ok?)
        && (r.Ok? ==> r.value.kind.Arr?)
        && (r.Ok? && |Parse(items).value.parameters| == 0 ==> r.value.kind.item == None)
        && (r.Ok? && |Parse(items).value.parameters| > 0 ==> r.value.kind.item == Some(Parse(items).value.parameters[0]))
  {
  }

  /**
   * Objects: with nested `properties` the children are exactly one parameter
   * per distinct nested key, in `keys()` order (the nested `required` is dropped); without them the
   * object is empty.
   */
  lemma ObjectParameter(name: string, description: string, obj: seq<Member>)
    ensures var r := CreateSchemaForType("object", name, description, obj);
      match OptObject(obj, "properties")
      case None => r == Ok(Param(name, description, Obj([])))
      case Some(props) =>
        && (r.Ok? <==> ParseProperties(props).Ok?)
        && (r.Ok? ==> r.value.kind == Obj(ParseProperties(props).value))
        && (r.Ok? ==> OnePerKey(props, r.value.kind.children))
  {
    match OptObject(obj, "properties")
    case None =>
    case Some(props) =>
      assert !IsScalarNode(obj);
      OneParameterPerProperty(props);
  }

  /** `{"type":"string"}` is one string parameter named "value", with no required names. */
  lemma FlatStringSchema()
    ensures Parse([Member("type", JStr("string"))]) == Ok(ParsedSchema([Param("value", "string", Str)], []))
  {
    var node := [Member("type", JStr("string"))];
    assert Get(node, "properties") == None;
    assert Get(node, "name") == None;
    assert Get(node, "description") == None;
    assert Get(node, "enum") == None;
  }
}
