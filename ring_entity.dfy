/**
 * `core/RingObjects/RingEntity.py`: an entity of the ring, with its table,
 * identifier columns and attributes.
 */
module RingEntities {

  import opened Wrappers
  import opened Dicts
  import opened Json
  import opened ArgTypes
  import opened RingObject
  import opened RingAttributes

  /**
   * The fields of a `RingEntity`. Its attributes are kept as the values of
   * the `RingAttribute` objects the entity creates.
   */
  datatype EntityState = EntityState(
    id: Option<seq<Json>>,
    idType: Option<seq<Json>>,
    name: Json,
    nicename: Json,
    primaryTable: Json,
    reference: Json,
    attributes: Dict<AttributeState>,
    metrics: Json,
    attributeName: seq<string>)

  /** A new entity: identified by an integer `id` column, with no attributes or metrics. */
  const NewEntity: EntityState :=
    EntityState(Some([JStr("id")]), Some([JStr("integer")]), JNull, JNull, JNull, JNull, [], JObj([]), [])

  /** The first lines of `parse`: name, nicename (default twice the name), reference, table and id columns. */
  function ParseEntityHead(s: EntityState, config: Dict<Json>): EntityState
  {
    var name := Field(config, "name");
    s.(name := name, nicename := GetOr(config, "nicename", JList([name, name])),
      reference := Field(config, "reference"), primaryTable := Field(config, "table"),
      id := SafeExtractList("id", config), idType := SafeExtractList("idType", config))
  }

  /** The nicename defaults to the name, twice. */
  lemma NicenameDefault(s: EntityState, config: Dict<Json>)
    requires !HasKey(config, "nicename")
    ensures ParseEntityHead(s, config).nicename == JList([Field(config, "name"), Field(config, "name")])
  {
  }

  /** A missing or falsy `id` or `idType` becomes None, replacing the defaults. */
  lemma MissingIdIsNone(s: EntityState, config: Dict<Json>)
    requires !HasKey(config, "id")
    ensures ParseEntityHead(s, config).id == None
  {
  }

  /** `RingAttribute(entity_config)` followed by `parse(name, info)`. */
  function ParseItem(parent: Json, name: string, info: Json): Result<AttributeState>
  {
    if !info.JObj? then Err(AttributeError("object has no attribute 'get'"))
    else ParseAttribute(NewAttribute(parent), name, info.fields)
  }

  /** The parser the loop of `parse_attributes` applies to each entry of `entity_config`. */
  function ItemParser(config: Dict<Json>): (string, Json) -> Result<AttributeState>
  {
    (name: string, info: Json) => ParseItem(JObj(config), name, info)
  }

  /**
   * The loop of `parse_attributes` from the given attributes and names
   * over the remaining items: each parsed attribute is stored under its
   * name and the name appended; the first exception stops the loop.
   */
  function ParseItems(parse: (string, Json) -> Result<AttributeState>, attrs: Dict<AttributeState>,
    names: seq<string>, items: Dict<Json>): (Dict<AttributeState>, seq<string>, Option<Error>)
    decreases |items|
  {
    if items == [] then (attrs, names, None)
    else
      match parse(items[0].0, items[0].1)
      case Err(e) => (attrs, names, Some(e))
      case Ok(a) => ParseItems(parse, Put(attrs, items[0].0, a), names + [items[0].0], items[1..])
  }

  /** Without an exception, every configured name is appended, in configuration order, and has its attribute. */
  lemma {:induction false} ParseItemsNames(parse: (string, Json) -> Result<AttributeState>,
    attrs: Dict<AttributeState>, names: seq<string>, items: Dict<Json>)
    requires ParseItems(parse, attrs, names, items).2.None?
    decreases |items|
    ensures ParseItems(parse, attrs, names, items).1 == names + Keys(items)
    ensures forall k :: 0 <= k < |items| ==> HasKey(ParseItems(parse, attrs, names, items).0, items[k].0)
  {
    if items != [] {
      var a := parse(items[0].0, items[0].1).value;
      var attrs' := Put(attrs, items[0].0, a);
      ParseItemsNames(parse, attrs', names + [items[0].0], items[1..]);
      assert Keys(items) == [items[0].0] + Keys(items[1..]);
      PutGet(attrs, items[0].0, a, items[0].0);
      ParseItemsKeep(parse, attrs', names + [items[0].0], items[1..], items[0].0);
      forall k | 1 <= k < |items| ensures HasKey(ParseItems(parse, attrs, names, items).0, items[k].0) {
        assert items[k] == items[1..][k - 1];
      }
    }
  }

  /** A name that already has an attribute keeps one through the loop. */
  lemma {:induction false} ParseItemsKeep(parse: (string, Json) -> Result<AttributeState>,
    attrs: Dict<AttributeState>, names: seq<string>, items: Dict<Json>, key: string)
    requires HasKey(attrs, key)
    decreases |items|
    ensures HasKey(ParseItems(parse, attrs, names, items).0, key)
  {
    if items != [] && parse(items[0].0, items[0].1).Ok? {
      var a := parse(items[0].0, items[0].1).value;
      PutGet(attrs, items[0].0, a, key);
      ParseItemsKeep(parse, Put(attrs, items[0].0, a), names + [items[0].0], items[1..], key);
    }
  }

  /** `parse_attributes(entity_config)`: no `attributes` key changes nothing. */
  function ParseAttributesOf(s: EntityState, config: Dict<Json>): (EntityState, Option<Error>)
  {
    if !HasKey(config, "attributes") then (s, None)
    else
      var attributes := Field(config, "attributes");
      if !attributes.JObj? then (s, Some(AttributeError("object has no attribute 'items'")))
      else
        var r := ParseItems(ItemParser(config), s.attributes, s.attributeName, attributes.fields);
        (s.(attributes := r.0, attributeName := r.1), r.2)
  }

  /** `parse_metrics(entity_config)`. */
  function ParseMetricsOf(s: EntityState, config: Dict<Json>): EntityState
  {
    if HasKey(config, "metrics") then s.(metrics := Field(config, "metrics")) else s
  }

  /** `parse(entity_config)`: the new state, and the exception an attribute raised, if any. */
  function ParseEntity(s: EntityState, config: Dict<Json>): (EntityState, Option<Error>)
  {
    var r := ParseAttributesOf(ParseEntityHead(s, config), config);
    if r.1.None? then (ParseMetricsOf(r.0, config), None) else r
  }

  /** A fresh entity parsed without an exception lists its attributes' names in configuration order. */
  lemma ParsedAttributeNames(config: Dict<Json>)
    requires Field(config, "attributes").JObj? && ParseEntity(NewEntity, config).1.None?
    ensures var t := ParseEntity(NewEntity, config).0;
      var items := Field(config, "attributes").fields;
      t.attributeName == Keys(items) && forall k :: 0 <= k < |items| ==> HasKey(t.attributes, items[k].0)
  {
    var h := ParseEntityHead(NewEntity, config);
    ParseItemsNames(ItemParser(config), h.attributes, h.attributeName, Field(config, "attributes").fields);
  }

  /**
   * `get_attributes_with_type(t)`: the attributes whose type list holds
   * `t`, in dictionary order; an attribute whose type list is None makes
   * the membership test raise.
   */
  function AttributesWithType(attrs: Dict<AttributeState>, t: ArgType): (r: Result<seq<AttributeState>>)
    ensures r.Ok? <==> forall k :: 0 <= k < |attrs| ==> attrs[k].1.types.Some?
    ensures r.Ok? ==> forall a :: a in r.value <==> ((exists k :: 0 <= k < |attrs| && attrs[k].1 == a) &&
      a.types.Some? && t in a.types.value)
  {
    if attrs == [] then Ok([])
    else if attrs[0].1.types.None? then Err(TypeError("argument of type 'NoneType' is not iterable"))
    else
      match AttributesWithType(attrs[1..], t)
      case Err(e) => Err(e)
      case Ok(rest) =>
        assert forall k :: 1 <= k < |attrs| ==> attrs[k] == attrs[1..][k - 1];
        assert forall k :: 0 <= k < |attrs[1..]| ==> attrs[1..][k] == attrs[k + 1];
        Ok((if t in attrs[0].1.types.value then [attrs[0].1] else []) + rest)
  }

  /** The selected attributes keep their dictionary order: the result is a subsequence. */
  lemma {:induction false} AttributesWithTypeOrder(attrs: Dict<AttributeState>, t: ArgType)
    requires AttributesWithType(attrs, t).Ok?
    ensures |AttributesWithType(attrs, t).value| <= |attrs|
    ensures AttributesWithType(attrs, t).value == [] <==>
      forall k :: 0 <= k < |attrs| ==> t !in attrs[k].1.types.value
  {
    if attrs != [] {
      AttributesWithTypeOrder(attrs[1..], t);
      assert forall k :: 1 <= k < |attrs| ==> attrs[k] == attrs[1..][k - 1];
    }
  }

  /** The messages `is_valid` records about the entity's own fields. */
  function EntityFieldErrors(s: EntityState): set<string>
  {
    (if s.name == JNull then {"Ring Entity 'name' is missing."} else {}) +
    (if s.primaryTable == JNull then {"Ring Entity 'Table' is missing."} else {}) +
    (if s.id.None? then {"Ring Attribute 'id' is missing."} else {}) +
    (if s.idType.None? then {"Ring Attribute 'id type' is missing."} else {})
  }

  /**
   * The attribute loop of `is_valid` over the remaining attributes: true
   * when some attribute reports invalid, or the exception the first
   * attribute without a type list raises.
   */
  function SomeAttributeInvalid(attrs: Dict<AttributeState>): (r: Result<bool>)
    ensures r.Ok? <==> forall k :: 0 <= k < |attrs| ==> attrs[k].1.types.Some?
    ensures r.Ok? ==> (r.value <==> exists k :: 0 <= k < |attrs| && !AttributeValidity(attrs[k].1, {}).value.0)
  {
    if attrs == [] then Ok(false)
    else
      match AttributeValidity(attrs[0].1, {})
      case Err(e) => Err(e)
      case Ok(v) =>
        match SomeAttributeInvalid(attrs[1..])
        case Err(e) => Err(e)
        case Ok(b) =>
          assert forall k :: 1 <= k < |attrs| ==> attrs[k] == attrs[1..][k - 1];
          assert forall k :: 0 <= k < |attrs[1..]| ==> attrs[1..][k] == attrs[k + 1];
          Ok(!v.0 || b)
  }

  /** `is_valid()` on a snapshot with a prior error set: (valid, error set), or the exception. */
  function EntityValidity(s: EntityState, prior: set<string>): (r: Result<(bool, set<string>)>)
    ensures r.Ok? ==> (r.value.0 <==> r.value.1 == {})
  {
    match SomeAttributeInvalid(s.attributes)
    case Err(e) => Err(e)
    case Ok(invalid) =>
      var errors := prior + EntityFieldErrors(s) + (if invalid then {"Ring Attribute is invalid."} else {});
      Ok((errors == {}, errors))
  }

  /**
   * A fresh entity is valid exactly when its name, table and id columns
   * are present and each of its attributes reports itself valid.
   */
  lemma EntityValidIff(s: EntityState)
    requires forall k :: 0 <= k < |s.attributes| ==> s.attributes[k].1.types.Some?
    ensures EntityValidity(s, {}).Ok?
    ensures EntityValidity(s, {}).value.0 <==>
      s.name != JNull && s.primaryTable != JNull && s.id.Some? && s.idType.Some? &&
      forall k :: 0 <= k < |s.attributes| ==> AttributeValidity(s.attributes[k].1, {}).value.0
  {
    if s.name == JNull { assert "Ring Entity 'name' is missing." in EntityFieldErrors(s); }
    if s.primaryTable == JNull { assert "Ring Entity 'Table' is missing." in EntityFieldErrors(s); }
    if s.id.None? { assert "Ring Attribute 'id' is missing." in EntityFieldErrors(s); }
    if s.idType.None? { assert "Ring Attribute 'id type' is missing." in EntityFieldErrors(s); }
  }

  /** `RingAttribute(entity_config)` followed by `parse(name, info)`, on a new object. */
  method NewParsedAttribute(parent: Json, name: string, info: Json) returns (r: Result<AttributeState>)
    ensures r == ParseItem(parent, name, info)
  {
    if !info.JObj? {
      return Err(AttributeError("object has no attribute 'get'"));
    }
    var attribute := new RingAttribute(parent);
    var raised := attribute.Parse(name, info.fields);
    if raised.Some? {
      return Err(raised.value);
    }
    return Ok(attribute.Snap());
  }

  class RingEntity {
    var id: Option<seq<Json>>
    var idType: Option<seq<Json>>
    var name: Json
    var nicename: Json
    var primaryTable: Json
    var reference: Json
    var attributes: Dict<AttributeState>
    var metrics: Json
    var attributeName: seq<string>
    var errorSet: set<string>

    function Snap(): EntityState
      reads this
    {
      EntityState(id, idType, name, nicename, primaryTable, reference, attributes, metrics, attributeName)
    }

    constructor()
      ensures Snap() == NewEntity && errorSet == {}
    {
      id, idType := Some([JStr("id")]), Some([JStr("integer")]);
      name, nicename, primaryTable, reference := JNull, JNull, JNull, JNull;
      attributes, metrics, attributeName := [], JObj([]), [];
      errorSet := {};
    }

    /** `parse(entity_config)`: the fields up to the attribute loop, then the loop, then the metrics. */
    method Parse(config: Dict<Json>) returns (raised: Option<Error>)
      modifies this
      ensures (Snap(), raised) == ParseEntity(old(Snap()), config) && errorSet == old(errorSet)
    {
      var head := ParseEntityHead(Snap(), config);
      SetHead(head);
      assert Snap() == head;
      raised := ParseAttributes(config);
      if raised == None {
        ParseMetrics(config);
      }
    }

    method SetHead(t: EntityState)
      modifies this`id, this`idType, this`name, this`nicename, this`primaryTable, this`reference
      ensures id == t.id && idType == t.idType && name == t.name && nicename == t.nicename
      ensures primaryTable == t.primaryTable && reference == t.reference
    {
      id, idType, name, nicename, primaryTable, reference := t.id, t.idType, t.name, t.nicename, t.primaryTable,
        t.reference;
    }

    /**
     * `parse_attributes(entity_config)`: one `RingAttribute` per configured
     * entry, parsed and stored under its name, which is appended to
     * `attribute_name`. An exception from an attribute stops the loop with
     * the earlier attributes kept.
     */
    method ParseAttributes(config: Dict<Json>) returns (raised: Option<Error>)
      modifies this`attributes, this`attributeName
      ensures (Snap(), raised) == ParseAttributesOf(old(Snap()), config)
    {
      if !HasKey(config, "attributes") {
        return None;
      }
      var items := Field(config, "attributes");
      if !items.JObj? {
        return Some(AttributeError("object has no attribute 'items'"));
      }
      var entries := items.fields;
      ghost var goal := ParseItems(ItemParser(config), attributes, attributeName, entries);
      var i := 0;
      raised := None;
      while i < |entries|
        invariant 0 <= i <= |entries|
        invariant ParseItems(ItemParser(config), attributes, attributeName, entries[i..]) == goal
        invariant unchanged(this`id, this`idType, this`name, this`nicename, this`primaryTable, this`reference,
          this`metrics)
        decreases |entries| - i
      {
        var key, info := entries[i].0, entries[i].1;
        assert entries[i..][1..] == entries[i + 1..];
        var parsed := NewParsedAttribute(JObj(config), key, info);
        assert ItemParser(config)(key, info) == parsed;
        if parsed.Err? {
          return Some(parsed.error);
        }
        attributeName := attributeName + [key];
        attributes := Put(attributes, key, parsed.value);
        i := i + 1;
      }
    }

    /** `parse_metrics(entity_config)`. */
    method ParseMetrics(config: Dict<Json>)
      modifies this`metrics
      ensures Snap() == ParseMetricsOf(old(Snap()), config)
    {
      if HasKey(config, "metrics") {
        metrics := Field(config, "metrics");
      }
    }

    /** `get_attributes_with_type(attr_type)`. */
    function GetAttributesWithType(t: ArgType): (r: Result<seq<AttributeState>>)
      reads this
      ensures r == AttributesWithType(attributes, t)
    {
      AttributesWithType(attributes, t)
    }

    /**
     * `is_valid()`: a message per missing field, then one if any attribute
     * reports itself invalid; the attributes' checks are those of
     * `AttributeValidity` on their values.
     */
    method IsValid() returns (r: Result<(bool, set<string>)>)
      modifies this`errorSet
      ensures r.Err? ==> errorSet == old(errorSet) + EntityFieldErrors(Snap())
      ensures r.Ok? ==> r.value.1 == errorSet
      ensures r == EntityValidity(Snap(), old(errorSet))
    {
      errorSet := errorSet + EntityFieldErrors(Snap());
      var i := 0;
      var invalid := false;
      while i < |attributes|
        invariant 0 <= i <= |attributes|
        invariant errorSet == old(errorSet) + EntityFieldErrors(Snap())
        invariant SomeAttributeInvalid(attributes) ==
          match SomeAttributeInvalid(attributes[i..])
          case Err(e) => Err(e)
          case Ok(b) => Ok(invalid || b)
        decreases |attributes| - i
      {
        assert attributes[i..][1..] == attributes[i + 1..];
        var v := AttributeValidity(attributes[i].1, {});
        assert SomeAttributeInvalid(attributes[i..]) == if v.Err? then Err(v.error) else
          match SomeAttributeInvalid(attributes[i + 1..])
          case Err(e) => Err(e)
          case Ok(b) => Ok(!v.value.0 || b);
        if v.Err? {
          return Err(v.error);
        }
        if !v.value.0 {
          invalid := true;
        }
        i := i + 1;
      }
      assert attributes[i..] == [];
      assert SomeAttributeInvalid(attributes) == Ok(invalid);
      if invalid {
        errorSet := errorSet + {"Ring Attribute is invalid."};
      }
      r := Ok((errorSet == {}, errorSet));
      assert errorSet == old(errorSet) + EntityFieldErrors(Snap()) + (if invalid then {"Ring Attribute is invalid."} else {});
      assert SomeAttributeInvalid(Snap().attributes) == Ok(invalid);
    }
  }
}
