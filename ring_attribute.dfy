/**
 * `core/RingObjects/RingAttribute.py`: an attribute of a ring entity, with
 * its semantic types, the table and columns behind it and the joins that
 * reach them.
 */
module RingAttributes {

  import opened Wrappers
  import opened Dicts
  import opened Json
  import opened ArgTypes

  /** Where an attribute's values live: `source_table`, `source_columns`, `source_joins`, `join_required`. */
  datatype AttributeSource = AttributeSource(table: Json, columns: Json, joins: Json, joinRequired: bool)

  /** The null handling, date granularity and rounding fields, which `parse` fills from the defaults file. */
  datatype Formatting = Formatting(
    nullHandling: Json,
    nullValue: Json,
    dateMinGranularity: Json,
    dateMaxGranularity: Json,
    rounding: Json,
    sigFigs: Json)

  /**
   * The fields of a `RingAttribute`. `preaggregated` and `description`
   * are None while they have never been set: the constructor does not
   * create them.
   */
  datatype AttributeState = AttributeState(
    name: Json,
    nicename: Json,
    isa: Json,
    baseIsa: Json,
    types: Option<seq<ArgType>>,
    units: Json,
    targetValue: Json,
    preaggregated: Option<Json>,
    source: AttributeSource,
    parentEntity: Json,
    description: Option<Json>,
    formatting: Formatting,
    accessPlan: Json)

  const NoFormatting: Formatting := Formatting(JNull, JNull, JNull, JNull, JNull, JNull)

  /** A new attribute of the given parent entity: no joins, no join needed, every other field None. */
  function NewAttribute(parentEntity: Json): AttributeState
  {
    AttributeState(JNull, JNull, JNull, JNull, None, JNull, JNull, None, AttributeSource(JNull, JNull, JList([]), false),
      parentEntity, None, NoFormatting, JNull)
  }

  predicate IsDateBound(t: ArgType)
  {
    t == StartDate || t == EndDate
  }

  /** One Datetime for each StartDate or EndDate of `ts`, as the loop of `_update_types_with_parents` collects them. */
  function DateParents(ts: seq<ArgType>): seq<ArgType>
  {
    if ts == [] then []
    else DateParents(ts[..|ts| - 1]) + (if IsDateBound(ts[|ts| - 1]) then [Datetime] else [])
  }

  /** The type list after `_update_types_with_parents`. */
  function WithParents(ts: seq<ArgType>): seq<ArgType>
  {
    ts + [Attribute] + DateParents(ts + [Attribute])
  }

  /** The collected parents are all Datetime, one per StartDate or EndDate. */
  lemma {:induction false} DateParentsCount(ts: seq<ArgType>)
    ensures |DateParents(ts)| == multiset(ts)[StartDate] + multiset(ts)[EndDate]
    ensures forall k :: 0 <= k < |DateParents(ts)| ==> DateParents(ts)[k] == Datetime
  {
    if ts != [] {
      var front := ts[..|ts| - 1];
      DateParentsCount(front);
      assert ts == front + [ts[|ts| - 1]];
      assert multiset(ts) == multiset(front) + multiset{ts[|ts| - 1]};
    }
  }

  /**
   * `_update_types_with_parents`: the original types stay a prefix,
   * Attribute follows them, and the list grows by one plus the number of
   * StartDate and EndDate entries, each adding a Datetime.
   */
  lemma WithParentsShape(ts: seq<ArgType>)
    ensures var r := WithParents(ts);
      |ts| < |r| && r[..|ts|] == ts && r[|ts|] == Attribute &&
      |r| == |ts| + 1 + multiset(ts)[StartDate] + multiset(ts)[EndDate] &&
      forall k :: |ts| < k < |r| ==> r[k] == Datetime
  {
    var r := WithParents(ts);
    DateParentsCount(ts + [Attribute]);
    assert multiset(ts + [Attribute]) == multiset(ts) + multiset{Attribute};
    assert r[..|ts|] == ts;
    forall k | |ts| < k < |r| ensures r[k] == Datetime {
      assert r[k] == DateParents(ts + [Attribute])[k - |ts| - 1];
    }
  }

  /** `[ArgType.from_str(t) for t in labels]`: a label that is not a string has no `lower`. */
  function ParseTypes(labels: seq<Json>): (r: Result<seq<ArgType>>)
    ensures r.Ok? ==> (|r.value| == |labels| &&
      forall k :: 0 <= k < |labels| ==> labels[k].JStr? && FromStr(labels[k].s) == Ok(r.value[k]))
  {
    if labels == [] then Ok([])
    else if !labels[0].JStr? then Err(AttributeError("object has no attribute 'lower'"))
    else
      match FromStr(labels[0].s)
      case Err(e) => Err(e)
      case Ok(t) =>
        match ParseTypes(labels[1..])
        case Err(e) => Err(e)
        case Ok(rest) =>
          assert forall k :: 1 <= k < |labels| ==> labels[k] == labels[1..][k - 1];
          Ok([t] + rest)
  }

  /** The `type` entry as `parse` reads it: the labels' types followed by their parents. */
  function ParseTypeField(j: Json): Result<seq<ArgType>>
  {
    var labels :- Iterate(j);
    var types :- ParseTypes(labels);
    Ok(WithParents(types))
  }

  /** `info['source']`: table, columns and joins, and whether a join is needed, given the parent entity. */
  function ParseSource(parentEntity: Json, source: Json): Result<AttributeSource>
  {
    if !source.JObj? then Err(AttributeError("object has no attribute 'get'"))
    else if !parentEntity.JObj? then Err(TypeError("object is not subscriptable"))
    else if !HasKey(parentEntity.fields, "table") then Err(KeyError("table"))
    else
      var table := Field(source.fields, "table");
      Ok(AttributeSource(table, Field(source.fields, "columns"), GetOr(source.fields, "joins", JList([])),
        table != Field(parentEntity.fields, "table")))
  }

  /** `info['metadata']`: the description. */
  function ParseMetadata(md: Json): Result<Json>
  {
    if md.JObj? then Ok(Field(md.fields, "description")) else Err(AttributeError("object has no attribute 'get'"))
  }

  /**
   * `parse(name, info)` on an attribute in state `s`, lines 65 to 93: the
   * descriptive fields, the types with their parents, the source block
   * when present and the description when a metadata block is present.
   */
  function ParseAttribute(s: AttributeState, name: string, info: Dict<Json>): Result<AttributeState>
  {
    var types :- ParseTypeField(Field(info, "type"));
    var source :- if HasKey(info, "source") then ParseSource(s.parentEntity, Field(info, "source")) else Ok(s.source);
    var md :- if HasKey(info, "metadata") then ParseMetadata(Field(info, "metadata")) else Ok(JNull);
    Ok(s.(name := JStr(name), nicename := Field(info, "nicename"), isa := Field(info, "isa"),
      baseIsa := Field(info, "isa"), units := Field(info, "units"), types := Some(types),
      targetValue := Field(info, "target_value"), preaggregated := Some(GetOr(info, "preaggregated", JBool(false))),
      source := source, description := if HasKey(info, "metadata") then Some(md) else s.description))
  }

  /**
   * A source block sets `join_required` exactly when its table differs
   * from the parent entity's, and the joins default to an empty list.
   */
  lemma SourceJoinRequired(parentEntity: Json, source: Json)
    requires ParseSource(parentEntity, source).Ok?
    ensures var r := ParseSource(parentEntity, source).value;
      r.table == Field(source.fields, "table") && r.columns == Field(source.fields, "columns") &&
      (r.joinRequired <==> Field(source.fields, "table") != Field(parentEntity.fields, "table")) &&
      (HasKey(source.fields, "joins") ==> Get(source.fields, "joins") == Some(r.joins)) &&
      (!HasKey(source.fields, "joins") ==> r.joins == JList([]))
  {
  }

  /** A source block needs a dictionary parent entity with a `table` key. */
  lemma SourceNeedsParentTable(parentEntity: Json, source: Json)
    requires source.JObj?
    ensures ParseSource(parentEntity, source).Ok? <==> parentEntity.JObj? && HasKey(parentEntity.fields, "table")
    ensures parentEntity.JObj? && !HasKey(parentEntity.fields, "table") ==>
      ParseSource(parentEntity, source) == Err(KeyError("table"))
  {
  }

  /** A missing `type` makes `parse` raise, as iterating None does. */
  lemma ParseNeedsTypes(s: AttributeState, name: string, info: Dict<Json>)
    requires !HasKey(info, "type")
    ensures ParseAttribute(s, name, info).Err?
  {
  }

  /** A type list parses to the labels' types, then Attribute, then the Datetime parents. */
  lemma ParsedTypes(labels: seq<Json>)
    requires ParseTypeField(JList(labels)).Ok?
    ensures var ts := ParseTypeField(JList(labels)).value;
      |labels| < |ts| && ts[|labels|] == Attribute &&
      (forall k :: 0 <= k < |labels| ==> labels[k].JStr? && FromStr(labels[k].s) == Ok(ts[k])) &&
      forall k :: |labels| < k < |ts| ==> ts[k] == Datetime
  {
    var types := ParseTypes(labels).value;
    WithParentsShape(types);
    forall k | 0 <= k < |labels| ensures FromStr(labels[k].s) == Ok(WithParents(types)[k]) {
      assert WithParents(types)[k] == WithParents(types)[..|types|][k];
    }
  }

  /** A label that `from_str` rejects makes the whole type list fail with its NotImplementedError. */
  lemma UnknownLabelRejects(labels: seq<Json>, k: nat)
    requires k < |labels| && labels[k].JStr? && FromStr(labels[k].s).Err?
    ensures ParseTypeField(JList(labels)).Err?
  {
  }

  /** The messages `is_valid` records before it reaches the type check. */
  function DescriptionErrors(s: AttributeState): set<string>
  {
    (if s.name == JNull then {"Ring Attribute 'name' is missing."} else {}) +
    (if s.nicename == JNull then {"Attribute 'nicename' is missing."} else {}) +
    (if s.isa == JNull then {"Ring Attribute 'isa' value missing."} else {})
  }

  /** The messages `is_valid` records about the source. */
  function SourceErrors(s: AttributeState): set<string>
  {
    (if s.source.table == JNull then {"Ring Attribute 'table' is missing."} else {}) +
    (if s.source.columns == JNull then {"Ring Attribute 'column' is missing."} else {})
  }

  /** The validity `is_valid` reports when no message was recorded: every field it checks is truthy. */
  predicate AllTruthy(s: AttributeState)
  {
    Truthy(s.name) && Truthy(s.nicename) && Truthy(s.isa) && Truthy(s.source.table) && Truthy(s.source.columns)
  }

  /**
   * On an attribute whose error set starts empty, no message is recorded
   * exactly when every checked field is present; a present but falsy field
   * (an empty name, say) then gives invalid with no message.
   */
  lemma NoMessageIff(s: AttributeState)
    ensures DescriptionErrors(s) + SourceErrors(s) == {} <==>
      s.name != JNull && s.nicename != JNull && s.isa != JNull && s.source.table != JNull && s.source.columns != JNull
  {
    if s.name == JNull { assert "Ring Attribute 'name' is missing." in DescriptionErrors(s); }
    if s.nicename == JNull { assert "Attribute 'nicename' is missing." in DescriptionErrors(s); }
    if s.isa == JNull { assert "Ring Attribute 'isa' value missing." in DescriptionErrors(s); }
    if s.source.table == JNull { assert "Ring Attribute 'table' is missing." in SourceErrors(s); }
    if s.source.columns == JNull { assert "Ring Attribute 'column' is missing." in SourceErrors(s); }
  }

  /** `is_valid` on a snapshot with a prior error set: the Python method's result, or the exception. */
  function AttributeValidity(s: AttributeState, prior: set<string>): (r: Result<(bool, set<string>)>)
    ensures s.types.None? <==> r.Err?
    ensures r.Ok? && r.value.0 ==> AllTruthy(s) && r.value.1 == {}
  {
    if s.types.None? then Err(AttributeError("'NoneType' object has no attribute 'add'"))
    else
      var errors := prior + DescriptionErrors(s) + SourceErrors(s);
      Ok((errors == {} && AllTruthy(s), errors))
  }

  /** A fresh attribute with its types set is valid exactly when the checked fields are all truthy. */
  lemma FreshValidity(s: AttributeState)
    requires s.types.Some?
    ensures AttributeValidity(s, {}).Ok?
    ensures AttributeValidity(s, {}).value.0 <==> AllTruthy(s)
  {
    NoMessageIff(s);
  }

  class RingAttribute {
    var name: Json
    var nicename: Json
    var isa: Json
    var baseIsa: Json
    var types: Option<seq<ArgType>>
    var units: Json
    var targetValue: Json
    var preaggregated: Option<Json>
    var source: AttributeSource
    var parentEntity: Json
    var description: Option<Json>
    var formatting: Formatting
    var accessPlan: Json
    var errorSet: set<string>

    function Snap(): AttributeState
      reads this
    {
      AttributeState(name, nicename, isa, baseIsa, types, units, targetValue, preaggregated, source,
        parentEntity, description, formatting, accessPlan)
    }

    constructor(parent: Json)
      ensures Snap() == NewAttribute(parent) && errorSet == {}
    {
      name, nicename, isa, baseIsa := JNull, JNull, JNull, JNull;
      types := None;
      units, targetValue, preaggregated := JNull, JNull, None;
      source := AttributeSource(JNull, JNull, JList([]), false);
      parentEntity := parent;
      description := None;
      formatting := NoFormatting;
      accessPlan := JNull;
      errorSet := {};
    }

    /**
     * `_update_types_with_parents`: appends Attribute, then walks the
     * list collecting a Datetime per StartDate or EndDate, and extends the
     * list with them.
     */
    method UpdateTypesWithParents()
      requires types.Some?
      modifies this`types
      ensures types == Some(WithParents(old(types).value))
    {
      var ts := types.value;
      var all := ts + [Attribute];
      var newTypes: seq<ArgType> := [];
      var i := 0;
      while i < |all|
        invariant 0 <= i <= |all|
        invariant newTypes == DateParents(all[..i])
      {
        assert all[..i + 1][..i] == all[..i];
        if all[i] == StartDate || all[i] == EndDate {
          newTypes := newTypes + [Datetime];
        }
        i := i + 1;
      }
      assert all[..|all|] == all;
      types := Some(all + newTypes);
    }

    /**
     * `parse(name, info)`, up to the reading of the defaults file: on
     * success the fields become what `ParseAttribute` gives; on an
     * exception the model leaves the fields as they were.
     */
    method Parse(attrName: string, info: Dict<Json>) returns (raised: Option<Error>)
      modifies this
      ensures var r := ParseAttribute(old(Snap()), attrName, info);
        (r.Ok? ==> raised == None && Snap() == r.value) &&
        (r.Err? ==> raised == Some(r.error) && Snap() == old(Snap()))
      ensures errorSet == old(errorSet)
    {
      var r := ParseAttribute(Snap(), attrName, info);
      if r.Ok? {
        SetFields(r.value);
        raised := None;
      } else {
        raised := Some(r.error);
      }
    }

    method SetFields(t: AttributeState)
      modifies this`name, this`nicename, this`isa, this`baseIsa, this`types, this`units, this`targetValue,
        this`preaggregated, this`source, this`parentEntity, this`description, this`formatting, this`accessPlan
      ensures Snap() == t
    {
      SetDescriptive(t);
      SetSourceAndFormat(t);
    }

    method SetDescriptive(t: AttributeState)
      modifies this`name, this`nicename, this`isa, this`baseIsa, this`types, this`units, this`targetValue
      ensures name == t.name && nicename == t.nicename && isa == t.isa && baseIsa == t.baseIsa
      ensures types == t.types && units == t.units && targetValue == t.targetValue
    {
      name, nicename, isa, baseIsa, types, units, targetValue := t.name, t.nicename, t.isa, t.baseIsa, t.types,
        t.units, t.targetValue;
    }

    method SetSourceAndFormat(t: AttributeState)
      modifies this`preaggregated, this`source, this`parentEntity, this`description, this`formatting, this`accessPlan
      ensures preaggregated == t.preaggregated && source == t.source && parentEntity == t.parentEntity
      ensures description == t.description && formatting == t.formatting && accessPlan == t.accessPlan
    {
      preaggregated, source, parentEntity, description, formatting, accessPlan := t.preaggregated, t.source,
        t.parentEntity, t.description, t.formatting, t.accessPlan;
    }

    /**
     * `is_valid()`: records a message per missing field in the persistent
     * error set. A type list of None makes the Python code call `add` on
     * None, which raises after the first three checks have run.
     */
    method IsValid() returns (r: Result<(bool, set<string>)>)
      modifies this`errorSet
      ensures types.None? ==> errorSet == old(errorSet) + DescriptionErrors(Snap())
      ensures types.Some? ==> errorSet == old(errorSet) + DescriptionErrors(Snap()) + SourceErrors(Snap())
      ensures r == AttributeValidity(Snap(), old(errorSet))
    {
      ghost var s := Snap();
      var found := DescriptionErrors(Snap());
      if types == None {
        errorSet := errorSet + found;
        r := Err(AttributeError("'NoneType' object has no attribute 'add'"));
      } else {
        found := found + SourceErrors(Snap());
        errorSet := errorSet + found;
        var allTruthy := Truthy(name) && Truthy(nicename) && Truthy(isa) && Truthy(source.table) &&
          Truthy(source.columns);
        assert allTruthy == AllTruthy(s);
        r := Ok((errorSet == {} && allTruthy, errorSet));
      }
      assert Snap() == s;
    }
  }
}
