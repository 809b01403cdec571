/**
 * `core/Operations/ArgType.py`: the semantic types of operands, their enum
 * values, the case-insensitive parser from labels and the list of all
 * user-facing types.
 */
module ArgTypes {

  import opened Wrappers
  import opened Chars

  datatype ArgType =
    | Arithmetic | Categorical | Document | Datetime | Metric | Identifier
    | Entity | Attribute | Group | Filter | Sort | Limit | RowNum | AttributeCollection
    | String
    | StartDate | EndDate
    | Quantity
    | RelatedIdentifier

  /** The enum member's value. 16, 17 and 20 are unused. */
  function Value(t: ArgType): (v: nat)
    ensures 1 <= v <= 22 && v != 16 && v != 17 && v != 20
  {
    match t
    case Arithmetic => 1
    case Categorical => 2
    case Document => 3
    case Datetime => 4
    case Metric => 5
    case Identifier => 6
    case Entity => 7
    case Attribute => 8
    case Group => 9
    case Filter => 10
    case Sort => 11
    case Limit => 12
    case RowNum => 13
    case AttributeCollection => 14
    case String => 15
    case StartDate => 18
    case EndDate => 19
    case Quantity => 21
    case RelatedIdentifier => 22
  }

  /** The members `from_str` recognises, in the order it tests their labels. */
  const ParseOrder: seq<ArgType> := [Arithmetic, Categorical, Document, Datetime, Metric,
    Identifier, RelatedIdentifier, Entity, Attribute, Group, String, StartDate, EndDate, Quantity]

  /** The first member of `ts` whose lower-case name is `l`. */
  function Find(l: string, ts: seq<ArgType>): (r: Option<ArgType>)
    ensures r.Some? ==> r.value in ts && LowerNameOf(r.value) == l
    ensures r.None? ==> forall t :: t in ts ==> LowerNameOf(t) != l
  {
    if ts == [] then None
    else if LowerNameOf(ts[0]) == l then Some(ts[0])
    else Find(l, ts[1..])
  }

  /**
   * `ArgType.from_str`: lower-cases the label, then maps each of the
   * fourteen known labels to its member; anything else raises
   * NotImplementedError.
   */
  function FromStr(tag: string): (r: Result<ArgType>)
    ensures r.Ok? <==> exists t :: Parsable(t) && LowerNameOf(t) == Lower(tag)
    ensures r.Ok? ==> Parsable(r.value) && LowerNameOf(r.value) == Lower(tag)
    ensures r.Err? ==> r.error == NotImplementedError("")
  {
    ParsableInOrder();
    match Find(Lower(tag), ParseOrder)
    case Some(t) => Ok(t)
    case None => Err(NotImplementedError(""))
  }

  lemma ParsableInOrder()
    ensures forall t :: t in ParseOrder <==> Parsable(t)
  {
  }

  /** The types whose lower-case name is a tag of `from_str`. */
  predicate Parsable(t: ArgType)
  {
    !(t.Filter? || t.Sort? || t.Limit? || t.RowNum? || t.AttributeCollection?)
  }

  /** The lower-case form of each member's name (`m.name.lower()`). */
  function LowerNameOf(t: ArgType): string
  {
    match t
    case Arithmetic => "arithmetic"
    case Categorical => "categorical"
    case Document => "document"
    case Datetime => "datetime"
    case Metric => "metric"
    case Identifier => "identifier"
    case Entity => "entity"
    case Attribute => "attribute"
    case Group => "group"
    case Filter => "filter"
    case Sort => "sort"
    case Limit => "limit"
    case RowNum => "rownum"
    case AttributeCollection => "attributecollection"
    case String => "string"
    case StartDate => "startdate"
    case EndDate => "enddate"
    case Quantity => "quantity"
    case RelatedIdentifier => "relatedidentifier"
  }

  /** Distinct members have distinct lower-case names. */
  lemma LowerNameInjective(a: ArgType, b: ArgType)
    ensures LowerNameOf(a) == LowerNameOf(b) ==> a == b
  {
  }

  /**
   * `from_str` is case-insensitive: every spelling whose lower-case form is
   * a parsable member's lower-case name gives that member.
   */
  lemma FromStrRoundTrip(t: ArgType, tag: string)
    requires Parsable(t)
    requires Lower(tag) == LowerNameOf(t)
    ensures FromStr(tag) == Ok(t)
  {
    LowerNameInjective(t, FromStr(tag).value);
  }

  /** filter, sort, limit, rownum and attributecollection are not parsed, in any spelling. */
  lemma FromStrRejects(t: ArgType, tag: string)
    requires !Parsable(t)
    requires Lower(tag) == LowerNameOf(t)
    ensures FromStr(tag) == Err(NotImplementedError(""))
  {
    if FromStr(tag).Ok? {
      LowerNameInjective(t, FromStr(tag).value);
    }
  }

  /** `ArgType.get_all()`. */
  const All: seq<ArgType> := [Arithmetic, Categorical, Document, Datetime, StartDate, EndDate,
    Metric, Quantity, Identifier, RelatedIdentifier, Entity, Attribute, Group, Filter,
    AttributeCollection, String]

  /** get_all lists sixteen distinct members and leaves out exactly Sort, Limit and RowNum. */
  lemma AllMembers()
    ensures |All| == 16
    ensures forall i, j :: 0 <= i < j < |All| ==> All[i] != All[j]
    ensures forall t: ArgType :: t in All <==> !(t.Sort? || t.Limit? || t.RowNum?)
  {
  }

  /** Distinct members carry distinct values. */
  lemma ValueInjective(a: ArgType, b: ArgType)
    ensures Value(a) == Value(b) ==> a == b
  {
  }
}
