/**
 * `core/RingObjects/Ring.py`: the lookups the query compiler makes on a
 * parsed ring (entities by name, an attribute's joins and table, the
 * relationships around an entity, the joins between two entities) and
 * the completion of derived relationships at the end of
 * `parse_relationships`.
 */
module Rings {

  import opened Wrappers
  import opened Chars
  import opened Dicts
  import opened Json
  import opened ApiUtils
  import opened RingAttributes
  import opened RingEntities
  import opened RingRelationships

  // ---------------------------------------------------------------------------
  // Lookups by name
  // ---------------------------------------------------------------------------

  /** `[x for x in xs if p(x)][0]`: the first match, IndexError when there is none. */
  function FirstWhere<T>(xs: seq<T>, p: T -> bool): (r: Result<T>)
    ensures r.Ok? <==> exists k :: 0 <= k < |xs| && p(xs[k])
    ensures r.Ok? ==> exists k :: 0 <= k < |xs| && xs[k] == r.value && p(xs[k]) && forall j :: 0 <= j < k ==> !p(xs[j])
    ensures r.Err? ==> r.error == IndexError
  {
    if xs == [] then Err(IndexError)
    else if p(xs[0]) then Ok(xs[0])
    else
      var r := FirstWhere(xs[1..], p);
      assert forall k :: 0 < k < |xs| ==> xs[k] == xs[1..][k - 1];
      assert r.Ok? ==> exists k :: 0 <= k < |xs| && p(xs[k]) by {
        if r.Ok? {
          var k :| 0 <= k < |xs[1..]| && xs[1..][k] == r.value && p(xs[1..][k]) && forall j :: 0 <= j < k ==> !p(xs[1..][j]);
          assert xs[k + 1] == r.value;
        }
      }
      r
  }

  /** The keys of `cache`, which `parse` builds from the entities' names. */
  function Cache(entities: seq<EntityState>): seq<Json>
  {
    seq(|entities|, k requires 0 <= k < |entities| => entities[k].name)
  }

  /** `ensure_entity_exists`: the name itself when some entity has it, otherwise None. */
  function EnsureEntityExists(entities: seq<EntityState>, name: Json): (r: Json)
    ensures (exists k :: 0 <= k < |entities| && entities[k].name == name) ==> r == name
    ensures !(exists k :: 0 <= k < |entities| && entities[k].name == name) ==> r == JNull
  {
    if name in Cache(entities) then
      assert exists k :: 0 <= k < |entities| && entities[k].name == name by {
        var k :| 0 <= k < |Cache(entities)| && Cache(entities)[k] == name;
        assert entities[k].name == name;
      }
      name
    else
      assert forall k :: 0 <= k < |entities| ==> entities[k].name != name by {
        forall k | 0 <= k < |entities| ensures entities[k].name != name {
          assert Cache(entities)[k] == entities[k].name;
        }
      }
      JNull
  }

  /** Whether some entity of the ring is called `name`. */
  predicate HasEntity(entities: seq<EntityState>, name: Json)
  {
    exists k :: 0 <= k < |entities| && entities[k].name == name
  }

  /**
   * `get_entity_by_name`: the first entity with the name. A name no
   * entity has becomes None first, so it finds the first entity whose own
   * name is missing, and raises IndexError only when there is none.
   */
  function EntityByName(entities: seq<EntityState>, name: Json): (r: Result<EntityState>)
    ensures r.Ok? ==> r.value in entities
    ensures HasEntity(entities, name) ==> r.Ok? && r.value.name == name
    ensures !HasEntity(entities, name) ==> (r.Ok? <==> HasEntity(entities, JNull)) && (r.Ok? ==> r.value.name == JNull)
    ensures r.Err? ==> r.error == IndexError
  {
    var n := EnsureEntityExists(entities, name);
    FirstWhere(entities, (e: EntityState) => e.name == n)
  }

  /** `get_entity_by_name` finds the first entity with the name. */
  lemma EntityByNameFirst(entities: seq<EntityState>, k: nat)
    requires k < |entities| && forall j :: 0 <= j < k ==> entities[j].name != entities[k].name
    ensures EntityByName(entities, entities[k].name) == Ok(entities[k])
  {
    var n := entities[k].name;
    var r := EntityByName(entities, n);
    var p := (e: EntityState) => e.name == n;
    assert r == FirstWhere(entities, p);
    var i :| 0 <= i < |entities| && entities[i] == r.value && p(entities[i]) && forall j :: 0 <= j < i ==> !p(entities[j]);
    assert !(i < k) && !(k < i);
  }

  /** `entity_obj.attributes[name]`: a KeyError when the entity has no such attribute. */
  function AttributeNamed(entity: EntityState, name: string): (r: Result<AttributeState>)
    ensures r.Ok? <==> HasKey(entity.attributes, name)
    ensures r.Ok? ==> Get(entity.attributes, name) == Some(r.value)
    ensures r.Err? ==> r.error == KeyError(name)
  {
    match Get(entity.attributes, name)
    case Some(a) => Ok(a)
    case None => Err(KeyError(name))
  }

  /** The attribute a name stands for: the base of a date-suffixed name, otherwise the name itself. */
  function BaseAttribute(name: string): (b: string)
    ensures DateDenomination(name).Some? ==> name == b + DateDenomination(name).value.1
    ensures DateDenomination(name).None? ==> b == name
  {
    match DateDenomination(name)
    case Some((base, _)) => base
    case None => name
  }

  // ---------------------------------------------------------------------------
  // get_attribute_joins and get_table_name
  // ---------------------------------------------------------------------------

  /** The set of what a `for` loop over the value yields. */
  function JoinSet(joins: Json): (r: Result<set<Json>>)
    ensures r.Ok? <==> Iterate(joins).Ok?
    ensures r.Ok? ==> forall x :: x in r.value <==> x in Iterate(joins).value
  {
    match Iterate(joins)
    case Err(e) => Err(e)
    case Ok(items) => Ok(set x | x in items)
  }

  /**
   * `get_attribute_joins(entity_name, attribute_name)`. `Ok(None)` stands
   * for an attribute that needs no join (the id, or an attribute of the
   * entity's primary table); `Ok(Some(j))` is the attribute's
   * `source_joins`, whose items make up the result.
   */
  function AttributeJoinSource(entities: seq<EntityState>, entityName: Json, attr: string): Result<Option<Json>>
  {
    var e :- EntityByName(entities, entityName);
    if attr == "id" then Ok(None)
    else
      var a :- AttributeNamed(e, BaseAttribute(attr));
      if a.source.table != e.primaryTable then Ok(Some(a.source.joins)) else Ok(None)
  }

  /** The set `get_attribute_joins` returns. */
  function AttributeJoins(entities: seq<EntityState>, entityName: Json, attr: string): (r: Result<set<Json>>)
    ensures EntityByName(entities, entityName).Err? ==> r == Err(IndexError)
    ensures attr == "id" && EntityByName(entities, entityName).Ok? ==> r == Ok({})
  {
    match AttributeJoinSource(entities, entityName, attr)
    case Err(e) => Err(e)
    case Ok(None) => Ok({})
    case Ok(Some(j)) => JoinSet(j)
  }

  /**
   * The joins of an attribute: none for the id or for an attribute whose
   * source table is the entity's primary table, otherwise the items of
   * its `source_joins`; a date-suffixed name is looked up by its base
   * attribute, and a missing attribute raises KeyError.
   */
  lemma AttributeJoinsCases(entities: seq<EntityState>, entityName: Json, attr: string)
    requires EntityByName(entities, entityName).Ok? && attr != "id"
    ensures var e := EntityByName(entities, entityName).value;
      var a := AttributeNamed(e, BaseAttribute(attr));
      && (a.Err? ==> AttributeJoins(entities, entityName, attr) == Err(KeyError(BaseAttribute(attr))))
      && (a.Ok? && a.value.source.table == e.primaryTable ==> AttributeJoins(entities, entityName, attr) == Ok({}))
      && (a.Ok? && a.value.source.table != e.primaryTable ==>
            AttributeJoins(entities, entityName, attr) == JoinSet(a.value.source.joins))
  {
  }

  /** A date-suffixed name stands for its base, and neither is `id`. */
  lemma BaseOfDateSuffixed(base: string, suffix: string)
    requires |base| > 0 && AllWordChars(base) && suffix in DateSuffixes
    ensures BaseAttribute(base + suffix) == base && BaseAttribute(base) == base && base + suffix != "id"
  {
    DateDenominationOf(base, suffix);
    forall p | 0 < p <= |base| ensures base[p..] !in DateSuffixes {
      if p < |base| {
        assert IsWordChar(base[p]);
        assert base[p..][0] == base[p];
      }
    }
    assert |base + suffix| > 2;
  }

  /** A date-suffixed attribute has the joins of its base attribute. */
  lemma DateSuffixedJoins(entities: seq<EntityState>, entityName: Json, base: string, suffix: string)
    requires |base| > 0 && AllWordChars(base) && suffix in DateSuffixes && base != "id"
    ensures AttributeJoins(entities, entityName, base + suffix) == AttributeJoins(entities, entityName, base)
  {
    BaseOfDateSuffixed(base, suffix);
    assert AttributeJoinSource(entities, entityName, base + suffix) == AttributeJoinSource(entities, entityName, base);
  }

  /**
   * `get_table_name`: the entity's primary table for `id` and `reference`,
   * otherwise the `source_table` of the attribute with exactly that name
   * (no date suffix is stripped here).
   */
  function TableName(entities: seq<EntityState>, entityName: Json, attr: string): (r: Result<Json>)
    ensures EntityByName(entities, entityName).Err? ==> r == Err(IndexError)
    ensures EntityByName(entities, entityName).Ok? && (attr == "id" || attr == "reference") ==>
      r == Ok(EntityByName(entities, entityName).value.primaryTable)
    ensures EntityByName(entities, entityName).Ok? && attr != "id" && attr != "reference" ==>
      var e := EntityByName(entities, entityName).value;
      && (r.Ok? <==> HasKey(e.attributes, attr))
      && (r.Ok? ==> r.value == Get(e.attributes, attr).value.source.table)
      && (r.Err? ==> r.error == KeyError(attr))
  {
    var e :- EntityByName(entities, entityName);
    if attr !in ["id", "reference"] then
      var a :- AttributeNamed(e, attr);
      Ok(a.source.table)
    else
      Ok(e.primaryTable)
  }

  // ---------------------------------------------------------------------------
  // check_relationship_exists
  // ---------------------------------------------------------------------------

  /** `any([rel.fro == fro and rel.to == to and rel.type == type for rel in rels])`. */
  function AnyRelationship(rels: seq<RelState>, fro: Json, to: Json, relType: string): (b: bool)
    ensures b <==> exists k :: 0 <= k < |rels| && rels[k].fro == fro && rels[k].to == to && rels[k].relType == JStr(relType)
  {
    if rels == [] then false
    else
      assert forall k :: 1 <= k < |rels| ==> rels[k] == rels[1..][k - 1];
      (rels[0].fro == fro && rels[0].to == to && rels[0].relType == JStr(relType)) ||
      AnyRelationship(rels[1..], fro, to, relType)
  }

  /**
   * `check_relationship_exists(fro, to, type)`: some relationship goes
   * from `fro` to `to` with the type, or from `to` to `fro` with the type
   * string reversed.
   */
  function CheckRelationshipExists(rels: seq<RelState>, fro: Json, to: Json, relType: string): (b: bool)
    ensures b <==>
      (exists k :: 0 <= k < |rels| && rels[k].fro == fro && rels[k].to == to && rels[k].relType == JStr(relType)) ||
      (exists k :: 0 <= k < |rels| && rels[k].to == fro && rels[k].fro == to && rels[k].relType == JStr(Reverse(relType)))
  {
    AnyRelationship(rels, fro, to, relType) || AnyRelationship(rels, to, fro, Reverse(relType))
  }

  /** The check does not depend on the direction it is asked in, once the type string is reversed too. */
  lemma CheckRelationshipSymmetric(rels: seq<RelState>, fro: Json, to: Json, relType: string)
    ensures CheckRelationshipExists(rels, fro, to, relType) == CheckRelationshipExists(rels, to, fro, Reverse(relType))
  {
    ReverseInvolutive(relType);
  }

  /** For the four relationship types, reversing the string is `mirror_rel`: the check holds from the other end with the mirrored type. */
  lemma CheckRelationshipMirror(rels: seq<RelState>, fro: Json, to: Json, relType: string)
    requires IsBaseRel(relType)
    ensures CheckRelationshipExists(rels, fro, to, relType) == CheckRelationshipExists(rels, to, fro, MirrorRel(relType).value)
  {
    MirrorIsReverse(relType);
    CheckRelationshipSymmetric(rels, fro, to, relType);
  }

  // ---------------------------------------------------------------------------
  // Relationships around an entity
  // ---------------------------------------------------------------------------

  /** The target `get_connected_entity_relationships` uses: the argument when truthy, else the current target. */
  function TargetOr(current: Json, target: Json): Json
  {
    if Truthy(target) then target else current
  }

  predicate Touches(rel: RelState, target: Json)
  {
    target == rel.fro || target == rel.to
  }

  /** The relationships with `target` at either end, in ring order. */
  function ConnectedTo(rels: seq<RelState>, target: Json): (r: seq<RelState>)
    ensures |r| <= |rels|
  {
    if rels == [] then []
    else (if Touches(rels[0], target) then [rels[0]] else []) + ConnectedTo(rels[1..], target)
  }

  /** Exactly the relationships with the target at one end are kept. */
  lemma {:induction false} ConnectedToMembers(rels: seq<RelState>, target: Json)
    ensures forall x :: x in ConnectedTo(rels, target) <==> x in rels && Touches(x, target)
  {
    if rels != [] {
      ConnectedToMembers(rels[1..], target);
      assert rels == [rels[0]] + rels[1..];
    }
  }

  /** The filter keeps ring order: filtering two parts one after the other is filtering their concatenation. */
  lemma {:induction false} ConnectedToAppend(a: seq<RelState>, b: seq<RelState>, target: Json)
    ensures ConnectedTo(a + b, target) == ConnectedTo(a, target) + ConnectedTo(b, target)
  {
    if a == [] {
      assert a + b == b;
    } else {
      var h := if Touches(a[0], target) then [a[0]] else [];
      ConnectedToAppend(a[1..], b, target);
      calc {
        ConnectedTo(a + b, target);
        { assert (a + b)[0] == a[0] && (a + b)[1..] == a[1..] + b; }
        h + ConnectedTo(a[1..] + b, target);
        h + (ConnectedTo(a[1..], target) + ConnectedTo(b, target));
        (h + ConnectedTo(a[1..], target)) + ConnectedTo(b, target);
        ConnectedTo(a, target) + ConnectedTo(b, target);
      }
    }
  }

  /** The loop of `get_connected_entity_relationships` over the relationships from `i` on. */
  lemma ConnectedToStep(rels: seq<RelState>, i: nat, target: Json)
    requires i < |rels|
    ensures ConnectedTo(rels[..i + 1], target) ==
      ConnectedTo(rels[..i], target) + (if Touches(rels[i], target) then [rels[i]] else [])
  {
    assert rels[..i + 1] == rels[..i] + [rels[i]];
    ConnectedToAppend(rels[..i], [rels[i]], target);
    assert [rels[i]][1..] == [];
  }

  /** The unnamed one-to-one relationship of an entity with itself that `get_entity_relationships` starts with. */
  function SelfRelationship(entity: Json): (r: RelState)
    ensures r.fro == entity && r.to == entity && r.name == JNull && r.relType == JStr("o2o")
  {
    NewRelationship.(fro := entity, to := entity, name := JNull, relType := JStr("o2o"))
  }

  // ---------------------------------------------------------------------------
  // get_related_entities
  // ---------------------------------------------------------------------------

  /**
   * The entity a relationship relates `name` to: the `fro` side of a
   * many-to-one relationship into it, the `to` side of a one-to-many
   * relationship out of it.
   */
  function RelatedName(rel: RelState, name: Json): (r: Option<Json>)
    ensures r.Some? <==> (rel.relType == JStr("m2o") && name == rel.to) || (rel.relType == JStr("o2m") && name == rel.fro)
    ensures r.Some? && rel.relType == JStr("m2o") ==> r.value == rel.fro
    ensures r.Some? && rel.relType == JStr("o2m") ==> r.value == rel.to
  {
    if rel.relType == JStr("m2o") && name == rel.to then Some(rel.fro)
    else if rel.relType == JStr("o2m") && name == rel.fro then Some(rel.to)
    else None
  }

  /** The first entity named `name` (without the None fallback of `get_entity_by_name`). */
  function EntityNamed(entities: seq<EntityState>, name: Json): (r: Result<EntityState>)
    ensures r.Ok? <==> HasEntity(entities, name)
    ensures r.Ok? ==> r.value in entities && r.value.name == name
    ensures r.Err? ==> r.error == IndexError
  {
    FirstWhere(entities, (e: EntityState) => e.name == name)
  }

  /** `[ent for ent in self.entities if ent.name == n][0]` for each name `n`. */
  function EntityFinder(entities: seq<EntityState>): Json -> Result<EntityState>
  {
    n => EntityNamed(entities, n)
  }

  /**
   * `get_related_entities` carried on from `acc` over the relationships
   * `rels`, with `find` looking up an entity by name.
   */
  function RelatedFrom(find: Json -> Result<EntityState>, rels: seq<RelState>, name: Json, acc: seq<EntityState>): Result<seq<EntityState>>
    decreases |rels|
  {
    if rels == [] then Ok(acc)
    else
      match RelatedName(rels[0], name)
      case None => RelatedFrom(find, rels[1..], name, acc)
      case Some(other) =>
        match find(other)
        case Err(e) => Err(e)
        case Ok(x) => RelatedFrom(find, rels[1..], name, acc + [x])
  }

  /** The names of the entities `get_related_entities` looks up, in relationship order. */
  function RelatedNames(rels: seq<RelState>, name: Json): (ns: seq<Json>)
    ensures |ns| <= |rels|
  {
    if rels == [] then []
    else (match RelatedName(rels[0], name) case Some(n) => [n] case None => []) + RelatedNames(rels[1..], name)
  }

  /** The related names are the other ends of the relationships that relate something to `name`. */
  lemma {:induction false} RelatedNamesMembers(rels: seq<RelState>, name: Json)
    ensures forall x :: x in RelatedNames(rels, name) <==> exists k :: 0 <= k < |rels| && RelatedName(rels[k], name) == Some(x)
  {
    if rels != [] {
      RelatedNamesMembers(rels[1..], name);
      assert forall k :: 1 <= k < |rels| ==> rels[k] == rels[1..][k - 1];
    }
  }

  /** The collection fails exactly when some related name fails to resolve, with that lookup's error. */
  lemma {:induction false} RelatedFromOk(find: Json -> Result<EntityState>, rels: seq<RelState>, name: Json, acc: seq<EntityState>)
    ensures var r := RelatedFrom(find, rels, name, acc);
      && (r.Ok? <==> forall n :: n in RelatedNames(rels, name) ==> find(n).Ok?)
      && (r.Err? ==> exists n :: n in RelatedNames(rels, name) && find(n) == Err(r.error))
    decreases |rels|
  {
    if rels != [] {
      var o := RelatedName(rels[0], name);
      if o.None? {
        RelatedFromOk(find, rels[1..], name, acc);
      } else if find(o.value).Ok? {
        RelatedFromOk(find, rels[1..], name, acc + [find(o.value).value]);
      } else {
        assert o.value in RelatedNames(rels, name);
      }
    }
  }

  /** The collected entities are, in order, what the lookup finds for each related name. */
  lemma {:induction false} RelatedFromContents(find: Json -> Result<EntityState>, rels: seq<RelState>, name: Json, acc: seq<EntityState>)
    requires RelatedFrom(find, rels, name, acc).Ok?
    ensures var r := RelatedFrom(find, rels, name, acc).value;
      var ns := RelatedNames(rels, name);
      && |r| == |acc| + |ns| && r[..|acc|] == acc
      && forall i :: 0 <= i < |ns| ==> find(ns[i]) == Ok(r[|acc| + i])
    decreases |rels|
  {
    if rels != [] {
      var o := RelatedName(rels[0], name);
      if o.None? {
        assert RelatedFrom(find, rels, name, acc) == RelatedFrom(find, rels[1..], name, acc);
        assert RelatedNames(rels, name) == RelatedNames(rels[1..], name);
        RelatedFromContents(find, rels[1..], name, acc);
      } else {
        var x := find(o.value).value;
        assert RelatedFrom(find, rels, name, acc) == RelatedFrom(find, rels[1..], name, acc + [x]);
        RelatedFromContents(find, rels[1..], name, acc + [x]);
        var ns' := RelatedNames(rels[1..], name);
        assert RelatedNames(rels, name) == [o.value] + ns';
        ContentsCons(find, o.value, x, acc, RelatedFrom(find, rels, name, acc).value, ns');
      }
    }
  }

  lemma ContentsCons(find: Json -> Result<EntityState>, o: Json, x: EntityState, acc: seq<EntityState>,
                     r: seq<EntityState>, ns: seq<Json>)
    requires find(o) == Ok(x)
    requires |r| == |acc| + 1 + |ns| && r[..|acc| + 1] == acc + [x]
    requires forall i :: 0 <= i < |ns| ==> find(ns[i]) == Ok(r[|acc| + 1 + i])
    ensures |r| == |acc| + |[o] + ns| && r[..|acc|] == acc
    ensures forall i :: 0 <= i < |[o] + ns| ==> find(([o] + ns)[i]) == Ok(r[|acc| + i])
  {
    assert r[..|acc|] == r[..|acc| + 1][..|acc|];
    assert r[|acc|] == r[..|acc| + 1][|acc|];
    forall i | 0 <= i < |[o] + ns| ensures find(([o] + ns)[i]) == Ok(r[|acc| + i]) {
      if i > 0 {
        assert ([o] + ns)[i] == ns[i - 1];
      }
    }
  }

  /**
   * `get_related_entities` on the ring: it raises IndexError exactly when
   * some related name is no entity's name; otherwise it gives, for each
   * relationship relating an entity to `name` in ring order, the first
   * entity with the other end's name.
   */
  lemma RelatedEntitiesMeaning(entities: seq<EntityState>, rels: seq<RelState>, name: Json)
    ensures var r := RelatedFrom(EntityFinder(entities), rels, name, []);
      var ns := RelatedNames(rels, name);
      && (r.Ok? <==> forall n :: n in ns ==> HasEntity(entities, n))
      && (r.Err? ==> r.error == IndexError)
      && (r.Ok? ==> |r.value| == |ns| && forall i :: 0 <= i < |ns| ==> r.value[i] in entities && r.value[i].name == ns[i])
  {
    var find := EntityFinder(entities);
    var ns := RelatedNames(rels, name);
    RelatedFromOk(find, rels, name, []);
    var r := RelatedFrom(find, rels, name, []);
    if r.Ok? {
      RelatedFromContents(find, rels, name, []);
      forall i | 0 <= i < |ns| ensures r.value[i] in entities && r.value[i].name == ns[i] {
        assert find(ns[i]) == EntityNamed(entities, ns[i]);
      }
    } else {
      var n :| n in ns && find(n) == Err(r.error);
      assert find(n) == EntityNamed(entities, n);
    }
  }

  // ---------------------------------------------------------------------------
  // get_joins_between_entities
  // ---------------------------------------------------------------------------

  /** `get_relationship_by_name`: the first relationship with the name, IndexError when there is none. */
  function RelationshipByName(rels: seq<RelState>, name: Json): (r: Result<RelState>)
    ensures r.Ok? <==> exists k :: 0 <= k < |rels| && rels[k].name == name
    ensures r.Ok? ==> r.value in rels && r.value.name == name
    ensures r.Err? ==> r.error == IndexError
  {
    FirstWhere(rels, (rel: RelState) => rel.name == name)
  }

  /** The joins of the relationship named `name`, as the inner `for` over `.join` sees them. */
  function JoinsOfNamed(rels: seq<RelState>, name: Json): Result<seq<Json>>
  {
    var rel :- RelationshipByName(rels, name);
    match rel.join
    case None => Err(TypeError("'NoneType' object is not iterable"))
    case Some(l) => Ok(l)
  }

  /** `get_relationship_by_name(n).join` for each name `n` of the ring's relationships. */
  function JoinsLookup(rels: seq<RelState>): Json -> Result<seq<Json>>
  {
    n => JoinsOfNamed(rels, n)
  }

  /**
   * `get_joins_between_entities`: the set of the joins of the
   * relationships along `path`, the relationship names of the shortest
   * path between the two entities in the relationship graph, with
   * `joins` looking up a relationship's joins by name.
   */
  function JoinsAlong(joins: Json -> Result<seq<Json>>, path: seq<Json>): (r: Result<set<Json>>)
    ensures r.Ok? <==> forall k :: 0 <= k < |path| ==> joins(path[k]).Ok?
    ensures r.Ok? ==> forall x :: x in r.value <==> exists k :: 0 <= k < |path| && x in joins(path[k]).value
  {
    if path == [] then Ok({})
    else
      assert forall k :: 1 <= k < |path| ==> path[k] == path[1..][k - 1];
      match joins(path[0])
      case Err(e) => Err(e)
      case Ok(l) =>
        match JoinsAlong(joins, path[1..])
        case Err(e) => Err(e)
        case Ok(rest) =>
          assert forall x :: x in rest ==> exists k :: 0 <= k < |path| && x in joins(path[k]).value by {
            forall x | x in rest ensures exists k :: 0 <= k < |path| && x in joins(path[k]).value {
              var k :| 0 <= k < |path[1..]| && x in joins(path[1..][k]).value;
              assert x in joins(path[k + 1]).value;
            }
          }
          Ok((set x | x in l) + rest)
  }

  /** Following two paths one after the other needs the joins of both. */
  lemma JoinsAlongAppend(joins: Json -> Result<seq<Json>>, p: seq<Json>, q: seq<Json>)
    requires JoinsAlong(joins, p).Ok? && JoinsAlong(joins, q).Ok?
    ensures JoinsAlong(joins, p + q) == Ok(JoinsAlong(joins, p).value + JoinsAlong(joins, q).value)
  {
    var pq := p + q;
    assert forall k :: 0 <= k < |pq| ==> joins(pq[k]).Ok? by {
      forall k | 0 <= k < |pq| ensures joins(pq[k]).Ok? {
        if k < |p| { assert pq[k] == p[k]; } else { assert pq[k] == q[k - |p|]; }
      }
    }
    var r := JoinsAlong(joins, pq).value;
    var u := JoinsAlong(joins, p).value + JoinsAlong(joins, q).value;
    forall x ensures x in r <==> x in u {
      if x in r {
        var k :| 0 <= k < |pq| && x in joins(pq[k]).value;
        if k < |p| { assert pq[k] == p[k]; } else { assert pq[k] == q[k - |p|]; }
      }
      if x in JoinsAlong(joins, p).value {
        var k :| 0 <= k < |p| && x in joins(p[k]).value;
        assert pq[k] == p[k];
      }
      if x in JoinsAlong(joins, q).value {
        var k :| 0 <= k < |q| && x in joins(q[k]).value;
        assert pq[|p| + k] == q[k];
      }
    }
    assert r == u;
  }

  /** A relationship without joins (None) on the path makes the comprehension raise TypeError. */
  lemma JoinsAlongNoneJoin(rels: seq<RelState>, path: seq<Json>, k: nat)
    requires k < |path| && RelationshipByName(rels, path[k]).Ok? && RelationshipByName(rels, path[k]).value.join.None?
    ensures JoinsAlong(JoinsLookup(rels), path).Err?
  {
    assert JoinsLookup(rels)(path[k]).Err?;
  }

  // ---------------------------------------------------------------------------
  // Derived relationships (the second loop of parse_relationships)
  // ---------------------------------------------------------------------------

  /**
   * `rels[n]` for the dictionary `{r.name: r for r in relationships if
   * r.name in rel_list}`: the last relationship with the name, since a
   * later entry overwrites an earlier one; KeyError when there is none.
   */
  function LastNamed(rels: seq<RelState>, name: Json): (r: Result<RelState>)
    ensures r.Ok? <==> exists k :: 0 <= k < |rels| && rels[k].name == name
    ensures r.Err? ==> r.error == KeyError(PyStr(name))
    decreases |rels|
  {
    if rels == [] then Err(KeyError(PyStr(name)))
    else if rels[|rels| - 1].name == name then Ok(rels[|rels| - 1])
    else
      var init := rels[..|rels| - 1];
      assert forall k :: 0 <= k < |init| ==> init[k] == rels[k];
      LastNamed(init, name)
  }

  /** The relationship found is the last one with the name: no later relationship has it. */
  lemma {:induction false} LastNamedIsLast(rels: seq<RelState>, name: Json) returns (k: nat)
    requires LastNamed(rels, name).Ok?
    ensures k < |rels| && LastNamed(rels, name) == Ok(rels[k]) && rels[k].name == name
    ensures forall j :: k < j < |rels| ==> rels[j].name != name
    decreases |rels|
  {
    var n := |rels| - 1;
    if rels[n].name == name {
      k := n;
    } else {
      var init := rels[..n];
      assert LastNamed(rels, name) == LastNamed(init, name);
      k := LastNamedIsLast(init, name);
      assert rels[k] == init[k];
      assert forall j :: k < j < n ==> rels[j] == init[j];
    }
  }

  /** `[rels[r] for r in rel_list]`: the member relationships, KeyError at the first missing name. */
  function Members(rels: seq<RelState>, names: seq<Json>): (r: Result<seq<RelState>>)
    ensures r.Ok? <==> forall k :: 0 <= k < |names| ==> LastNamed(rels, names[k]).Ok?
    ensures r.Ok? ==> |r.value| == |names| && forall k :: 0 <= k < |names| ==> r.value[k] == LastNamed(rels, names[k]).value
  {
    if names == [] then Ok([])
    else
      assert forall k :: 1 <= k < |names| ==> names[k] == names[1..][k - 1];
      match LastNamed(rels, names[0])
      case Err(e) => Err(e)
      case Ok(m) =>
        match Members(rels, names[1..])
        case Err(e) => Err(e)
        case Ok(ms) => Ok([m] + ms)
  }

  /** `[x for r in rel_list for x in rels[r].join if rels[r].join]`: the members' joins one after the other. */
  function MemberJoins(ms: seq<RelState>): (r: seq<Json>)
    ensures forall x :: x in r <==> exists k :: 0 <= k < |ms| && ms[k].join.Some? && x in ms[k].join.value
  {
    if ms == [] then []
    else
      assert forall k :: 1 <= k < |ms| ==> ms[k] == ms[1..][k - 1];
      (match ms[0].join case Some(l) => l case None => []) + MemberJoins(ms[1..])
  }

  /** The joins are concatenated in member order. */
  lemma {:induction false} MemberJoinsAppend(a: seq<RelState>, b: seq<RelState>)
    ensures MemberJoins(a + b) == MemberJoins(a) + MemberJoins(b)
  {
    if a != [] {
      assert (a + b)[0] == a[0] && (a + b)[1..] == a[1..] + b;
      var h := match a[0].join case Some(l) => l case None => [];
      assert MemberJoins(a + b) == h + MemberJoins(a[1..] + b);
      assert MemberJoins(a) == h + MemberJoins(a[1..]);
      MemberJoinsAppend(a[1..], b);
    } else {
      assert a + b == b;
    }
  }

  /** What `walk_rel_path` reads of a relationship; a type that is not a string is taken as None. */
  function View(rel: RelState): RelView<Json>
  {
    RelView(rel.fro, rel.to, if rel.relType.JStr? then Some(rel.relType.s) else None, Truthy(rel.bidirectional))
  }

  function Views(ms: seq<RelState>): (r: seq<RelView<Json>>)
    ensures |r| == |ms| && forall k :: 0 <= k < |ms| ==> r[k] == View(ms[k])
  {
    seq(|ms|, k requires 0 <= k < |ms| => View(ms[k]))
  }

  /** The relationship type `walk_rel_path` returns, stored as a JSON value. */
  function TypeJson(t: Option<string>): Json
  {
    match t
    case None => JNull
    case Some(s) => JStr(s)
  }

  /** `all(rels[r].bidirectional for r in rel_list)`. */
  predicate AllBidirectional(ms: seq<RelState>)
  {
    forall k :: 0 <= k < |ms| ==> Truthy(ms[k].bidirectional)
  }

  /**
   * One pass of the loop body for the derived relationship at `i`: the
   * new list of relationships and the exception raised, if any. A KeyError
   * for a missing member leaves everything as it was; an error in
   * `walk_rel_path` leaves the joins already replaced.
   */
  function DeriveAt(rels: seq<RelState>, i: nat): (r: (seq<RelState>, Option<Error>))
    requires i < |rels|
    ensures |r.0| == |rels|
    ensures forall k :: 0 <= k < |rels| && k != i ==> r.0[k] == rels[k]
  {
    var rel := rels[i];
    match Iterate(rel.relList)
    case Err(e) => (rels, Some(e))
    case Ok(names) =>
      match Members(rels, names)
      case Err(e) => (rels, Some(e))
      case Ok(ms) =>
        var joined := rel.(join := Some(MemberJoins(ms)));
        match Walk(rel.fro, Some("o2o"), rel.to, Views(ms))
        case Err(e) => (rels[i := joined], Some(e))
        case Ok(t) => (rels[i := joined.(relType := TypeJson(t), bidirectional := JBool(AllBidirectional(ms)))], None)
  }

  /**
   * A derived relationship that completes gets the members' joins in list
   * order, the type `walk_rel_path` finds along them, and is
   * bidirectional exactly when every member is; its name, ends and member
   * list stay.
   */
  lemma DeriveAtShape(rels: seq<RelState>, i: nat)
    requires i < |rels| && DeriveAt(rels, i).1.None?
    ensures Iterate(rels[i].relList).Ok? && Members(rels, Iterate(rels[i].relList).value).Ok?
    ensures var ms := Members(rels, Iterate(rels[i].relList).value).value;
      var d := DeriveAt(rels, i).0[i];
      && d.join == Some(MemberJoins(ms))
      && Walk(rels[i].fro, Some("o2o"), rels[i].to, Views(ms)).Ok?
      && d.relType == TypeJson(Walk(rels[i].fro, Some("o2o"), rels[i].to, Views(ms)).value)
      && (d.bidirectional == JBool(true) <==> forall k :: 0 <= k < |ms| ==> Truthy(ms[k].bidirectional))
      && d.bidirectional.JBool?
      && d.name == rels[i].name && d.fro == rels[i].fro && d.to == rels[i].to && d.relList == rels[i].relList
      && d.id == rels[i].id
  {
  }

  /** A member list naming a relationship that does not exist raises KeyError and changes nothing. */
  lemma DeriveMissingMember(rels: seq<RelState>, i: nat, k: nat)
    requires i < |rels| && Iterate(rels[i].relList).Ok?
    requires k < |Iterate(rels[i].relList).value|
    requires forall j :: 0 <= j < |rels| ==> rels[j].name != Iterate(rels[i].relList).value[k]
    ensures DeriveAt(rels, i).0 == rels && DeriveAt(rels, i).1.Some? && DeriveAt(rels, i).1.value.KeyError?
  {
    var names := Iterate(rels[i].relList).value;
    assert LastNamed(rels, names[k]).Err?;
    var m := Members(rels, names);
    assert m.Err?;
    assert !(forall j :: 0 <= j < |names| ==> LastNamed(rels, names[j]).Ok?);
    assert m.error.KeyError? by { MembersError(rels, names); }
  }

  lemma {:induction false} MembersError(rels: seq<RelState>, names: seq<Json>)
    requires Members(rels, names).Err?
    ensures Members(rels, names).error.KeyError?
  {
    if names != [] && LastNamed(rels, names[0]).Ok? {
      MembersError(rels, names[1..]);
    }
  }

  /**
   * The loop over the relationships from index `i` on: derived ones
   * (truthy `rel_list`) are completed in order, each seeing the ones
   * before it as already completed; the first exception stops the loop.
   */
  function DeriveFrom(rels: seq<RelState>, i: nat): (r: (seq<RelState>, Option<Error>))
    requires i <= |rels|
    ensures |r.0| == |rels|
    decreases |rels| - i
  {
    if i == |rels| then (rels, None)
    else if !Truthy(rels[i].relList) then DeriveFrom(rels, i + 1)
    else
      match DeriveAt(rels, i)
      case (next, Some(e)) => (next, Some(e))
      case (next, None) => DeriveFrom(next, i + 1)
  }

  /** Relationships before `i` and relationships that are not derived are left as they were. */
  lemma {:induction false} DeriveFromKeeps(rels: seq<RelState>, i: nat, k: nat)
    requires i <= |rels| && k < |rels| && (k < i || !Truthy(rels[k].relList))
    ensures DeriveFrom(rels, i).0[k] == rels[k]
    decreases |rels| - i
  {
    if i < |rels| && Truthy(rels[i].relList) {
      var (next, e) := DeriveAt(rels, i);
      if e.None? {
        assert next[k] == rels[k];
        DeriveFromKeeps(next, i + 1, k);
      }
    } else if i < |rels| {
      DeriveFromKeeps(rels, i + 1, k);
    }
  }

  /** A ring without derived relationships comes out of the loop unchanged. */
  lemma {:induction false} DeriveFromNone(rels: seq<RelState>, i: nat)
    requires i <= |rels| && forall k :: i <= k < |rels| ==> !Truthy(rels[k].relList)
    ensures DeriveFrom(rels, i) == (rels, None)
    decreases |rels| - i
  {
    if i < |rels| {
      DeriveFromNone(rels, i + 1);
    }
  }

  /** `for item in items: joins_todo.add(item)` from an empty set. */
  method AddAll(items: seq<Json>) returns (joinsTodo: set<Json>)
    ensures joinsTodo == set x | x in items
  {
    joinsTodo := {};
    for i := 0 to |items|
      invariant joinsTodo == set x | x in items[..i]
    {
      assert items[..i + 1] == items[..i] + [items[i]];
      joinsTodo := joinsTodo + {items[i]};
    }
    assert items[..|items|] == items;
  }

  // ---------------------------------------------------------------------------
  // The Ring object
  // ---------------------------------------------------------------------------

  /** What the lookups read of a parsed `Ring`: its entities, its relationships and the current target entity. */
  class Ring {
    var entities: seq<EntityState>
    var relationships: seq<RelState>
    var currentTargetEntity: Json

    constructor(entities: seq<EntityState>, relationships: seq<RelState>, currentTargetEntity: Json)
      ensures this.entities == entities && this.relationships == relationships
      ensures this.currentTargetEntity == currentTargetEntity
    {
      this.entities := entities;
      this.relationships := relationships;
      this.currentTargetEntity := currentTargetEntity;
    }

    /** `get_attribute_joins`: the items of the attribute's `source_joins` are added to a set one by one. */
    method GetAttributeJoins(entityName: Json, attr: string) returns (r: Result<set<Json>>)
      ensures r == AttributeJoins(entities, entityName, attr)
    {
      var src := AttributeJoinSource(entities, entityName, attr);
      if src.Err? {
        return Err(src.error);
      }
      if src.value.None? {
        return Ok({});
      }
      var it := Iterate(src.value.value);
      if it.Err? {
        return Err(it.error);
      }
      var joinsTodo := AddAll(it.value);
      return Ok(joinsTodo);
    }

    /** `get_connected_entity_relationships(target)`. */
    method GetConnectedEntityRelationships(target: Json) returns (rels: seq<RelState>)
      ensures rels == ConnectedTo(relationships, TargetOr(currentTargetEntity, target))
    {
      var t := target;
      if !Truthy(t) {
        t := currentTargetEntity;
      }
      rels := [];
      for i := 0 to |relationships|
        invariant rels == ConnectedTo(relationships[..i], t)
      {
        ConnectedToStep(relationships, i, t);
        var rel := relationships[i];
        if t == rel.fro || t == rel.to {
          rels := rels + [rel];
        }
      }
      assert relationships[..|relationships|] == relationships;
    }

    /**
     * `get_entity_relationships(init_ent)`: the self relationship, then the
     * connected relationships. The `not in` filter compares objects by
     * identity, and the self relationship is a new object, so it drops
     * none of them.
     */
    method GetEntityRelationships(initEnt: Json) returns (rels: seq<RelState>)
      ensures |rels| >= 1 && rels[0] == SelfRelationship(initEnt)
      ensures rels[1..] == ConnectedTo(relationships, TargetOr(currentTargetEntity, initEnt))
    {
      rels := [SelfRelationship(initEnt)];
      var entRels := GetConnectedEntityRelationships(initEnt);
      rels := rels + entRels;
    }

    /** `get_related_entities(entity)` for the entity with this name. */
    method GetRelatedEntities(entityName: Json) returns (r: Result<seq<EntityState>>)
      ensures r == RelatedFrom(EntityFinder(entities), relationships, entityName, [])
    {
      var related: seq<EntityState> := [];
      for i := 0 to |relationships|
        invariant RelatedFrom(EntityFinder(entities), relationships[i..], entityName, related) ==
          RelatedFrom(EntityFinder(entities), relationships, entityName, [])
      {
        assert relationships[i..][1..] == relationships[i + 1..];
        var other := RelatedName(relationships[i], entityName);
        if other.Some? {
          var e := EntityNamed(entities, other.value);
          if e.Err? {
            return Err(e.error);
          }
          related := related + [e.value];
        }
      }
      assert relationships[|relationships|..] == [];
      return Ok(related);
    }

    /**
     * The derived-relationship loop of `parse_relationships`: completes
     * the relationships in place, and gives the exception that stopped the
     * loop, if any.
     */
    method DeriveRelationships() returns (raised: Option<Error>)
      modifies this`relationships
      ensures (relationships, raised) == DeriveFrom(old(relationships), 0)
    {
      var idx := 0;
      while idx < |relationships|
        invariant idx <= |relationships|
        invariant DeriveFrom(relationships, idx) == DeriveFrom(old(relationships), 0)
        decreases |relationships| - idx
      {
        if Truthy(relationships[idx].relList) {
          var e := DeriveOne(idx);
          if e.Some? {
            return e;
          }
        }
        idx := idx + 1;
      }
      return None;
    }

    /** The loop body for the derived relationship at `idx`. */
    method DeriveOne(idx: nat) returns (raised: Option<Error>)
      requires idx < |relationships|
      modifies this`relationships
      ensures (relationships, raised) == DeriveAt(old(relationships), idx)
    {
      ghost var rels0 := relationships;
      var rel := relationships[idx];
      var it := Iterate(rel.relList);
      if it.Err? {
        return Some(it.error);
      }
      var ms := Members(relationships, it.value);
      if ms.Err? {
        return Some(ms.error);
      }
      var joined := rel.(join := Some(MemberJoins(ms.value)));
      relationships := relationships[idx := joined];
      var t := WalkRelPath(rel.fro, rel.to, Views(ms.value));
      if t.Err? {
        return Some(t.error);
      }
      relationships := relationships[idx := joined.(relType := TypeJson(t.value), bidirectional := JBool(AllBidirectional(ms.value)))];
      assert relationships == rels0[idx := joined.(relType := TypeJson(t.value), bidirectional := JBool(AllBidirectional(ms.value)))];
      return None;
    }
  }
}
