/**
 * The slice of the CRM SDK the core uses: records with an attribute map,
 * equality and begins-with conditions, queries that AND their conditions,
 * and RetrieveMultiple as an order-preserving filter over the store.
 */
module Sdk {
  import opened Text

  /** A GUID, by its 128-bit value. */
  datatype Guid = Guid(value: nat)

  /** `Guid.Empty`. */
  const EmptyGuid: Guid := Guid(0)

  datatype EntityReference = EntityReference(logicalName: string, id: Guid)

  /** Attribute values: numbers, text, GUIDs, lookups (references) and option-set codes. */
  datatype Value =
    | IntValue(i: int)
    | StringValue(s: string)
    | GuidValue(g: Guid)
    | ReferenceValue(r: EntityReference)
    | OptionSetValue(code: int)

  /** A record; an attribute missing from the map is null. */
  datatype Entity = Entity(logicalName: string, id: Guid, attributes: map<string, Value>) {
    function ToEntityReference(): (r: EntityReference)
      ensures r.logicalName == logicalName && r.id == id
    {
      EntityReference(logicalName, id)
    }
  }

  datatype ConditionOperator = Equal | BeginsWith

  datatype ConditionExpression = ConditionExpression(attributeName: string, operator: ConditionOperator, values: seq<Value>)

  /** A query on one entity kind whose filter is the AND of `conditions`. */
  datatype QueryExpression = QueryExpression(entityName: string, conditions: seq<ConditionExpression>)

  /** The organisation service: the stored records in retrieval order, and whether text compares ignoring case. */
  datatype OrganizationService = OrganizationService(entities: seq<Entity>, ignoreCase: bool)

  /** A stored value equals a query value; a lookup attribute equals the GUID of the record it references. */
  predicate ValueEquals(stored: Value, given: Value, ignoreCase: bool) {
    match (stored, given)
    case (StringValue(a), StringValue(b)) => TextEquals(a, b, ignoreCase)
    case (ReferenceValue(r), GuidValue(g)) => r.id == g
    case _ => stored == given
  }

  /** A condition holds of a record: one value, a non-null attribute, and the operator's test. */
  predicate Satisfies(e: Entity, c: ConditionExpression, ignoreCase: bool) {
    |c.values| == 1 && c.attributeName in e.attributes &&
    match c.operator
    case Equal => ValueEquals(e.attributes[c.attributeName], c.values[0], ignoreCase)
    case BeginsWith =>
      e.attributes[c.attributeName].StringValue? && c.values[0].StringValue?
      && TextStartsWith(e.attributes[c.attributeName].s, c.values[0].s, ignoreCase)
  }

  predicate Matches(e: Entity, q: QueryExpression, ignoreCase: bool) {
    e.logicalName == q.entityName && forall k :: 0 <= k < |q.conditions| ==> Satisfies(e, q.conditions[k], ignoreCase)
  }

  /** The positions of the matching records, in increasing order, and all of them. */
  function MatchPositions(es: seq<Entity>, q: QueryExpression, ignoreCase: bool): (r: seq<nat>)
    ensures forall k :: 0 <= k < |r| ==> r[k] < |es| && Matches(es[r[k]], q, ignoreCase)
    ensures forall k, l :: 0 <= k < l < |r| ==> r[k] < r[l]
    ensures forall i :: 0 <= i < |es| && Matches(es[i], q, ignoreCase) ==> i in r
    decreases |es|
  {
    if es == [] then []
    else
      var n := |es| - 1;
      MatchPositions(es[..n], q, ignoreCase) + (if Matches(es[n], q, ignoreCase) then [n] else [])
  }

  /** `IOrganizationService.RetrieveMultiple`: the matching records, in store order. */
  function RetrieveMultiple(service: OrganizationService, q: QueryExpression): (r: seq<Entity>)
    ensures var pos := MatchPositions(service.entities, q, service.ignoreCase);
      |r| == |pos| && forall k :: 0 <= k < |r| ==> r[k] == service.entities[pos[k]]
    decreases |service.entities|
  {
    var es := service.entities;
    if es == [] then []
    else
      var n := |es| - 1;
      RetrieveMultiple(OrganizationService(es[..n], service.ignoreCase), q)
      + (if Matches(es[n], q, service.ignoreCase) then [es[n]] else [])
  }

  ghost predicate NoMatch(es: seq<Entity>, q: QueryExpression, ignoreCase: bool) {
    forall i :: 0 <= i < |es| ==> !Matches(es[i], q, ignoreCase)
  }

  /** Position `i` holds the first matching record. */
  ghost predicate IsFirstMatch(es: seq<Entity>, q: QueryExpression, ignoreCase: bool, i: int) {
    0 <= i < |es| && Matches(es[i], q, ignoreCase) && forall j :: 0 <= j < i ==> !Matches(es[j], q, ignoreCase)
  }

  /** Position `i` holds the only matching record. */
  ghost predicate IsOnlyMatch(es: seq<Entity>, q: QueryExpression, ignoreCase: bool, i: int) {
    0 <= i < |es| && Matches(es[i], q, ignoreCase)
    && forall j :: 0 <= j < |es| && j != i ==> !Matches(es[j], q, ignoreCase)
  }

  /** Two different records match. */
  ghost predicate TwoMatches(es: seq<Entity>, q: QueryExpression, ignoreCase: bool) {
    exists i, j :: 0 <= i < j < |es| && Matches(es[i], q, ignoreCase) && Matches(es[j], q, ignoreCase)
  }

  /** RetrieveMultiple is empty exactly when no record matches. */
  lemma RetrieveNone(service: OrganizationService, q: QueryExpression)
    ensures RetrieveMultiple(service, q) == [] <==> NoMatch(service.entities, q, service.ignoreCase)
  {
    var pos := MatchPositions(service.entities, q, service.ignoreCase);
    if pos != [] {
      assert Matches(service.entities[pos[0]], q, service.ignoreCase);
    }
    if !NoMatch(service.entities, q, service.ignoreCase) {
      var i :| 0 <= i < |service.entities| && Matches(service.entities[i], q, service.ignoreCase);
      assert i in pos;
    }
  }

  /** The head of RetrieveMultiple is the first matching record of the store. */
  lemma RetrieveFirst(service: OrganizationService, q: QueryExpression)
    requires RetrieveMultiple(service, q) != []
    ensures IsFirstMatch(service.entities, q, service.ignoreCase, MatchPositions(service.entities, q, service.ignoreCase)[0])
    ensures RetrieveMultiple(service, q)[0] == service.entities[MatchPositions(service.entities, q, service.ignoreCase)[0]]
  {
    var es, ic := service.entities, service.ignoreCase;
    var pos := MatchPositions(es, q, ic);
    assert forall k :: 0 <= k < |pos| ==> pos[0] <= pos[k];
    forall j | 0 <= j < pos[0] ensures !Matches(es[j], q, ic) {
      assert j !in pos;
    }
  }

  /** RetrieveMultiple holds more than one record exactly when two different records match. */
  lemma RetrieveMany(service: OrganizationService, q: QueryExpression)
    ensures |RetrieveMultiple(service, q)| > 1 <==> TwoMatches(service.entities, q, service.ignoreCase)
  {
    var es, ic := service.entities, service.ignoreCase;
    var pos := MatchPositions(es, q, ic);
    if |pos| > 1 {
      assert 0 <= pos[0] < pos[1] < |es| && Matches(es[pos[0]], q, ic) && Matches(es[pos[1]], q, ic);
    }
    if TwoMatches(es, q, ic) {
      var i, j :| 0 <= i < j < |es| && Matches(es[i], q, ic) && Matches(es[j], q, ic);
      assert i in pos && j in pos;
      var a :| 0 <= a < |pos| && pos[a] == i;
      var b :| 0 <= b < |pos| && pos[b] == j;
      assert a != b;
    }
  }

  /** A one-record RetrieveMultiple holds the only matching record. */
  lemma RetrieveSingle(service: OrganizationService, q: QueryExpression)
    requires |RetrieveMultiple(service, q)| == 1
    ensures IsOnlyMatch(service.entities, q, service.ignoreCase, MatchPositions(service.entities, q, service.ignoreCase)[0])
    ensures RetrieveMultiple(service, q)[0] == service.entities[MatchPositions(service.entities, q, service.ignoreCase)[0]]
  {
    var es, ic := service.entities, service.ignoreCase;
    var pos := MatchPositions(es, q, ic);
    forall j | 0 <= j < |es| && j != pos[0] ensures !Matches(es[j], q, ic) {
      assert pos == [pos[0]];
      assert j !in pos;
    }
  }
}
