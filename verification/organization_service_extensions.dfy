/**
 * The lookup resolvers: each builds a query, runs RetrieveMultiple and
 * applies one match policy. Exceptions become Lookup outcomes: NotFound
 * (CrmEntityNotFoundException), Ambiguous (CrmAmbiguousMatchException) and
 * InvalidArgument (the argument guard).
 */
module OrganizationServiceExtensions {
  import opened Wrappers
  import opened Text
  import opened Sdk
  import CrmIds
  import opened ConditionExpressionHelper
  import CompanyNameHelper

  datatype Lookup<T> = Found(value: T) | NotFound | Ambiguous(count: nat) | InvalidArgument

  // ---------------------------------------------------------------------------
  // Specification vocabulary: which records a resolver is after
  // ---------------------------------------------------------------------------

  /** The query of `q` selects exactly the records `p` holds of. */
  ghost predicate QueryMeans(service: OrganizationService, q: QueryExpression, p: Entity -> bool) {
    forall e :: Matches(e, q, service.ignoreCase) <==> p(e)
  }

  ghost predicate NoneWhere(es: seq<Entity>, p: Entity -> bool) {
    forall i :: 0 <= i < |es| ==> !p(es[i])
  }

  ghost predicate IsFirstWhere(es: seq<Entity>, p: Entity -> bool, i: int) {
    0 <= i < |es| && p(es[i]) && forall j :: 0 <= j < i ==> !p(es[j])
  }

  ghost predicate IsOnlyWhere(es: seq<Entity>, p: Entity -> bool, i: int) {
    0 <= i < |es| && p(es[i]) && forall j :: 0 <= j < |es| && j != i ==> !p(es[j])
  }

  ghost predicate TwoWhere(es: seq<Entity>, p: Entity -> bool) {
    exists i, j :: 0 <= i < j < |es| && p(es[i]) && p(es[j])
  }

  /** The records `p` holds of, in store order: the reference definition of a filter. */
  ghost function Where(es: seq<Entity>, p: Entity -> bool): (r: seq<Entity>)
    ensures |r| <= |es|
    ensures forall x :: x in r <==> x in es && p(x)
    decreases |es|
  {
    if es == [] then [] else Where(es[..|es| - 1], p) + (if p(es[|es| - 1]) then [es[|es| - 1]] else [])
  }

  /** First-or-NotFound, returning the record. */
  ghost predicate FirstOrNotFound(es: seq<Entity>, p: Entity -> bool, r: Lookup<Entity>) {
    (r.Found? || r.NotFound?)
    && (r.NotFound? <==> NoneWhere(es, p))
    && (r.Found? ==> exists i :: IsFirstWhere(es, p, i) && r.value == es[i])
  }

  /** First-or-NotFound, returning a reference to the record. */
  ghost predicate FirstRefOrNotFound(es: seq<Entity>, p: Entity -> bool, r: Lookup<EntityReference>) {
    (r.Found? || r.NotFound?)
    && (r.NotFound? <==> NoneWhere(es, p))
    && (r.Found? ==> exists i :: IsFirstWhere(es, p, i) && r.value == es[i].ToEntityReference())
  }

  /** First-or-absent, returning a reference to the record. */
  ghost predicate FirstRefOrNone(es: seq<Entity>, p: Entity -> bool, r: Option<EntityReference>) {
    (r.None? <==> NoneWhere(es, p))
    && (r.Some? ==> exists i :: IsFirstWhere(es, p, i) && r.value == es[i].ToEntityReference())
  }

  /** NotFound, Ambiguous with the number of matches, or the single match. */
  ghost predicate UniqueRef(es: seq<Entity>, p: Entity -> bool, r: Lookup<EntityReference>) {
    (r.Found? || r.NotFound? || r.Ambiguous?)
    && (r.NotFound? <==> NoneWhere(es, p))
    && (r.Ambiguous? <==> TwoWhere(es, p))
    && (r.Ambiguous? ==> r.count == |Where(es, p)| && r.count >= 2)
    && (r.Found? ==> exists i :: IsOnlyWhere(es, p, i) && r.value == es[i].ToEntityReference())
  }

  // ---------------------------------------------------------------------------
  // What the conditions select
  // ---------------------------------------------------------------------------

  predicate HasPlatformId(e: Entity, entityName: string, attributeName: string, id: int) {
    e.logicalName == entityName && attributeName in e.attributes && e.attributes[attributeName] == IntValue(id)
  }

  /** Records of `entityName` whose `attributeName` is the platform id `id`. */
  function WithPlatformId(entityName: string, attributeName: string, id: int): Entity -> bool {
    (e: Entity) => HasPlatformId(e, entityName, attributeName, id)
  }

  /** Records of `entityName` whose lookup `attributeName` points at the record with GUID `id`. */
  function LinkedTo(entityName: string, attributeName: string, id: Guid): Entity -> bool {
    (e: Entity) => e.logicalName == entityName && attributeName in e.attributes
      && ValueEquals(e.attributes[attributeName], GuidValue(id), false)
  }

  /** Publisher accounts named `name`. */
  function PublisherNamed(name: string, ignoreCase: bool): Entity -> bool {
    (e: Entity) => e.logicalName == "account" && HasText(e, "name", name, ignoreCase) && IsClassifiedPublisher(e)
  }

  predicate NameBeginsWith(e: Entity, prefix: string, ignoreCase: bool) {
    "name" in e.attributes && e.attributes["name"].StringValue?
    && TextStartsWith(e.attributes["name"].s, prefix, ignoreCase)
  }

  /** Publisher accounts whose name begins with `prefix`. */
  function PublisherNameBeginsWith(prefix: string, ignoreCase: bool): Entity -> bool {
    (e: Entity) => e.logicalName == "account" && NameBeginsWith(e, prefix, ignoreCase) && IsClassifiedPublisher(e)
  }

  /** Accounts whose name begins with `prefix`. */
  function AccountNameBeginsWith(prefix: string, ignoreCase: bool): Entity -> bool {
    (e: Entity) => e.logicalName == "account" && NameBeginsWith(e, prefix, ignoreCase)
  }

  /** Accounts named `name`. */
  function AccountNamed(name: string, ignoreCase: bool): Entity -> bool {
    (e: Entity) => e.logicalName == "account" && HasText(e, "name", name, ignoreCase)
  }

  /** System users with this first and last name. */
  function UserNamed(firstName: string, lastName: string, ignoreCase: bool): Entity -> bool {
    (e: Entity) => e.logicalName == "systemuser" && HasText(e, "firstname", firstName, ignoreCase)
      && HasText(e, "lastname", lastName, ignoreCase)
  }

  /** Reference-data records of `entityName` whose xv_name is `name`. */
  function ReferenceDataNamed(entityName: string, name: string, ignoreCase: bool): Entity -> bool {
    (e: Entity) => e.logicalName == entityName && HasText(e, "xv_name", name, ignoreCase)
  }

  // ---------------------------------------------------------------------------
  // Match policies over RetrieveMultiple
  // ---------------------------------------------------------------------------

  /** RetrieveMultiple of a query that means `p` is the reference filter Where(p). */
  lemma {:induction false} RetrieveIsWhere(service: OrganizationService, q: QueryExpression, p: Entity -> bool)
    requires QueryMeans(service, q, p)
    ensures RetrieveMultiple(service, q) == Where(service.entities, p)
    decreases |service.entities|
  {
    var es := service.entities;
    if es != [] {
      var n := |es| - 1;
      assert QueryMeans(OrganizationService(es[..n], service.ignoreCase), q, p);
      RetrieveIsWhere(OrganizationService(es[..n], service.ignoreCase), q, p);
      assert p(es[n]) <==> Matches(es[n], q, service.ignoreCase);
    }
  }

  /** Under QueryMeans, the store's match predicates and the filter predicates here agree. */
  lemma MatchesAreWhere(service: OrganizationService, q: QueryExpression, p: Entity -> bool, i: int)
    requires QueryMeans(service, q, p)
    ensures NoMatch(service.entities, q, service.ignoreCase) <==> NoneWhere(service.entities, p)
    ensures TwoMatches(service.entities, q, service.ignoreCase) <==> TwoWhere(service.entities, p)
    ensures IsFirstMatch(service.entities, q, service.ignoreCase, i) <==> IsFirstWhere(service.entities, p, i)
    ensures IsOnlyMatch(service.entities, q, service.ignoreCase, i) <==> IsOnlyWhere(service.entities, p, i)
  {
    var es, ic := service.entities, service.ignoreCase;
    if TwoMatches(es, q, ic) {
      var a, b :| 0 <= a < b < |es| && Matches(es[a], q, ic) && Matches(es[b], q, ic);
      assert p(es[a]) && p(es[b]);
    }
    if TwoWhere(es, p) {
      var a, b :| 0 <= a < b < |es| && p(es[a]) && p(es[b]);
      assert Matches(es[a], q, ic) && Matches(es[b], q, ic);
    }
  }

  /** `RetrieveMultiple(q).FirstOrDefault()`, NotFound when null. */
  function RetrieveFirst(service: OrganizationService, q: QueryExpression, ghost p: Entity -> bool): (r: Lookup<Entity>)
    requires QueryMeans(service, q, p)
    ensures FirstOrNotFound(service.entities, p, r)
  {
    var found := RetrieveMultiple(service, q);
    Sdk.RetrieveNone(service, q);
    MatchesAreWhere(service, q, p, 0);
    if found == [] then NotFound
    else
      Sdk.RetrieveFirst(service, q);
      var i := MatchPositions(service.entities, q, service.ignoreCase)[0];
      MatchesAreWhere(service, q, p, i);
      Found(found[0])
  }

  /** RetrieveFirst, as a reference. */
  function RetrieveFirstRef(service: OrganizationService, q: QueryExpression, ghost p: Entity -> bool): (r: Lookup<EntityReference>)
    requires QueryMeans(service, q, p)
    ensures FirstRefOrNotFound(service.entities, p, r)
  {
    match RetrieveFirst(service, q, p)
    case Found(e) => Found(e.ToEntityReference())
    case _ => NotFound
  }

  /** RetrieveFirst, absent instead of NotFound. */
  function RetrieveFirstRefOrNone(service: OrganizationService, q: QueryExpression, ghost p: Entity -> bool): (r: Option<EntityReference>)
    requires QueryMeans(service, q, p)
    ensures FirstRefOrNone(service.entities, p, r)
  {
    match RetrieveFirst(service, q, p)
    case Found(e) => Some(e.ToEntityReference())
    case _ => None
  }

  /** NotFound on none, Ambiguous(count) on several, else the one record. */
  function RetrieveUnique(service: OrganizationService, q: QueryExpression, ghost p: Entity -> bool): (r: Lookup<EntityReference>)
    requires QueryMeans(service, q, p)
    ensures UniqueRef(service.entities, p, r)
  {
    var found := RetrieveMultiple(service, q);
    Sdk.RetrieveNone(service, q);
    Sdk.RetrieveMany(service, q);
    RetrieveIsWhere(service, q, p);
    MatchesAreWhere(service, q, p, 0);
    if found == [] then NotFound
    else if |found| > 1 then Ambiguous(|found|)
    else
      Sdk.RetrieveSingle(service, q);
      MatchesAreWhere(service, q, p, MatchPositions(service.entities, q, service.ignoreCase)[0]);
      Found(found[0].ToEntityReference())
  }

  // ---------------------------------------------------------------------------
  // Platform-id lookups
  // ---------------------------------------------------------------------------

  /** A query with one condition means: of kind `entityName` and satisfying the condition. */
  lemma OneConditionQuery(service: OrganizationService, entityName: string, c: ConditionExpression, p: Entity -> bool)
    requires forall e :: p(e) <==> e.logicalName == entityName && Satisfies(e, c, service.ignoreCase)
    ensures QueryMeans(service, QueryExpression(entityName, [c]), p)
  {
    var q := QueryExpression(entityName, [c]);
    forall e ensures Matches(e, q, service.ignoreCase) <==> p(e) {
      assert q.conditions[0] == c;
    }
  }

  /** A query with two conditions means: of kind `entityName` and satisfying both. */
  lemma TwoConditionQuery(service: OrganizationService, entityName: string, c: ConditionExpression, d: ConditionExpression, p: Entity -> bool)
    requires forall e :: p(e) <==> e.logicalName == entityName && Satisfies(e, c, service.ignoreCase) && Satisfies(e, d, service.ignoreCase)
    ensures QueryMeans(service, QueryExpression(entityName, [c, d]), p)
  {
    var q := QueryExpression(entityName, [c, d]);
    forall e ensures Matches(e, q, service.ignoreCase) <==> p(e) {
      assert q.conditions[0] == c && q.conditions[1] == d;
    }
  }

  /** The platform-id query on `entityName`, built with CreatePlatformIdEqualsCondition. */
  function PlatformIdQuery(entityName: string, id: int): QueryExpression {
    QueryExpression(entityName, [CreatePlatformIdEqualsCondition(id)])
  }

  lemma PlatformIdQueryMeans(service: OrganizationService, entityName: string, id: int)
    ensures QueryMeans(service, PlatformIdQuery(entityName, id), WithPlatformId(entityName, "xv_platformid", id))
  {
    OneConditionQuery(service, entityName, CreatePlatformIdEqualsCondition(id), WithPlatformId(entityName, "xv_platformid", id));
  }

  /** The platform-id query on `entityName` with the hand-built "xv_plattformid" (double t) condition. */
  function PlattformIdQuery(entityName: string, id: int): QueryExpression {
    QueryExpression(entityName, [ConditionExpression("xv_plattformid", Equal, [IntValue(id)])])
  }

  lemma PlattformIdQueryMeans(service: OrganizationService, entityName: string, id: int)
    ensures QueryMeans(service, PlattformIdQuery(entityName, id), WithPlatformId(entityName, "xv_plattformid", id))
  {
    OneConditionQuery(service, entityName, ConditionExpression("xv_plattformid", Equal, [IntValue(id)]), WithPlatformId(entityName, "xv_plattformid", id));
  }

  /** The first contact with this platform id. */
  function GetContactByPlatformId(service: OrganizationService, personId: int): (r: Lookup<Entity>)
    ensures FirstOrNotFound(service.entities, WithPlatformId("contact", "xv_platformid", personId), r)
  {
    PlatformIdQueryMeans(service, "contact", personId);
    RetrieveFirst(service, PlatformIdQuery("contact", personId), WithPlatformId("contact", "xv_platformid", personId))
  }

  /** The first sales order with this platform id, matched on "xv_plattformid". */
  function GetSalesOrderByPlatformId(service: OrganizationService, salesOrderId: int): (r: Lookup<Entity>)
    ensures FirstOrNotFound(service.entities, WithPlatformId("salesorder", "xv_plattformid", salesOrderId), r)
  {
    PlattformIdQueryMeans(service, "salesorder", salesOrderId);
    RetrieveFirst(service, PlattformIdQuery("salesorder", salesOrderId), WithPlatformId("salesorder", "xv_plattformid", salesOrderId))
  }

  /** A reference to the first sales-order line with this platform id. */
  function GetSalesOrderItemReferenceByPlatformId(service: OrganizationService, salesOrderItemId: int): (r: Lookup<EntityReference>)
    ensures FirstRefOrNotFound(service.entities, WithPlatformId("salesorderdetail", "xv_platformid", salesOrderItemId), r)
    ensures r.Found? ==> r.value.logicalName == "salesorderdetail"
  {
    PlatformIdQueryMeans(service, "salesorderdetail", salesOrderItemId);
    RetrieveFirstRef(service, PlatformIdQuery("salesorderdetail", salesOrderItemId), WithPlatformId("salesorderdetail", "xv_platformid", salesOrderItemId))
  }

  /** The first opportunity with this platform id, matched on "xv_plattformid". */
  function GetOpportunityByPlatformId(service: OrganizationService, opportunityId: int): (r: Lookup<Entity>)
    ensures FirstOrNotFound(service.entities, WithPlatformId("opportunity", "xv_plattformid", opportunityId), r)
  {
    PlattformIdQueryMeans(service, "opportunity", opportunityId);
    RetrieveFirst(service, PlattformIdQuery("opportunity", opportunityId), WithPlatformId("opportunity", "xv_plattformid", opportunityId))
  }

  /** A reference to the first opportunity product with this platform id. */
  function GetOpportunityItemReferenceByPlatformId(service: OrganizationService, opportunityItemId: int): (r: Lookup<EntityReference>)
    ensures FirstRefOrNotFound(service.entities, WithPlatformId("opportunityproduct", "xv_platformid", opportunityItemId), r)
    ensures r.Found? ==> r.value.logicalName == "opportunityproduct"
  {
    PlatformIdQueryMeans(service, "opportunityproduct", opportunityItemId);
    RetrieveFirstRef(service, PlatformIdQuery("opportunityproduct", opportunityItemId), WithPlatformId("opportunityproduct", "xv_platformid", opportunityItemId))
  }

  /** A reference to the first account with this publisher platform id. */
  function GetPublisherReferenceByPlatformId(service: OrganizationService, publisherId: int): (r: Lookup<EntityReference>)
    ensures FirstRefOrNotFound(service.entities, WithPlatformId("account", "xv_platformid", publisherId), r)
    ensures r.Found? ==> r.value.logicalName == "account"
  {
    var q := QueryExpression("account", [CreatePublisherIdCondition(publisherId)]);
    OneConditionQuery(service, "account", CreatePublisherIdCondition(publisherId), WithPlatformId("account", "xv_platformid", publisherId));
    RetrieveFirstRef(service, q, WithPlatformId("account", "xv_platformid", publisherId))
  }

  /** The first quote with this platform id, matched on "xv_plattformid"; the column set is not modelled. */
  function GetQuoteByPlatformId(service: OrganizationService, quoteId: int): (r: Lookup<Entity>)
    ensures FirstOrNotFound(service.entities, WithPlatformId("quote", "xv_plattformid", quoteId), r)
  {
    PlattformIdQueryMeans(service, "quote", quoteId);
    RetrieveFirst(service, PlattformIdQuery("quote", quoteId), WithPlatformId("quote", "xv_plattformid", quoteId))
  }

  /** A reference to the first quote line with this platform id. */
  function GetQuoteItemReferenceByPlatformId(service: OrganizationService, quoteItemId: int): (r: Lookup<EntityReference>)
    ensures FirstRefOrNotFound(service.entities, WithPlatformId("quotedetail", "xv_platformid", quoteItemId), r)
    ensures r.Found? ==> r.value.logicalName == "quotedetail"
  {
    PlatformIdQueryMeans(service, "quotedetail", quoteItemId);
    RetrieveFirstRef(service, PlatformIdQuery("quotedetail", quoteItemId), WithPlatformId("quotedetail", "xv_platformid", quoteItemId))
  }

  /** The first platform message with this platform id. */
  function GetMessageByPlatformId(service: OrganizationService, messageId: int): (r: Lookup<Entity>)
    ensures FirstOrNotFound(service.entities, WithPlatformId("xv_platformmessage", "xv_platformid", messageId), r)
  {
    PlatformIdQueryMeans(service, "xv_platformmessage", messageId);
    RetrieveFirst(service, PlatformIdQuery("xv_platformmessage", messageId), WithPlatformId("xv_platformmessage", "xv_platformid", messageId))
  }

  // ---------------------------------------------------------------------------
  // Item lists
  // ---------------------------------------------------------------------------

  /** References to the records of `entityName` whose lookup `attributeName` points at `parent`, in store order. */
  function ItemReferences(service: OrganizationService, entityName: string, attributeName: string, parent: EntityReference): (r: seq<EntityReference>)
    ensures var items := Where(service.entities, LinkedTo(entityName, attributeName, parent.id));
      |r| == |items| && forall k :: 0 <= k < |r| ==> r[k] == items[k].ToEntityReference()
  {
    var q := QueryExpression(entityName, [CreateEqualsCondition(attributeName, GuidValue(parent.id))]);
    var found := RetrieveMultiple(service, q);
    OneConditionQuery(service, entityName, CreateEqualsCondition(attributeName, GuidValue(parent.id)), LinkedTo(entityName, attributeName, parent.id));
    RetrieveIsWhere(service, q, LinkedTo(entityName, attributeName, parent.id));
    seq(|found|, k requires 0 <= k < |found| => found[k].ToEntityReference())
  }

  function GetSalesOrderItemsByOrder(service: OrganizationService, orderReference: EntityReference): (r: seq<EntityReference>)
    ensures var items := Where(service.entities, LinkedTo("salesorderdetail", "salesorderid", orderReference.id));
      |r| == |items| && forall k :: 0 <= k < |r| ==> r[k] == items[k].ToEntityReference()
  {
    ItemReferences(service, "salesorderdetail", "salesorderid", orderReference)
  }

  function GetOpportunityItemsByOpportunityId(service: OrganizationService, opportunityReference: EntityReference): (r: seq<EntityReference>)
    ensures var items := Where(service.entities, LinkedTo("opportunityproduct", "opportunityid", opportunityReference.id));
      |r| == |items| && forall k :: 0 <= k < |r| ==> r[k] == items[k].ToEntityReference()
  {
    ItemReferences(service, "opportunityproduct", "opportunityid", opportunityReference)
  }

  function GetQuoteItemsByQuoteId(service: OrganizationService, quoteReference: EntityReference): (r: seq<EntityReference>)
    ensures var items := Where(service.entities, LinkedTo("quotedetail", "quoteid", quoteReference.id));
      |r| == |items| && forall k :: 0 <= k < |r| ==> r[k] == items[k].ToEntityReference()
  {
    ItemReferences(service, "quotedetail", "quoteid", quoteReference)
  }

  // ---------------------------------------------------------------------------
  // Lookups by name
  // ---------------------------------------------------------------------------

  /** The first publisher account named `companyName`; several such accounts are not an error. */
  function GetPublisherReferenceByNameExact(service: OrganizationService, companyName: string): (r: Lookup<EntityReference>)
    ensures FirstRefOrNotFound(service.entities, PublisherNamed(companyName, service.ignoreCase), r)
  {
    var nameCondition := CreatePublisherNameExactCondition(companyName);
    var isPublisherCondition := CreateIsPublisherCondition();
    var p := PublisherNamed(companyName, service.ignoreCase);
    TwoConditionQuery(service, "account", nameCondition, isPublisherCondition, p);
    RetrieveFirstRef(service, QueryExpression("account", [nameCondition, isPublisherCondition]), p)
  }

  /**
   * The publisher account whose name begins with the normalised company name:
   * Ambiguous when there are several, NotFound when there is none.
   */
  function GetPublisherReferenceByNameFuzzy(service: OrganizationService, companyName: string): (r: Lookup<EntityReference>)
    ensures UniqueRef(service.entities, PublisherNameBeginsWith(CompanyNameHelper.Normalize(companyName), service.ignoreCase), r)
  {
    var name := CompanyNameHelper.Normalize(companyName);
    var nameCondition := CreatePublisherNameBeginsWithCondition(name);
    var isPublisherCondition := CreateIsPublisherCondition();
    var p := PublisherNameBeginsWith(name, service.ignoreCase);
    TwoConditionQuery(service, "account", nameCondition, isPublisherCondition, p);
    RetrieveUnique(service, QueryExpression("account", [nameCondition, isPublisherCondition]), p)
  }

  /** Exact lookup first; only its NotFound falls back to the fuzzy lookup. */
  function GetPublisherReferenceByName(service: OrganizationService, companyName: string): (r: Lookup<EntityReference>)
    ensures !NoneWhere(service.entities, PublisherNamed(companyName, service.ignoreCase)) ==>
      FirstRefOrNotFound(service.entities, PublisherNamed(companyName, service.ignoreCase), r) && r.Found?
    ensures NoneWhere(service.entities, PublisherNamed(companyName, service.ignoreCase)) ==>
      UniqueRef(service.entities, PublisherNameBeginsWith(CompanyNameHelper.Normalize(companyName), service.ignoreCase), r)
  {
    var exact := GetPublisherReferenceByNameExact(service, companyName);
    if exact.NotFound? then GetPublisherReferenceByNameFuzzy(service, companyName) else exact
  }

  /** The account (of any classification) whose name begins with the normalised company name. */
  function GetAccountReferenceByNameFuzzy(service: OrganizationService, companyName: string): (r: Lookup<EntityReference>)
    ensures UniqueRef(service.entities, AccountNameBeginsWith(CompanyNameHelper.Normalize(companyName), service.ignoreCase), r)
  {
    var name := CompanyNameHelper.Normalize(companyName);
    var nameCondition := CreatePublisherNameBeginsWithCondition(name);
    var p := AccountNameBeginsWith(name, service.ignoreCase);
    OneConditionQuery(service, "account", nameCondition, p);
    RetrieveUnique(service, QueryExpression("account", [nameCondition]), p)
  }

  /** The one system user with this first and last name. */
  function GetManagerReferenceByName(service: OrganizationService, firstName: string, lastName: string): (r: Lookup<EntityReference>)
    ensures UniqueRef(service.entities, UserNamed(firstName, lastName, service.ignoreCase), r)
  {
    var firstNameCondition := CreateFirstNameEqualsCondition(firstName);
    var lastNameCondition := CreateLastNameEqualsCondition(lastName);
    var p := UserNamed(firstName, lastName, service.ignoreCase);
    TwoConditionQuery(service, "systemuser", firstNameCondition, lastNameCondition, p);
    RetrieveUnique(service, QueryExpression("systemuser", [firstNameCondition, lastNameCondition]), p)
  }

  /** The one account named `companyName`. */
  function GetCompanyReferenceByName(service: OrganizationService, companyName: string): (r: Lookup<EntityReference>)
    ensures UniqueRef(service.entities, AccountNamed(companyName, service.ignoreCase), r)
  {
    var companyNameCondition := CreateCompanyNameCondition(companyName);
    var p := AccountNamed(companyName, service.ignoreCase);
    OneConditionQuery(service, "account", companyNameCondition, p);
    RetrieveUnique(service, QueryExpression("account", [companyNameCondition]), p)
  }

  /** Despite its name, looks the account up by name, exactly as GetCompanyReferenceByName. */
  function GetCompanyReferenceById(service: OrganizationService, companyName: string): (r: Lookup<EntityReference>)
    ensures UniqueRef(service.entities, AccountNamed(companyName, service.ignoreCase), r)
  {
    var companyNameCondition := CreateCompanyNameCondition(companyName);
    var p := AccountNamed(companyName, service.ignoreCase);
    OneConditionQuery(service, "account", companyNameCondition, p);
    RetrieveUnique(service, QueryExpression("account", [companyNameCondition]), p)
  }

  /** No reference for an empty name (without querying); otherwise the first industry of that name, if any. */
  function GetIndustryReferenceByName(service: OrganizationService, industryName: string): (r: Option<EntityReference>)
    ensures industryName == "" ==> r.None?
    ensures industryName != "" ==> FirstRefOrNone(service.entities, ReferenceDataNamed("xv_branche", industryName, service.ignoreCase), r)
  {
    if industryName == "" then None
    else
      var industryCondition := CreateIndustryCondition(industryName);
      var p := ReferenceDataNamed("xv_branche", industryName, service.ignoreCase);
      OneConditionQuery(service, "xv_branche", industryCondition, p);
      RetrieveFirstRefOrNone(service, QueryExpression("xv_branche", [industryCondition]), p)
  }

  /** No reference for an empty or blank name (without querying); otherwise the first country of that name, if any. */
  function GetCountryReferenceByName(service: OrganizationService, countryName: string): (r: Option<EntityReference>)
    ensures IsWhiteSpaceOnly(countryName) ==> r.None?
    ensures !IsWhiteSpaceOnly(countryName) ==> FirstRefOrNone(service.entities, ReferenceDataNamed("xv_land", countryName, service.ignoreCase), r)
  {
    if IsWhiteSpaceOnly(countryName) then None
    else
      var countryCondition := CreateCountryCondition(countryName);
      var p := ReferenceDataNamed("xv_land", countryName, service.ignoreCase);
      OneConditionQuery(service, "xv_land", countryCondition, p);
      RetrieveFirstRefOrNone(service, QueryExpression("xv_land", [countryCondition]), p)
  }

  /** InvalidArgument for an empty name; otherwise the first product type of that name, or NotFound. */
  function GetProductTypeReferenceByName(service: OrganizationService, productTypeName: string): (r: Lookup<EntityReference>)
    ensures r.InvalidArgument? <==> productTypeName == ""
    ensures productTypeName != "" ==> FirstRefOrNotFound(service.entities, ReferenceDataNamed("xv_gattungen", productTypeName, service.ignoreCase), r)
  {
    if productTypeName == "" then InvalidArgument
    else
      var condition := CreateEqualsCondition("xv_name", StringValue(productTypeName));
      var p := ReferenceDataNamed("xv_gattungen", productTypeName, service.ignoreCase);
      OneConditionQuery(service, "xv_gattungen", condition, p);
      RetrieveFirstRef(service, QueryExpression("xv_gattungen", [condition]), p)
  }

  /** InvalidArgument for an empty name; otherwise the first company classification of that name, or NotFound. */
  function GetCompanyClassificationReferenceByName(service: OrganizationService, companyClassification: string): (r: Lookup<EntityReference>)
    ensures r.InvalidArgument? <==> companyClassification == ""
    ensures companyClassification != "" ==>
      FirstRefOrNotFound(service.entities, ReferenceDataNamed("xv_firmenklassifizierung", companyClassification, service.ignoreCase), r)
  {
    if companyClassification == "" then InvalidArgument
    else
      var condition := CreateEqualsCondition("xv_name", StringValue(companyClassification));
      var p := ReferenceDataNamed("xv_firmenklassifizierung", companyClassification, service.ignoreCase);
      OneConditionQuery(service, "xv_firmenklassifizierung", condition, p);
      RetrieveFirstRef(service, QueryExpression("xv_firmenklassifizierung", [condition]), p)
  }

  // ---------------------------------------------------------------------------
  // Properties relating the resolvers
  // ---------------------------------------------------------------------------

  /** The by-id company lookup gives the same outcome as the by-name one on every store. */
  lemma CompanyReferenceByIdIsByName(service: OrganizationService, companyName: string)
    ensures GetCompanyReferenceById(service, companyName) == GetCompanyReferenceByName(service, companyName)
  {
  }

  /** Two publishers with the same name do not make the exact lookup fail: it takes the first. */
  lemma ExactLookupIgnoresDuplicates(service: OrganizationService, companyName: string)
    requires TwoWhere(service.entities, PublisherNamed(companyName, service.ignoreCase))
    ensures GetPublisherReferenceByNameExact(service, companyName).Found?
  {
    var p := PublisherNamed(companyName, service.ignoreCase);
    var i, j :| 0 <= i < j < |service.entities| && p(service.entities[i]) && p(service.entities[j]);
    assert !NoneWhere(service.entities, p);
  }

  /** Several accounts whose names begin with the normalised name make the fuzzy lookup Ambiguous. */
  lemma FuzzyLookupAmbiguous(service: OrganizationService, companyName: string, i: nat, j: nat)
    requires i < j < |service.entities|
    requires AccountNameBeginsWith(CompanyNameHelper.Normalize(companyName), service.ignoreCase)(service.entities[i])
    requires AccountNameBeginsWith(CompanyNameHelper.Normalize(companyName), service.ignoreCase)(service.entities[j])
    ensures GetAccountReferenceByNameFuzzy(service, companyName) == Ambiguous(|Where(service.entities, AccountNameBeginsWith(CompanyNameHelper.Normalize(companyName), service.ignoreCase))|)
  {
  }

  /**
   * A company name that normalises to "" (such as "" or "...") begins every
   * account name, so the fuzzy lookup selects every account with a name.
   */
  lemma FuzzyLookupOfEmptyName(service: OrganizationService, companyName: string, e: Entity)
    requires CompanyNameHelper.Normalize(companyName) == ""
    ensures AccountNameBeginsWith(CompanyNameHelper.Normalize(companyName), service.ignoreCase)(e) <==>
      e.logicalName == "account" && "name" in e.attributes && e.attributes["name"].StringValue?
  {
    if "name" in e.attributes && e.attributes["name"].StringValue? {
      StartsWithEmpty(e.attributes["name"].s, service.ignoreCase);
    }
  }
}
