/** Builders of the single-value filter conditions the resolvers combine. */
module ConditionExpressionHelper {
  import opened Text
  import opened Sdk
  import CrmIds

  /** An Equal condition on `attributeName` with `value` as its only value. */
  function CreateEqualsCondition(attributeName: string, value: Value): (r: ConditionExpression)
    ensures r.attributeName == attributeName && r.operator == Equal && r.values == [value]
    ensures forall e, ic :: Satisfies(e, r, ic) <==>
      attributeName in e.attributes && ValueEquals(e.attributes[attributeName], value, ic)
  {
    ConditionExpression(attributeName, Equal, [value])
  }

  /** Holds of accounts whose xv_platformid is the publisher's platform id. */
  function CreatePublisherIdCondition(publisherPlatformId: int): (r: ConditionExpression)
    ensures r.attributeName == "xv_platformid" && r.operator == Equal && r.values == [IntValue(publisherPlatformId)]
    ensures forall e, ic :: Satisfies(e, r, ic) <==>
      "xv_platformid" in e.attributes && e.attributes["xv_platformid"] == IntValue(publisherPlatformId)
  {
    CreateEqualsCondition("xv_platformid", IntValue(publisherPlatformId))
  }

  /** Holds of records classified as publisher (the lookup references CompanyTypePublisher). */
  function CreateIsPublisherCondition(): (r: ConditionExpression)
    ensures r.attributeName == "xv_firmenklassifizierung" && r.operator == Equal
    ensures r.values == [GuidValue(CrmIds.CompanyTypePublisher)]
    ensures forall e, ic :: Satisfies(e, r, ic) <==> IsClassifiedPublisher(e)
  {
    CreateEqualsCondition("xv_firmenklassifizierung", GuidValue(CrmIds.CompanyTypePublisher))
  }

  /** The record's classification is the publisher classification. */
  predicate IsClassifiedPublisher(e: Entity) {
    "xv_firmenklassifizierung" in e.attributes
    && ValueEquals(e.attributes["xv_firmenklassifizierung"], GuidValue(CrmIds.CompanyTypePublisher), false)
  }

  /** The record's text attribute `attributeName` equals `text` under the store's collation. */
  predicate HasText(e: Entity, attributeName: string, text: string, ignoreCase: bool) {
    attributeName in e.attributes && e.attributes[attributeName].StringValue?
    && TextEquals(e.attributes[attributeName].s, text, ignoreCase)
  }

  /** Holds of records named exactly `companyName`. */
  function CreatePublisherNameExactCondition(companyName: string): (r: ConditionExpression)
    ensures r.attributeName == "name" && r.operator == Equal && r.values == [StringValue(companyName)]
    ensures forall e, ic :: Satisfies(e, r, ic) <==> HasText(e, "name", companyName, ic)
  {
    CreateEqualsCondition("name", StringValue(companyName))
  }

  /** The one begins-with builder: holds of records whose name begins with `name`. */
  function CreatePublisherNameBeginsWithCondition(name: string): (r: ConditionExpression)
    ensures r.attributeName == "name" && r.operator == BeginsWith && r.values == [StringValue(name)]
    ensures forall e, ic :: Satisfies(e, r, ic) <==>
      "name" in e.attributes && e.attributes["name"].StringValue? && TextStartsWith(e.attributes["name"].s, name, ic)
  {
    ConditionExpression("name", BeginsWith, [StringValue(name)])
  }

  /** Holds of records whose xv_platformid (single t) is `entityPlatformId`. */
  function CreatePlatformIdEqualsCondition(entityPlatformId: int): (r: ConditionExpression)
    ensures r.attributeName == "xv_platformid" && r.operator == Equal && r.values == [IntValue(entityPlatformId)]
    ensures forall e, ic :: Satisfies(e, r, ic) <==>
      "xv_platformid" in e.attributes && e.attributes["xv_platformid"] == IntValue(entityPlatformId)
  {
    CreateEqualsCondition("xv_platformid", IntValue(entityPlatformId))
  }

  function CreateFirstNameEqualsCondition(firstName: string): (r: ConditionExpression)
    ensures r.attributeName == "firstname" && r.operator == Equal && r.values == [StringValue(firstName)]
    ensures forall e, ic :: Satisfies(e, r, ic) <==> HasText(e, "firstname", firstName, ic)
  {
    CreateEqualsCondition("firstname", StringValue(firstName))
  }

  function CreateLastNameEqualsCondition(lastName: string): (r: ConditionExpression)
    ensures r.attributeName == "lastname" && r.operator == Equal && r.values == [StringValue(lastName)]
    ensures forall e, ic :: Satisfies(e, r, ic) <==> HasText(e, "lastname", lastName, ic)
  {
    CreateEqualsCondition("lastname", StringValue(lastName))
  }

  function CreateCompanyNameCondition(companyName: string): (r: ConditionExpression)
    ensures r.attributeName == "name" && r.operator == Equal && r.values == [StringValue(companyName)]
    ensures forall e, ic :: Satisfies(e, r, ic) <==> HasText(e, "name", companyName, ic)
  {
    CreateEqualsCondition("name", StringValue(companyName))
  }

  function CreateIndustryCondition(industryName: string): (r: ConditionExpression)
    ensures r.attributeName == "xv_name" && r.operator == Equal && r.values == [StringValue(industryName)]
    ensures forall e, ic :: Satisfies(e, r, ic) <==> HasText(e, "xv_name", industryName, ic)
  {
    CreateEqualsCondition("xv_name", StringValue(industryName))
  }

  function CreateCountryCondition(countryName: string): (r: ConditionExpression)
    ensures r.attributeName == "xv_name" && r.operator == Equal && r.values == [StringValue(countryName)]
    ensures forall e, ic :: Satisfies(e, r, ic) <==> HasText(e, "xv_name", countryName, ic)
  {
    CreateEqualsCondition("xv_name", StringValue(countryName))
  }

  /** The exact publisher-name and company-name conditions are the same condition. */
  lemma NameConditionsAgree(companyName: string)
    ensures CreatePublisherNameExactCondition(companyName) == CreateCompanyNameCondition(companyName)
  {
  }

  /** The publisher-id and platform-id conditions are the same condition: both use xv_platformid. */
  lemma PlatformIdConditionsAgree(id: int)
    ensures CreatePublisherIdCondition(id) == CreatePlatformIdEqualsCondition(id)
  {
  }
}
