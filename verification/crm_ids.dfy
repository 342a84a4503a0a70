/** Well-known record ids of the CRM installation and the salutation option-set codes. */
module CrmIds {
  import opened Sdk

  /** The company classification "publisher". */
  const CompanyTypePublisher: Guid := Guid(0xa98e29b5_7b58_e311_9405_00155d028b03)
  /** The company classification "customer" (parsed from upper-case hex digits; parsing ignores case). */
  const CompanyTypeCustomer: Guid := Guid(0x63c9cf88_7c83_e311_9407_00155d028b03)
  /** The account source "unknown". */
  const AccountSourceUnknown: Guid := Guid(0x4039718a_7078_e311_9407_00155d028b03)

  /** The three well-known ids are pairwise distinct and none is the empty GUID. */
  lemma WellKnownIdsDistinct()
    ensures CompanyTypePublisher != CompanyTypeCustomer
    ensures CompanyTypePublisher != AccountSourceUnknown
    ensures CompanyTypeCustomer != AccountSourceUnknown
    ensures EmptyGuid !in {CompanyTypePublisher, CompanyTypeCustomer, AccountSourceUnknown}
  {
  }

  /** Salutation text to option-set code; keys compare exactly (ordinal, case-sensitive). */
  const SalutationLookup: map<string, int> := map[
    "Hr." := 772600000,
    "Fr." := 772600001,
    "Hr. Dr." := 772600002,
    "Fr. Dr." := 772600003,
    "Hr. Prof. Dr." := 772600004,
    "Fr. Prof. Dr." := 772600005,
    "Hr. Prof." := 772600006,
    "Fr. Prof." := 772600007]

  /** The option-set code of a salutation, or 0 when the table does not have it. */
  function GetSalutationId(salutation: string): (r: int)
    ensures salutation in SalutationLookup ==> r == SalutationLookup[salutation]
    ensures r == 0 <==> salutation !in SalutationLookup
  {
    SalutationCodesNonZero();
    if salutation in SalutationLookup then SalutationLookup[salutation] else 0
  }

  /** The codes lie in 772600000..772600007, so none is the "unknown" 0. */
  lemma SalutationCodesNonZero()
    ensures forall s :: s in SalutationLookup ==> 772600000 <= SalutationLookup[s] <= 772600007
  {
  }

  /** Different salutations have different codes. */
  lemma SalutationCodesDistinct()
    ensures forall s, t :: s in SalutationLookup && t in SalutationLookup && s != t ==> SalutationLookup[s] != SalutationLookup[t]
  {
  }

  /** Each of the eight salutations maps to its code. */
  lemma SalutationTable()
    ensures GetSalutationId("Hr.") == 772600000 && GetSalutationId("Fr.") == 772600001
    ensures GetSalutationId("Hr. Dr.") == 772600002 && GetSalutationId("Fr. Dr.") == 772600003
    ensures GetSalutationId("Hr. Prof. Dr.") == 772600004 && GetSalutationId("Fr. Prof. Dr.") == 772600005
    ensures GetSalutationId("Hr. Prof.") == 772600006 && GetSalutationId("Fr. Prof.") == 772600007
  {
  }

  /** The lookup is case-sensitive and does not trim: "hr." and "Hr" are unknown. */
  lemma SalutationExact()
    ensures GetSalutationId("hr.") == 0 && GetSalutationId("Hr") == 0 && GetSalutationId(" Hr.") == 0
  {
  }
}
