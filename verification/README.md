# vCard to CRM importer — a Dafny model

This project models the core of a vCard importer for a Dynamics CRM
organisation. A user mails a vCard; the importer does four things:

- it finds the CRM system user whose e-mail address sent it and acts on their behalf;
- it normalises the card's organisation name by dropping legal-form
  suffixes such as "gmbh" or "kg";
- it finds an account whose name starts with the normalised name, or creates one;
- it finds a contact by name and organisation, or else by e-mail address, or
  creates one, and links the contact to the account.

The project also models the library the importer relies on:

- the GUIDs and salutation codes of the organisation;
- the builders of query conditions;
- the lookup helpers that resolve platform ids and names to CRM records.
  Each one applies a policy: first match or not found; exactly one match,
  else ambiguous; or an exact match with a fuzzy fallback.

Modules, one per file:

- `Wrappers` (wrappers.dfy): `Option`, `Result`, and the LINQ `FirstOrDefault` shapes.
- `Text` (text.dfy): lower-casing, trimming, `EndsWith`/`StartsWith`, and the store's text comparison.
- `Sdk` (sdk.dfy): GUIDs, entities, condition expressions, and `RetrieveMultiple`. `RetrieveMultiple` is an ordered filter of the store.
- `CrmIds` (crm_ids.dfy): the well-known GUIDs and the salutation table.
- `ConditionExpressionHelper` (condition_expression_helper.dfy): the condition builders, each with what an entity must hold to satisfy it.
- `CompanyNameHelper` (company_name_helper.dfy) and `CompanyNameExamples` (company_name_examples.dfy): the suffix table, the normalising loop, and worked examples.
- `OrganizationServiceExtensions` (organization_service_extensions.dfy): the lookup helpers, as functions returning `Lookup` values (Found, NotFound, Ambiguous, InvalidArgument).
- `VCard` (vcard.dfy): the parts of a vCard the importer reads.
- `CrmEntities` (crm_entities.dfy): the early-bound `Account` and `Contact` records as classes, and the organisation store `CrmStore` as a class whose methods create and update records.
- `CrmVcardUpdateService` (crm_vcard_update_service.dfy): the mappers and the import flow, which are methods on the store. Each is proved against a specification function. `Reconcile` gives the outcome and the new store state of one import.
- `CrmVcardUpdateProperties` (crm_vcard_update_properties.dfy): what an import does, stated over `Reconcile`.

## Behaviour worth knowing

- Description. The vCard's notes are appended to the contact's description with `+=` (CrmVcardUpdateService.cs:120), not substituted for it; see `DescriptionAppended`.
- Empty e-mail list. The code reads `EmailAddresses[0]` when no contact matched by name (CrmVcardUpdateService.cs:72). A card without e-mail addresses therefore fails there with an index error, after the account was saved. The model keeps this: `ContactFailureKeepsAccount`.

## Model

| member | source | states |
|---|---|---|
| Wrappers.FirstOrNone | VcardCrmImporter/Services/CrmVcardUpdateService.cs:106-107 | `FirstOrDefault` of a sequence: none exactly when the sequence is empty, else its first element |
| Wrappers.FirstIndex | VcardCrmImporter/Services/CrmVcardUpdateService.cs:51 | the least index whose element satisfies the predicate; none exactly when no element does |
| Wrappers.FirstWhere | VcardCrmImporter/Services/CrmVcardUpdateService.cs:38-40 | `FirstOrDefault(predicate)`: none exactly when no element matches, else an element that matches with no earlier match |
| Text.ToLowerChar | CrmWrapper/Helpers/CompanyNameHelper.cs:36 | the result is never an upper-case letter, and a character that is not upper-case is kept |
| Text.ToLower | CrmWrapper/Helpers/CompanyNameHelper.cs:36 | `ToLowerInvariant`: same length, each character lower-cased |
| Text.TrimStart | CrmWrapper/Helpers/CompanyNameHelper.cs:36 | a suffix of the input that does not start with a trimmed character; everything dropped is a trimmed character |
| Text.TrimEnd | CrmWrapper/Helpers/CompanyNameHelper.cs:36 | a prefix of the input that does not end with a trimmed character; everything dropped is a trimmed character |
| Text.TrimChars | CrmWrapper/Helpers/CompanyNameHelper.cs:36 | `Trim('.')`: no longer than the input, neither first nor last character is trimmed; TrimCharsIsInfix gives what it keeps and what it drops |
| Text.TrimCharsIsInfix | CrmWrapper/Helpers/CompanyNameHelper.cs:36 | `Trim(chars)` keeps one contiguous middle slice of the input, and every character cut off before or after it is one of the trimmed characters |
| Text.Trim | VcardCrmImporter/Services/CrmVcardUpdateService.cs:100-101 | `Trim()`: no longer than the input, neither first nor last character is white space; TrimIsInfix gives what it keeps and what it drops |
| Text.TrimIsInfix | VcardCrmImporter/Services/CrmVcardUpdateService.cs:100-101 | `Trim()` keeps one contiguous middle slice of the input, and every character cut off before or after it is white space |
| Text.EndsWithIsTail | CrmWrapper/Helpers/CompanyNameHelper.cs:40 | `EndsWith(t)` holds exactly when `t` is the tail of the string |
| Text.NotEndsWithAt | CrmWrapper/Helpers/CompanyNameHelper.cs:40 | one differing character at the same distance from the end rules `EndsWith` out |
| Text.StartsWithEmpty | CrmWrapper/Extensions/OrganizationServiceExtensions.cs:304-305 | every name begins with the empty string, whatever the collation |
| Sdk.Entity.ToEntityReference | CrmWrapper/Extensions/OrganizationServiceExtensions.cs:115 | the reference carries the entity's logical name and id |
| Sdk.MatchPositions | CrmWrapper/Extensions/OrganizationServiceExtensions.cs:42 | the positions of the stored records matching the query: strictly increasing, every one a match, and no match left out |
| Sdk.RetrieveMultiple | CrmWrapper/Extensions/OrganizationServiceExtensions.cs:42 | the records at exactly those positions, in store order |
| Sdk.RetrieveNone | CrmWrapper/Extensions/OrganizationServiceExtensions.cs:42-48 | the result is empty exactly when no stored record matches |
| Sdk.RetrieveFirst | CrmWrapper/Extensions/OrganizationServiceExtensions.cs:42-43 | the first record returned is the first matching record of the store |
| Sdk.RetrieveMany | CrmWrapper/Extensions/OrganizationServiceExtensions.cs:315-321 | more than one record is returned exactly when two stored records match |
| Sdk.RetrieveSingle | CrmWrapper/Extensions/OrganizationServiceExtensions.cs:323-328 | a single returned record is the only matching record of the store |
| CrmIds.WellKnownIdsDistinct | CrmWrapper/Helpers/CrmIds.cs:8-12 | the three well-known GUIDs differ from each other and from the empty GUID |
| CrmIds.GetSalutationId | CrmWrapper/Helpers/CrmIds.cs:26-35 | the table's code for a listed salutation; 0 exactly when the salutation is not listed |
| CrmIds.SalutationCodesNonZero | CrmWrapper/Helpers/CrmIds.cs:14-24 | every listed code lies in 772600000..772600007, so 0 never means a listed salutation |
| CrmIds.SalutationCodesDistinct | CrmWrapper/Helpers/CrmIds.cs:14-24 | two different salutations never share a code |
| CrmIds.SalutationTable | CrmWrapper/Helpers/CrmIds.cs:14-24 | the eight salutations and their codes |
| CrmIds.SalutationExact | CrmWrapper/Helpers/CrmIds.cs:26-35 | lookup is exact: other case, a missing dot or a leading space gives 0 |
| ConditionExpressionHelper.CreateEqualsCondition | CrmWrapper/Helpers/ConditionExpressionHelper.cs:64-73 | an Equal condition on the attribute with the one value; an entity satisfies it exactly when it has the attribute with an equal value |
| ConditionExpressionHelper.CreatePublisherIdCondition | CrmWrapper/Helpers/ConditionExpressionHelper.cs:7-10 | satisfied exactly by entities whose `xv_platformid` is the given number |
| ConditionExpressionHelper.CreateIsPublisherCondition | CrmWrapper/Helpers/ConditionExpressionHelper.cs:12-15 | satisfied exactly by entities classified as publisher |
| ConditionExpressionHelper.CreatePublisherNameExactCondition | CrmWrapper/Helpers/ConditionExpressionHelper.cs:17-20 | satisfied exactly by entities whose `name` equals the text under the store's collation |
| ConditionExpressionHelper.CreatePublisherNameBeginsWithCondition | CrmWrapper/Helpers/ConditionExpressionHelper.cs:22-32 | a BeginsWith condition on `name`; satisfied exactly by names starting with the text under the store's collation |
| ConditionExpressionHelper.CreatePlatformIdEqualsCondition | CrmWrapper/Helpers/ConditionExpressionHelper.cs:34-37 | satisfied exactly by entities whose `xv_platformid` is the given number |
| ConditionExpressionHelper.CreateFirstNameEqualsCondition | CrmWrapper/Helpers/ConditionExpressionHelper.cs:39-42 | satisfied exactly by entities whose `firstname` equals the text |
| ConditionExpressionHelper.CreateLastNameEqualsCondition | CrmWrapper/Helpers/ConditionExpressionHelper.cs:44-47 | satisfied exactly by entities whose `lastname` equals the text |
| ConditionExpressionHelper.CreateCompanyNameCondition | CrmWrapper/Helpers/ConditionExpressionHelper.cs:49-52 | satisfied exactly by entities whose `name` equals the text |
| ConditionExpressionHelper.CreateIndustryCondition | CrmWrapper/Helpers/ConditionExpressionHelper.cs:54-57 | satisfied exactly by entities whose `xv_name` equals the text |
| ConditionExpressionHelper.CreateCountryCondition | CrmWrapper/Helpers/ConditionExpressionHelper.cs:59-62 | satisfied exactly by entities whose `xv_name` equals the text |
| ConditionExpressionHelper.NameConditionsAgree | CrmWrapper/Helpers/ConditionExpressionHelper.cs:17-20 | the publisher-name and company-name conditions are the same condition |
| ConditionExpressionHelper.PlatformIdConditionsAgree | CrmWrapper/Helpers/ConditionExpressionHelper.cs:7-10 | the publisher-id and platform-id conditions are the same condition |
| CompanyNameHelper.NeighbourChain | CrmWrapper/Helpers/CompanyNameHelper.cs:32 | for any two positions of a list sorted longest first with stable ties between neighbours, the earlier one is at least as long, and an equally long one came first in declaration order |
| CompanyNameHelper.StableSortFromNeighbours | CrmWrapper/Helpers/CompanyNameHelper.cs:32 | sorted neighbours with stable ties make a stable descending sort |
| CompanyNameHelper.SuffixTablePermutation | CrmWrapper/Helpers/CompanyNameHelper.cs:8-32 | the ordered suffix list is a permutation of the declared one |
| CompanyNameHelper.SuffixTableEntries | CrmWrapper/Helpers/CompanyNameHelper.cs:8-32 | each ordered entry is the declared entry it was taken from |
| CompanyNameHelper.SuffixTableLengths | CrmWrapper/Helpers/CompanyNameHelper.cs:32 | neighbouring suffixes are ordered longest first, with ties in declaration order |
| CompanyNameHelper.CompanySuffixesOrder | CrmWrapper/Helpers/CompanyNameHelper.cs:8-32 | `OrderByDescending(s => s.Length)` of the declared suffixes is the list the loop walks |
| CompanyNameHelper.Prepare | CrmWrapper/Helpers/CompanyNameHelper.cs:36 | lower-cased and dot-trimmed: no longer than the input, neither first nor last character is a dot |
| CompanyNameHelper.DotTrimIsInfix | CrmWrapper/Helpers/CompanyNameHelper.cs:36 | `Trim('.')` of any string is a slice of it with only dots cut from either end |
| CompanyNameHelper.PrepareCutsOnlyDots | CrmWrapper/Helpers/CompanyNameHelper.cs:36 | for every name, the prepared name is a slice of the lower-cased name and every character cut from either end is a dot; white space is kept |
| CompanyNameHelper.RemoveCommonCompanySuffixes | CrmWrapper/Helpers/CompanyNameHelper.cs:34-47 | the loop returns `Normalize`: each suffix in order, preceded by a space, cut off once if the current name ends with it |
| CompanyNameHelper.StripFromCutsAtSpace | CrmWrapper/Helpers/CompanyNameHelper.cs:38-44 | stripping yields a prefix of the name, cut just before a space |
| CompanyNameHelper.NormalizeCutsAtSpace | CrmWrapper/Helpers/CompanyNameHelper.cs:34-47 | the normalised name is a prefix of the prepared name, cut just before a space |
| CompanyNameHelper.NormalizeWithoutSpace | CrmWrapper/Helpers/CompanyNameHelper.cs:38-44 | a prepared name without a space is left as it is |
| CompanyNameHelper.StripFromSkip | CrmWrapper/Helpers/CompanyNameHelper.cs:40 | suffixes the name does not end with change nothing |
| CompanyNameHelper.EndsWithAppended | CrmWrapper/Helpers/CompanyNameHelper.cs:40 | a name ends with whatever was appended to it |
| CompanyNameHelper.StripFromCut | CrmWrapper/Helpers/CompanyNameHelper.cs:40-42 | a name ending in " " + the current suffix loses exactly that tail |
| CompanyNameExamples.StripFromWithoutSpace | CrmWrapper/Helpers/CompanyNameHelper.cs:38-44 | a name without a space survives every remaining suffix |
| CompanyNameExamples.NormalizeGmbhKg | CrmWrapper/Helpers/CompanyNameHelper.cs:34-47 | "Foo GmbH KG" becomes "foo gmbh": "kg" is cut after "gmbh" was tested, so only one suffix goes |
| CompanyNameExamples.NormalizeGmbh | CrmWrapper/Helpers/CompanyNameHelper.cs:34-47 | "foo gmbh" becomes "foo" |
| CompanyNameExamples.NormalizeGmbhCoKg | CrmWrapper/Helpers/CompanyNameHelper.cs:34-47 | "Foo GmbH & Co KG" becomes "foo": the compound suffix is tried before its parts and cut whole |
| CompanyNameExamples.NormalizeGmbhCoDotKg | CrmWrapper/Helpers/CompanyNameHelper.cs:8-47 | "Foo GmbH & Co. KG" becomes "foo gmbh & co.": the dotted form does not match "gmbh & co kg", dots are trimmed only at the ends, so only "kg" is cut |
| CompanyNameExamples.NormalizeHaftungsbeschraenkt | CrmWrapper/Helpers/CompanyNameHelper.cs:34-47 | "Foo UG (haftungsbeschränkt)" becomes "foo" |
| CompanyNameExamples.NormalizeKgGmbh | CrmWrapper/Helpers/CompanyNameHelper.cs:34-47 | "Foo KG GmbH" becomes "foo": "gmbh" is cut, then "kg" later in the list |
| CompanyNameExamples.NormalizeDots | CrmWrapper/Helpers/CompanyNameHelper.cs:36-44 | "ACME Inc." becomes "acme": the trailing dot goes before the suffixes are tested |
| CompanyNameExamples.BareSuffixAt | CrmWrapper/Helpers/CompanyNameHelper.cs:38-44 | "GmbH" on its own, with no space before it, normalises to "gmbh": it is lower-cased but not cut |
| CompanyNameExamples.SuffixIsPrepared | CrmWrapper/Helpers/CompanyNameHelper.cs:8-36 | every suffix in the list is already lower-case and neither starts nor ends with a dot, so preparing it changes nothing |
| CompanyNameExamples.BareSuffixKept | CrmWrapper/Helpers/CompanyNameHelper.cs:8-44 | every suffix without a space in it (all but the four multi-word forms), given on its own as the company name, is returned unchanged |
| CompanyNameExamples.NormalizeBareSuffix | CrmWrapper/Helpers/CompanyNameHelper.cs:34-47 | "GmbH" becomes "gmbh", not "" |
| CompanyNameExamples.NormalizeEmpty | CrmWrapper/Helpers/CompanyNameHelper.cs:34-47 | the empty name stays empty |
| CompanyNameExamples.NormalizeTrailingSpace | CrmWrapper/Helpers/CompanyNameHelper.cs:34-47 | "Foo GmbH " keeps its suffix: white space is not trimmed |
| CompanyNameExamples.NormalizeNotIdempotent | CrmWrapper/Helpers/CompanyNameHelper.cs:34-47 | normalising twice can cut more than normalising once |
| OrganizationServiceExtensions.Where | CrmWrapper/Extensions/OrganizationServiceExtensions.cs:113-115 | the stored records satisfying a predicate, in store order |
| OrganizationServiceExtensions.RetrieveIsWhere | CrmWrapper/Extensions/OrganizationServiceExtensions.cs:42 | a query that means a predicate retrieves exactly the records satisfying it, in order |
| OrganizationServiceExtensions.MatchesAreWhere | CrmWrapper/Extensions/OrganizationServiceExtensions.cs:42 | none, first, only and two-or-more matches of such a query are the same as for its predicate |
| OrganizationServiceExtensions.RetrieveFirst | CrmWrapper/Extensions/OrganizationServiceExtensions.cs:42-48 | the first record satisfying the predicate, NotFound exactly when there is none |
| OrganizationServiceExtensions.RetrieveFirstRef | CrmWrapper/Extensions/OrganizationServiceExtensions.cs:193-200 | as RetrieveFirst, as a reference to that record |
| OrganizationServiceExtensions.RetrieveFirstRefOrNone | CrmWrapper/Extensions/OrganizationServiceExtensions.cs:490-497 | as RetrieveFirst, with null instead of NotFound |
| OrganizationServiceExtensions.RetrieveUnique | CrmWrapper/Extensions/OrganizationServiceExtensions.cs:376-389 | NotFound on no match, Ambiguous with the count on several, else a reference to the one match |
| OrganizationServiceExtensions.OneConditionQuery | CrmWrapper/Extensions/OrganizationServiceExtensions.cs:30-40 | a one-condition query means "of this kind and satisfying the condition" |
| OrganizationServiceExtensions.TwoConditionQuery | CrmWrapper/Extensions/OrganizationServiceExtensions.cs:304-313 | a two-condition query means "of this kind and satisfying both" |
| OrganizationServiceExtensions.PlatformIdQueryMeans | CrmWrapper/Extensions/OrganizationServiceExtensions.cs:30-40 | the platform-id query selects the records of that kind with that `xv_platformid` |
| OrganizationServiceExtensions.PlattformIdQueryMeans | CrmWrapper/Extensions/OrganizationServiceExtensions.cs:55-69 | the sales-order, opportunity and quote query selects by `xv_plattformid`, spelt with two t's |
| OrganizationServiceExtensions.GetContactByPlatformId | CrmWrapper/Extensions/OrganizationServiceExtensions.cs:28-51 | the first contact with that platform id, else NotFound |
| OrganizationServiceExtensions.GetSalesOrderByPlatformId | CrmWrapper/Extensions/OrganizationServiceExtensions.cs:53-80 | the first sales order with that `xv_plattformid`, else NotFound |
| OrganizationServiceExtensions.GetSalesOrderItemReferenceByPlatformId | CrmWrapper/Extensions/OrganizationServiceExtensions.cs:82-101 | a reference to the first sales-order line with that platform id, else NotFound |
| OrganizationServiceExtensions.GetOpportunityByPlatformId | CrmWrapper/Extensions/OrganizationServiceExtensions.cs:118-145 | the first opportunity with that `xv_plattformid`, else NotFound |
| OrganizationServiceExtensions.GetOpportunityItemReferenceByPlatformId | CrmWrapper/Extensions/OrganizationServiceExtensions.cs:147-166 | a reference to the first opportunity product with that platform id, else NotFound |
| OrganizationServiceExtensions.GetPublisherReferenceByPlatformId | CrmWrapper/Extensions/OrganizationServiceExtensions.cs:183-202 | a reference to the first account with that platform id, else NotFound |
| OrganizationServiceExtensions.GetQuoteByPlatformId | CrmWrapper/Extensions/OrganizationServiceExtensions.cs:204-229 | the first quote with that `xv_plattformid`, else NotFound |
| OrganizationServiceExtensions.GetQuoteItemReferenceByPlatformId | CrmWrapper/Extensions/OrganizationServiceExtensions.cs:231-250 | a reference to the first quote line with that platform id, else NotFound |
| OrganizationServiceExtensions.GetMessageByPlatformId | CrmWrapper/Extensions/OrganizationServiceExtensions.cs:547-570 | the first platform message with that platform id, else NotFound |
| OrganizationServiceExtensions.ItemReferences | CrmWrapper/Extensions/OrganizationServiceExtensions.cs:103-116 | references to every line of that kind linked to the parent, in store order |
| OrganizationServiceExtensions.GetSalesOrderItemsByOrder | CrmWrapper/Extensions/OrganizationServiceExtensions.cs:103-116 | references to every sales-order line of the order |
| OrganizationServiceExtensions.GetOpportunityItemsByOpportunityId | CrmWrapper/Extensions/OrganizationServiceExtensions.cs:168-181 | references to every product line of the opportunity |
| OrganizationServiceExtensions.GetQuoteItemsByQuoteId | CrmWrapper/Extensions/OrganizationServiceExtensions.cs:252-265 | references to every line of the quote |
| OrganizationServiceExtensions.GetPublisherReferenceByNameExact | CrmWrapper/Extensions/OrganizationServiceExtensions.cs:279-300 | the first account that is a publisher with exactly that name, else NotFound; duplicates are not reported |
| OrganizationServiceExtensions.GetPublisherReferenceByNameFuzzy | CrmWrapper/Extensions/OrganizationServiceExtensions.cs:302-330 | the one publisher whose name begins with the normalised name; NotFound on none, Ambiguous on several |
| OrganizationServiceExtensions.GetPublisherReferenceByName | CrmWrapper/Extensions/OrganizationServiceExtensions.cs:267-277 | the exact lookup when a publisher has that name, otherwise the fuzzy lookup |
| OrganizationServiceExtensions.GetAccountReferenceByNameFuzzy | CrmWrapper/Extensions/OrganizationServiceExtensions.cs:332-358 | the one account whose name begins with the normalised name; NotFound on none, Ambiguous on several |
| OrganizationServiceExtensions.GetManagerReferenceByName | CrmWrapper/Extensions/OrganizationServiceExtensions.cs:360-390 | the one system user with that first and last name; NotFound on none, Ambiguous on several |
| OrganizationServiceExtensions.GetCompanyReferenceByName | CrmWrapper/Extensions/OrganizationServiceExtensions.cs:392-419 | the one account with that name; NotFound on none, Ambiguous on several |
| OrganizationServiceExtensions.GetCompanyReferenceById | CrmWrapper/Extensions/OrganizationServiceExtensions.cs:421-448 | the same lookup by account name, whatever the member's name says |
| OrganizationServiceExtensions.GetIndustryReferenceByName | CrmWrapper/Extensions/OrganizationServiceExtensions.cs:450-474 | null for an empty name, else the first industry with that name or null |
| OrganizationServiceExtensions.GetCountryReferenceByName | CrmWrapper/Extensions/OrganizationServiceExtensions.cs:476-499 | null for a blank name, else the first country with that name or null |
| OrganizationServiceExtensions.GetProductTypeReferenceByName | CrmWrapper/Extensions/OrganizationServiceExtensions.cs:501-522 | an argument error exactly for an empty name, else the first product type with that name or NotFound |
| OrganizationServiceExtensions.GetCompanyClassificationReferenceByName | CrmWrapper/Extensions/OrganizationServiceExtensions.cs:524-545 | an argument error exactly for an empty name, else the first classification with that name or NotFound |
| OrganizationServiceExtensions.CompanyReferenceByIdIsByName | CrmWrapper/Extensions/OrganizationServiceExtensions.cs:421-448 | the "by id" lookup always answers as the by-name lookup |
| OrganizationServiceExtensions.ExactLookupIgnoresDuplicates | CrmWrapper/Extensions/OrganizationServiceExtensions.cs:279-300 | two publishers with the same name: the exact lookup still finds one, with no ambiguity reported |
| OrganizationServiceExtensions.FuzzyLookupAmbiguous | CrmWrapper/Extensions/OrganizationServiceExtensions.cs:343-349 | two accounts beginning with the normalised name: the fuzzy lookup is Ambiguous with the number of matches |
| OrganizationServiceExtensions.FuzzyLookupOfEmptyName | CrmWrapper/Extensions/OrganizationServiceExtensions.cs:332-358 | a name that normalises to "" matches every named account |
| VCard.FirstNumber | VcardCrmImporter/Services/CrmVcardUpdateService.cs:103-105 | the full number of the first phone of that kind; null exactly when there is none |
| VCard.FirstWorkAddress | VcardCrmImporter/Services/CrmVcardUpdateService.cs:109-113 | the first work address; none exactly when there is none |
| CrmEntities.NewAccountRow | VcardCrmImporter/Services/CrmVcardUpdateService.cs:127-130 | a new account has no id, no owner and no name |
| CrmEntities.NewContactRow | VcardCrmImporter/Services/CrmVcardUpdateService.cs:95-98 | a new contact has no id, owner, account, parent name or description |
| CrmEntities.Account.constructor | VcardCrmImporter/Services/CrmVcardUpdateService.cs:129 | `new Account()` holds the new-account row |
| CrmEntities.Account.FromRow | VcardCrmImporter/Services/CrmVcardUpdateService.cs:51 | the retrieved account holds the stored row |
| CrmEntities.Contact.constructor | VcardCrmImporter/Services/CrmVcardUpdateService.cs:97 | `new Contact()` holds the new-contact row |
| CrmEntities.Contact.FromRow | VcardCrmImporter/Services/CrmVcardUpdateService.cs:66-72 | the retrieved contact holds the stored row |
| CrmEntities.CrmStore.constructor | VcardCrmImporter/Services/CrmVcardUpdateService.cs:35 | an empty store over the given users is valid |
| CrmEntities.CrmStore.CreateAccount | VcardCrmImporter/Services/CrmVcardUpdateService.cs:60-63 | the new account is stored last under a fresh id; nothing else changes; a valid store stays valid |
| CrmEntities.CrmStore.UpdateAccount | VcardCrmImporter/Services/CrmVcardUpdateService.cs:54-63 | the retrieved account is replaced by a record with the same id; nothing else changes; a valid store stays valid |
| CrmEntities.CrmStore.CreateContact | VcardCrmImporter/Services/CrmVcardUpdateService.cs:86-89 | the new contact is stored last under a fresh id; nothing else changes; a valid store stays valid |
| CrmEntities.CrmStore.UpdateContact | VcardCrmImporter/Services/CrmVcardUpdateService.cs:77-89 | the retrieved contact is replaced by a record with the same id; nothing else changes; a valid store stays valid |
| CrmEntities.ReplaceAccountKeepsValid | VcardCrmImporter/Services/CrmVcardUpdateService.cs:54-63 | updating an account in place keeps ids distinct and below the next id |
| CrmEntities.AppendAccountKeepsValid | VcardCrmImporter/Services/CrmVcardUpdateService.cs:60-63 | creating an account keeps ids distinct and below the next id |
| CrmEntities.ReplaceContactKeepsValid | VcardCrmImporter/Services/CrmVcardUpdateService.cs:77-89 | updating a contact in place keeps ids distinct and below the next id |
| CrmEntities.AppendContactKeepsValid | VcardCrmImporter/Services/CrmVcardUpdateService.cs:86-89 | creating a contact keeps ids distinct and below the next id |
| CrmVcardUpdateService.CopyNamesToContact | VcardCrmImporter/Services/CrmVcardUpdateService.cs:100-101 | the contact's first and last names become the card's trimmed names; no other column changes |
| CrmVcardUpdateService.CopyChannelsToContact | VcardCrmImporter/Services/CrmVcardUpdateService.cs:103-107 | phone, fax, mobile, e-mail and web site become the card's first ones; no other column changes |
| CrmVcardUpdateService.CopyProfileToContact | VcardCrmImporter/Services/CrmVcardUpdateService.cs:116-120 | department, job title, birth date and salutation are copied and the notes appended; no other column changes |
| CrmVcardUpdateService.UpdateAccountWithVcard | VcardCrmImporter/Services/CrmVcardUpdateService.cs:125-145 | the account mapper: the given account, or a new one, now holds the mapped row; a lookup failure is returned, and a given account is then left with the name, web site, address and land already written and its old classification |
| CrmVcardUpdateService.UpdateContactRecordWithVcard | VcardCrmImporter/Services/CrmVcardUpdateService.cs:93-123 | the contact mapper: the given contact, or a new one, now holds the mapped row |
| CrmVcardUpdateService.ContactMatch | VcardCrmImporter/Services/CrmVcardUpdateService.cs:66-72 | a matched contact is a position in the store; which one is stated by ContactMatchStages and when it fails by ContactMatchFailure |
| CrmVcardUpdateService.SaveAccount | VcardCrmImporter/Services/CrmVcardUpdateService.cs:50-63 | the account stage on the store: on failure the store is unchanged, else the store is the staged state and the account id is returned; a valid store stays valid |
| CrmVcardUpdateService.SaveContact | VcardCrmImporter/Services/CrmVcardUpdateService.cs:65-89 | the contact stage on the store: on failure the store is unchanged, else the store is the staged state; a valid store stays valid |
| CrmVcardUpdateService.SaveMatchedContact | VcardCrmImporter/Services/CrmVcardUpdateService.cs:74-79 | the matched contact is remapped and linked to the account; a valid store stays valid |
| CrmVcardUpdateService.SaveNewContact | VcardCrmImporter/Services/CrmVcardUpdateService.cs:80-87 | a mapped contact owned by the sender and linked to the account is created; a valid store stays valid |
| CrmVcardUpdateService.UpdateContactWithVcard | VcardCrmImporter/Services/CrmVcardUpdateService.cs:25-91 | the whole import: outcome and new store state are those of `Reconcile`, and the store stays valid |
| CrmVcardUpdateService.AccountWithVcardKeepsIdentity | VcardCrmImporter/Services/CrmVcardUpdateService.cs:125-145 | mapping an account keeps its id and owner |
| CrmVcardUpdateService.ContactWithVcardKeepsIdentity | VcardCrmImporter/Services/CrmVcardUpdateService.cs:93-123 | mapping a contact keeps its id, owner, account and parent name |
| CrmVcardUpdateService.AccountStageKeepsValid | VcardCrmImporter/Services/CrmVcardUpdateService.cs:50-63 | the account stage keeps the store valid and leaves users and contacts alone |
| CrmVcardUpdateService.ContactStageKeepsValid | VcardCrmImporter/Services/CrmVcardUpdateService.cs:65-89 | the contact stage keeps the store valid |
| CrmVcardUpdateService.ReconcileKeepsValid | VcardCrmImporter/Services/CrmVcardUpdateService.cs:25-91 | an import, whatever its outcome, leaves a valid store valid |
| CrmVcardUpdateProperties.SalutationMatchesTable | VcardCrmImporter/Services/CrmVcardUpdateService.cs:119 | male gives the code of "Hr.", female that of "Fr.", otherwise none |
| CrmVcardUpdateProperties.WorkAddressColumns | VcardCrmImporter/Services/CrmVcardUpdateService.cs:109-113 | the address columns are all null exactly when the card has no work address; otherwise all five come from the first work address |
| CrmVcardUpdateProperties.ClassificationFailures | VcardCrmImporter/Services/CrmVcardUpdateService.cs:142 | no classification without categories; failure exactly when the first category is not found; an argument error exactly when it is empty |
| CrmVcardUpdateProperties.LandNeedsCountry | VcardCrmImporter/Services/CrmVcardUpdateService.cs:114 | a country reference is set only when the address has a country that is not blank |
| CrmVcardUpdateProperties.AccountMappingOverwrites | VcardCrmImporter/Services/CrmVcardUpdateService.cs:125-145 | the mapped account does not depend on what the account held before, except id and owner; its name is the card's organisation |
| CrmVcardUpdateProperties.ContactMappingOverwrites | VcardCrmImporter/Services/CrmVcardUpdateService.cs:93-123 | the mapped contact does not depend on what it held before, except id, parent name, account, owner and description |
| CrmVcardUpdateProperties.ContactPhoneColumns | VcardCrmImporter/Services/CrmVcardUpdateService.cs:103-105 | each phone column is null exactly when the card has no phone of that kind, otherwise it holds the first one |
| CrmVcardUpdateProperties.DescriptionAppended | VcardCrmImporter/Services/CrmVcardUpdateService.cs:120 | the new description is the old one followed by the notes; nothing is replaced |
| CrmVcardUpdateProperties.ImpersonatedUserFound | VcardCrmImporter/Services/CrmVcardUpdateService.cs:38-46 | the empty GUID exactly when no user has that e-mail address, else the id of such a user |
| CrmVcardUpdateProperties.AccountStageFailure | VcardCrmImporter/Services/CrmVcardUpdateService.cs:50-63 | the account stage fails exactly when the classification lookup fails, with its error |
| CrmVcardUpdateProperties.ContactMatchStages | VcardCrmImporter/Services/CrmVcardUpdateService.cs:66-72 | the first contact with the card's trimmed first name, last name and organisation is the match; only when there is none and the card has an e-mail address, the match is exactly the least position whose first e-mail address equals the card's trimmed first address in the store's collation, and there is no match exactly when no contact has that address |
| CrmVcardUpdateProperties.ContactMatchFailure | VcardCrmImporter/Services/CrmVcardUpdateService.cs:66-72 | matching fails exactly when no contact has the name and the card has no e-mail address; the error is an index error |
| CrmVcardUpdateProperties.AccountStageUpdatesFirstMatch | VcardCrmImporter/Services/CrmVcardUpdateService.cs:51-55 | the first account whose name starts with the normalised name is remapped in place, keeping id and owner; nothing else changes |
| CrmVcardUpdateProperties.AccountStageCreates | VcardCrmImporter/Services/CrmVcardUpdateService.cs:56-63 | with no such account, a mapped account owned by the sender is added under a fresh id; nothing else changes |
| CrmVcardUpdateProperties.ContactStageUpdatesMatch | VcardCrmImporter/Services/CrmVcardUpdateService.cs:74-79 | the matched contact is remapped in place and moved to the account, keeping its owner; nothing else changes |
| CrmVcardUpdateProperties.ContactStageCreates | VcardCrmImporter/Services/CrmVcardUpdateService.cs:80-89 | with no match, a mapped contact owned by the sender and linked to the account is added under a fresh id |
| CrmVcardUpdateProperties.ImportOutcome | VcardCrmImporter/Services/CrmVcardUpdateService.cs:25-91 | an import succeeds exactly when the sender is a user, the classification resolves, and contact matching succeeds on the stored contacts |
| CrmVcardUpdateProperties.ImportFailureCauses | VcardCrmImporter/Services/CrmVcardUpdateService.cs:38-72 | "user not found" exactly when no user has the sender's address; an index error only for a card without e-mail addresses |
| CrmVcardUpdateProperties.ImportAsFailureCauses | VcardCrmImporter/Services/CrmVcardUpdateService.cs:50-72 | on behalf of a known user, an index error only for a card without e-mail addresses, and never "user not found" |
| CrmVcardUpdateProperties.UnknownSenderChangesNothing | VcardCrmImporter/Services/CrmVcardUpdateService.cs:43-46 | an unknown sender fails with the store unchanged |
| CrmVcardUpdateProperties.ContactFailureKeepsAccount | VcardCrmImporter/Services/CrmVcardUpdateService.cs:63-72 | when contact matching fails, the saved account stays: no rollback |
| CrmVcardUpdateProperties.ImportLinksContactToAccount | VcardCrmImporter/Services/CrmVcardUpdateService.cs:25-91 | after a successful import, some stored contact with the card's trimmed names belongs to a stored account named after the card's organisation |
| CrmVcardUpdateProperties.SavedContactPosition | VcardCrmImporter/Services/CrmVcardUpdateService.cs:74-89 | after the contact stage, accounts are unchanged and some stored contact has the card's trimmed names and is linked to the account |
| CrmVcardUpdateProperties.SavedAccountPosition | VcardCrmImporter/Services/CrmVcardUpdateService.cs:52-63 | after the account stage, the returned id is that of a stored account named after the card's organisation |

## Left out

- Connection, proxy set-up and configuration (CrmVcardUpdateService.cs:27-35): I/O. The store is a parameter.
- `async`/`await`: the flow is sequential; concurrency is not modelled.
- Impersonation through `CallerId` (CrmVcardUpdateService.cs:48): it is a property of the connection. Its effect is modelled as the owner given to created records.
- `OrganizationServiceContext` change tracking (Attach, SaveChanges, UpdateObject): a save is modelled as creating or replacing the record directly in the store.
- The assignments `account.OwnerId.Id = …` and `contact.AccountId.Id = …` dereference a reference that a new early-bound record may hold as null. The generated entity classes are not part of this model, so the model assumes these assignments succeed.
- Null strings: a null organisation, given name or family name on the card, or null text in the store, is not modelled. Text is always present or an absent column.
- `ToLowerInvariant`: lower-casing covers ASCII and Latin-1 upper-case letters only.
- `EndsWith` in CompanyNameHelper.cs:40 uses the current culture. The model compares ordinally.
- Collation: each lookup compares under one boolean, for equality and begins-with alike. There are two such flags, `CrmStore.ignoreCase` for the contact and account lookups and the reference data's own `ignoreCase` for countries and classifications. The model does not tie the two together; in the source both follow the one organisation's settings.
- ContactRow.parentCustomerName / CrmVcardUpdateService.ContactMatch: the parent customer's name is taken as it is stored on the contact. It is not derived from the account at `accountId`, and it is not updated when the import sets `accountId`, so a contact the import created is found again by its e-mail address, not by its names.
- Exceptions are values: `Failure` in the flow and `Lookup` in the resolvers. The exception classes themselves are not modelled.
- Column sets, paging and `CreateQuery` of OrganizationServiceExtensions.cs:572-590: the store returns whole records, in store order.
- GetStandardPriceLevelReference (OrganizationServiceExtensions.cs:17-26): it reads the price-level table, which is not part of this model.
- vCard parsing, the controller, and the Mandrill webhook check (VcardController.cs, MandrillWebhookAttribute.cs): I/O around the core.
- The vCard's notes are one string. The five Address1 columns are grouped into one value.
- A failure after the account was saved leaves the account saved (no rollback). This is modelled as it is, not corrected.
