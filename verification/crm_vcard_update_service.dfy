/**
 * The vCard import: resolve the sending user, find or create the account by
 * the normalised organisation name, save, find or create the contact (by
 * name and organisation, then by e-mail), attach it to the account, save.
 */
module CrmVcardUpdateService {
  import opened Wrappers
  import opened Text
  import opened Sdk
  import CrmIds
  import opened VCard
  import opened CrmEntities
  import OrganizationServiceExtensions
  import CompanyNameHelper

  /** Why an import stops; every one is an exception in the running system. */
  datatype Failure =
    | UserNotFound            // no system user has the sender's address
    | ClassificationNotFound  // the first category names no company classification
    | ArgumentNullOrEmpty     // the first category is empty
    | IndexOutOfRange         // no contact matched by name and the card has no e-mail address

  /** The salutation option-set codes the mapping writes for a male and a female contact. */
  const MaleSalutation: int := 772600000
  const FemaleSalutation: int := 772600001

  // ---------------------------------------------------------------------------
  // Field mapping
  // ---------------------------------------------------------------------------

  /** The Address1 columns the mapping writes: those of the first work address, or all null without one. */
  function WorkAddress1(v: VCard): Address1 {
    match FirstWorkAddress(v.deliveryAddresses)
    case None => NoAddress1
    case Some(a) => Address1(Some(a.street), Some(a.city), Some(a.region), Some(a.country), Some(a.postalCode))
  }

  /** The country lookup, made only when the country column is not null. */
  function CountryReference(referenceData: OrganizationService, country: Option<string>): Option<EntityReference>
  {
    if country.Some? then OrganizationServiceExtensions.GetCountryReferenceByName(referenceData, country.value) else None
  }

  /** The salutation code for a gender: the "Hr." code for male, the "Fr." code for female, otherwise null. */
  function SalutationFor(gender: Gender): Option<int> {
    match gender
    case Male => Some(MaleSalutation)
    case Female => Some(FemaleSalutation)
    case Unknown => None
  }

  /** The classification column: looked up from the first category, or null without categories. */
  function ClassificationFor(referenceData: OrganizationService, v: VCard): Result<Option<EntityReference>, Failure>
  {
    if |v.categories| == 0 then Success(None)
    else match OrganizationServiceExtensions.GetCompanyClassificationReferenceByName(referenceData, v.categories[0])
      case Found(c) => Success(Some(c))
      case InvalidArgument => Failure(ArgumentNullOrEmpty)
      case _ => Failure(ClassificationNotFound)
  }

  /** The account after the vCard is copied onto it. */
  function AccountWithVcard(row: AccountRow, v: VCard, referenceData: OrganizationService): Result<AccountRow, Failure>
  {
    match ClassificationFor(referenceData, v)
    case Failure(e) => Failure(e)
    case Success(classification) =>
      var named := row.(name := Some(v.organization), webSiteUrl := FirstOrNone(v.websites));
      var addressed := named.(address1 := WorkAddress1(v));
      Success(addressed.(land := CountryReference(referenceData, addressed.address1.country), classification := classification))
  }

  /** The contact after the vCard is copied onto it. */
  function ContactWithVcard(row: ContactRow, v: VCard, referenceData: OrganizationService): ContactRow
  {
    var addressed := WithContactChannels(WithContactNames(row, v), v).(address1 := WorkAddress1(v));
    WithContactProfile(addressed.(land := CountryReference(referenceData, addressed.address1.country)), v)
  }

  /** A contact with the vCard's given and family names, trimmed. */
  function WithContactNames(row: ContactRow, v: VCard): ContactRow
  {
    row.(firstName := Some(Trim(v.givenName)), lastName := Some(Trim(v.familyName)))
  }

  /** A contact with its phone, e-mail and web columns taken from the vCard. */
  function WithContactChannels(row: ContactRow, v: VCard): ContactRow
  {
    row.(
      telephone1 := FirstNumber(v.phones, Work),
      fax := FirstNumber(v.phones, Fax),
      mobilePhone := FirstNumber(v.phones, Cellular),
      eMailAddress1 := FirstOrNone(v.emailAddresses),
      webSiteUrl := FirstOrNone(v.websites))
  }

  /** A contact with its department, job title, birth date and salutation from the vCard and its notes appended. */
  function WithContactProfile(row: ContactRow, v: VCard): ContactRow
  {
    row.(
      department := Some(v.department),
      jobTitle := Some(v.role),
      birthDate := v.birthDate,
      salutation := SalutationFor(v.gender),
      description := Some(row.description.GetOr("") + v.notes))
  }

  /** Sets the first and last name. */
  method CopyNamesToContact(c: Contact, v: VCard)
    modifies c
    ensures c.Row() == WithContactNames(old(c.Row()), v)
  {
    c.firstName, c.lastName := Some(Trim(v.givenName)), Some(Trim(v.familyName));
  }

  /** Sets the phone, e-mail and web columns. */
  method CopyChannelsToContact(c: Contact, v: VCard)
    modifies c
    ensures c.Row() == WithContactChannels(old(c.Row()), v)
  {
    c.telephone1, c.fax, c.mobilePhone := FirstNumber(v.phones, Work), FirstNumber(v.phones, Fax), FirstNumber(v.phones, Cellular);
    c.eMailAddress1, c.webSiteUrl := FirstOrNone(v.emailAddresses), FirstOrNone(v.websites);
  }

  /** Sets department, job title, birth date and salutation, and appends the notes to the description. */
  method CopyProfileToContact(c: Contact, v: VCard)
    modifies c
    ensures c.Row() == WithContactProfile(old(c.Row()), v)
  {
    c.department, c.jobTitle, c.birthDate, c.salutation, c.description :=
      Some(v.department), Some(v.role), v.birthDate,
      SalutationFor(v.gender),
      Some(c.description.GetOr("") + v.notes);
  }

  /**
   * Copies the vCard onto `account`, or onto a new account when it is null.
   * On a classification failure the name, web site, address and land are already written.
   */
  method UpdateAccountWithVcard(referenceData: OrganizationService, account: Account?, v: VCard) returns (result: Result<Account, Failure>)
    modifies account
    ensures var expected := AccountWithVcard(old(if account == null then NewAccountRow() else account.Row()), v, referenceData);
      (result.Success? <==> expected.Success?)
      && (result.Success? ==> result.value.Row() == expected.value)
      && (result.Failure? ==> result.error == expected.error)
    ensures result.Success? && account != null ==> result.value == account
    ensures result.Success? && account == null ==> fresh(result.value)
    ensures result.Failure? && account != null ==>
      account.name == Some(v.organization) && account.webSiteUrl == FirstOrNone(v.websites)
      && account.address1 == WorkAddress1(v) && account.land == CountryReference(referenceData, WorkAddress1(v).country)
      && account.classification == old(account.classification)
  {
    var a := account;
    if a == null {
      a := new Account();
    }
    a.name, a.webSiteUrl := Some(v.organization), FirstOrNone(v.websites);
    a.address1 := WorkAddress1(v);
    a.land := CountryReference(referenceData, a.address1.country);
    var classification := ClassificationFor(referenceData, v);
    if classification.Failure? {
      return Failure(classification.error);
    }
    a.classification := classification.value;
    return Success(a);
  }

  /** Copies the vCard onto `contact`, or onto a new contact when it is null. */
  method UpdateContactRecordWithVcard(referenceData: OrganizationService, contact: Contact?, v: VCard) returns (result: Contact)
    modifies contact
    ensures result.Row() == ContactWithVcard(old(if contact == null then NewContactRow() else contact.Row()), v, referenceData)
    ensures contact != null ==> result == contact
    ensures contact == null ==> fresh(result)
  {
    var c := contact;
    if c == null {
      c := new Contact();
    }
    CopyNamesToContact(c, v);
    CopyChannelsToContact(c, v);
    c.address1 := WorkAddress1(v);
    c.land := CountryReference(referenceData, c.address1.country);
    CopyProfileToContact(c, v);
    return c;
  }

  // ---------------------------------------------------------------------------
  // The import
  // ---------------------------------------------------------------------------

  /** `user.InternalEMailAddress == userEmail`, compared in the store's collation. */
  function UserWithEmail(email: string, ignoreCase: bool): UserRow -> bool {
    (u: UserRow) => u.internalEMailAddress.Some? && TextEquals(u.internalEMailAddress.value, email, ignoreCase)
  }

  /** `a.Name.StartsWith(prefix)`, compared in the store's collation. */
  function AccountNameStartsWith(prefix: string, ignoreCase: bool): AccountRow -> bool {
    (a: AccountRow) => a.name.Some? && TextStartsWith(a.name.value, prefix, ignoreCase)
  }

  /** A contact with this first name, last name and parent customer name. */
  function ContactNamed(firstName: string, lastName: string, organization: string, ignoreCase: bool): ContactRow -> bool {
    (c: ContactRow) =>
      c.firstName.Some? && TextEquals(c.firstName.value, firstName, ignoreCase)
      && c.lastName.Some? && TextEquals(c.lastName.value, lastName, ignoreCase)
      && c.parentCustomerName.Some? && TextEquals(c.parentCustomerName.value, organization, ignoreCase)
  }

  /** A contact whose first e-mail address is `email`. */
  function ContactWithEmail(email: string, ignoreCase: bool): ContactRow -> bool {
    (c: ContactRow) => c.eMailAddress1.Some? && TextEquals(c.eMailAddress1.value, email, ignoreCase)
  }

  /** The id of the first user with the sender's address, or the empty id when there is none. */
  function ImpersonatedUserId(users: seq<UserRow>, userEmail: string, ignoreCase: bool): Guid {
    match FirstWhere(users, UserWithEmail(userEmail, ignoreCase))
    case None => EmptyGuid
    case Some(u) => u.id
  }

  /** The store after the account is saved, and the saved account's id. */
  datatype SavedAccount = SavedAccount(state: StoreState, accountId: Guid)

  /**
   * The account step: the first account whose name begins with the
   * shortened organisation name is updated from the card; without one, a
   * new account owned by the user is created.
   */
  function AccountStage(s: StoreState, referenceData: OrganizationService, ignoreCase: bool, v: VCard, owner: Guid): Result<SavedAccount, Failure> {
    match FirstIndex(s.accounts, AccountNameStartsWith(CompanyNameHelper.Normalize(v.organization), ignoreCase))
    case Some(i) =>
      (match AccountWithVcard(s.accounts[i], v, referenceData)
       case Failure(e) => Failure(e)
       case Success(row) => Success(SavedAccount(s.(accounts := s.accounts[i := row]), row.id)))
    case None =>
      match AccountWithVcard(NewAccountRow(), v, referenceData)
      case Failure(e) => Failure(e)
      case Success(row) =>
        var id := Guid(s.nextId);
        Success(SavedAccount(s.(accounts := s.accounts + [row.(ownerId := owner, id := id)], nextId := s.nextId + 1), id))
  }

  /**
   * Which contact the card belongs to: the first with the card's trimmed
   * names and organisation, else the first with the card's first e-mail
   * address, else none. Reading the first e-mail address of a card without
   * one fails.
   */
  function ContactMatch(contacts: seq<ContactRow>, v: VCard, ignoreCase: bool): (r: Result<Option<nat>, Failure>)
    ensures r.Success? && r.value.Some? ==> r.value.value < |contacts|
  {
    match FirstIndex(contacts, ContactNamed(Trim(v.givenName), Trim(v.familyName), Trim(v.organization), ignoreCase))
    case Some(i) => Success(Some(i))
    case None =>
      if |v.emailAddresses| == 0 then Failure(IndexOutOfRange)
      else Success(FirstIndex(contacts, ContactWithEmail(Trim(v.emailAddresses[0]), ignoreCase)))
  }

  /**
   * The contact step: the matched contact is updated from the card and moved
   * under the account; without a match a new contact owned by the user is
   * created under the account.
   */
  function ContactStage(s: StoreState, referenceData: OrganizationService, ignoreCase: bool, v: VCard, owner: Guid, accountId: Guid): Result<StoreState, Failure> {
    match ContactMatch(s.contacts, v, ignoreCase)
    case Failure(e) => Failure(e)
    case Success(Some(i)) => Success(ContactUpdated(s, i, referenceData, v, accountId))
    case Success(None) => Success(ContactCreated(s, referenceData, v, owner, accountId))
  }

  /** The matched contact, updated from the card and moved under the account. */
  function ContactUpdated(s: StoreState, i: nat, referenceData: OrganizationService, v: VCard, accountId: Guid): StoreState
    requires i < |s.contacts|
  {
    s.(contacts := s.contacts[i := ContactWithVcard(s.contacts[i], v, referenceData).(accountId := accountId)])
  }

  /** A new contact from the card, under the account and owned by the user, stored under the next id. */
  function ContactCreated(s: StoreState, referenceData: OrganizationService, v: VCard, owner: Guid, accountId: Guid): StoreState {
    var row := ContactWithVcard(NewContactRow(), v, referenceData).(accountId := accountId, ownerId := owner);
    s.(contacts := s.contacts + [row.(id := Guid(s.nextId))], nextId := s.nextId + 1)
  }

  /**
   * The whole import: its outcome and the store afterwards. A failure in the
   * contact step leaves the saved account in place.
   */
  function Reconcile(s: StoreState, referenceData: OrganizationService, ignoreCase: bool, v: VCard, userEmail: string): (Result<(), Failure>, StoreState) {
    var owner := ImpersonatedUserId(s.users, userEmail, ignoreCase);
    if owner == EmptyGuid then (Failure(UserNotFound), s)
    else ImportAs(s, referenceData, ignoreCase, v, owner)
  }

  /** The account step and then the contact step, on behalf of `owner`. */
  function ImportAs(s: StoreState, referenceData: OrganizationService, ignoreCase: bool, v: VCard, owner: Guid): (Result<(), Failure>, StoreState) {
    match AccountStage(s, referenceData, ignoreCase, v, owner)
    case Failure(e) => (Failure(e), s)
    case Success(saved) =>
      match ContactStage(saved.state, referenceData, ignoreCase, v, owner, saved.accountId)
      case Failure(e) => (Failure(e), saved.state)
      case Success(after) => (Success(()), after)
  }

  /** The account step against the store. */
  method SaveAccount(store: CrmStore, v: VCard, impersonatedUserId: Guid) returns (result: Result<Guid, Failure>)
    requires store.Valid()
    modifies store
    ensures store.Valid()
    ensures var expected := AccountStage(old(store.State()), store.referenceData, store.ignoreCase, v, impersonatedUserId);
      (result.Success? <==> expected.Success?)
      && (expected.Failure? ==> result.error == expected.error && store.State() == old(store.State()))
      && (expected.Success? ==> result.value == expected.value.accountId && store.State() == expected.value.state)
  {
    var companyNameShortened := CompanyNameHelper.RemoveCommonCompanySuffixes(v.organization);
    var found := FirstIndex(store.accounts, AccountNameStartsWith(companyNameShortened, store.ignoreCase));
    if found.Some? {
      var account := new Account.FromRow(store.accounts[found.value]);
      var mapped := UpdateAccountWithVcard(store.referenceData, account, v);
      if mapped.Failure? {
        return Failure(mapped.error);
      }
      AccountWithVcardKeepsIdentity(store.accounts[found.value], v, store.referenceData);
      store.UpdateAccount(found.value, account.Row());
      return Success(account.id);
    } else {
      var mapped := UpdateAccountWithVcard(store.referenceData, null, v);
      if mapped.Failure? {
        return Failure(mapped.error);
      }
      var account := mapped.value;
      account.ownerId := impersonatedUserId;
      var id := store.CreateAccount(account.Row());
      account.id := id;
      return Success(account.id);
    }
  }

  /** The contact step against the store. */
  method SaveContact(store: CrmStore, v: VCard, impersonatedUserId: Guid, accountId: Guid) returns (result: Result<(), Failure>)
    requires store.Valid()
    modifies store
    ensures store.Valid()
    ensures var expected := ContactStage(old(store.State()), store.referenceData, store.ignoreCase, v, impersonatedUserId, accountId);
      (expected.Failure? ==> result == Failure(expected.error) && store.State() == old(store.State()))
      && (expected.Success? ==> result == Success(()) && store.State() == expected.value)
  {
    var matched := ContactMatch(store.contacts, v, store.ignoreCase);
    if matched.Failure? {
      return Failure(matched.error);
    }
    if matched.value.Some? {
      SaveMatchedContact(store, matched.value.value, v, accountId);
    } else {
      SaveNewContact(store, v, impersonatedUserId, accountId);
    }
    return Success(());
  }

  /** Updates the matched contact from the card, attaches it to the account and saves it. */
  method SaveMatchedContact(store: CrmStore, i: nat, v: VCard, accountId: Guid)
    requires store.Valid() && i < |store.contacts|
    modifies store
    ensures store.Valid()
    ensures store.State() == ContactUpdated(old(store.State()), i, store.referenceData, v, accountId)
  {
    var contact := new Contact.FromRow(store.contacts[i]);
    contact := UpdateContactRecordWithVcard(store.referenceData, contact, v);
    contact.accountId := accountId;
    ContactWithVcardKeepsIdentity(store.contacts[i], v, store.referenceData);
    store.UpdateContact(i, contact.Row());
  }

  /** Creates a contact from the card, owned by the user and attached to the account, and saves it. */
  method SaveNewContact(store: CrmStore, v: VCard, impersonatedUserId: Guid, accountId: Guid)
    requires store.Valid()
    modifies store
    ensures store.Valid()
    ensures store.State() == ContactCreated(old(store.State()), store.referenceData, v, impersonatedUserId, accountId)
  {
    var contact := UpdateContactRecordWithVcard(store.referenceData, null, v);
    contact.accountId := accountId;
    contact.ownerId := impersonatedUserId;
    var id := store.CreateContact(contact.Row());
  }

  /**
   * Imports a vCard sent by `userEmail`: the store afterwards and the
   * outcome are those of Reconcile, and the store stays valid.
   */
  method UpdateContactWithVcard(store: CrmStore, v: VCard, userEmail: string) returns (outcome: Result<(), Failure>)
    requires store.Valid()
    modifies store
    ensures store.Valid()
    ensures (outcome, store.State()) == Reconcile(old(store.State()), store.referenceData, store.ignoreCase, v, userEmail)
  {
    ReconcileKeepsValid(store.State(), store.referenceData, store.ignoreCase, v, userEmail);
    var impersonatedUserId := ImpersonatedUserId(store.users, userEmail, store.ignoreCase);
    if impersonatedUserId == EmptyGuid {
      return Failure(UserNotFound);
    }
    var account := SaveAccount(store, v, impersonatedUserId);
    if account.Failure? {
      return Failure(account.error);
    }
    outcome := SaveContact(store, v, impersonatedUserId, account.value);
  }

  // ---------------------------------------------------------------------------
  // Validity
  // ---------------------------------------------------------------------------

  /** The mapping keeps the account's id and owner. */
  lemma AccountWithVcardKeepsIdentity(row: AccountRow, v: VCard, referenceData: OrganizationService)
    ensures AccountWithVcard(row, v, referenceData).Success? ==>
      AccountWithVcard(row, v, referenceData).value.id == row.id && AccountWithVcard(row, v, referenceData).value.ownerId == row.ownerId
  {
  }

  /** The mapping keeps the contact's id, owner, account and parent customer. */
  lemma ContactWithVcardKeepsIdentity(row: ContactRow, v: VCard, referenceData: OrganizationService)
    ensures var r := ContactWithVcard(row, v, referenceData);
      r.id == row.id && r.ownerId == row.ownerId && r.accountId == row.accountId && r.parentCustomerName == row.parentCustomerName
  {
  }

  lemma AccountStageKeepsValid(s: StoreState, referenceData: OrganizationService, ignoreCase: bool, v: VCard, owner: Guid)
    requires StateValid(s)
    ensures AccountStage(s, referenceData, ignoreCase, v, owner).Success? ==>
      var after := AccountStage(s, referenceData, ignoreCase, v, owner).value.state;
      StateValid(after) && after.users == s.users && after.contacts == s.contacts
  {
    match FirstIndex(s.accounts, AccountNameStartsWith(CompanyNameHelper.Normalize(v.organization), ignoreCase))
    case Some(i) =>
      var mapped := AccountWithVcard(s.accounts[i], v, referenceData);
      if mapped.Success? {
        AccountWithVcardKeepsIdentity(s.accounts[i], v, referenceData);
        ReplaceAccountKeepsValid(s, i, mapped.value);
      }
    case None =>
      var mapped := AccountWithVcard(NewAccountRow(), v, referenceData);
      if mapped.Success? {
        AppendAccountKeepsValid(s, mapped.value.(ownerId := owner));
      }
  }

  lemma ContactStageKeepsValid(s: StoreState, referenceData: OrganizationService, ignoreCase: bool, v: VCard, owner: Guid, accountId: Guid)
    requires StateValid(s)
    ensures ContactStage(s, referenceData, ignoreCase, v, owner, accountId).Success? ==>
      var after := ContactStage(s, referenceData, ignoreCase, v, owner, accountId).value;
      StateValid(after) && after.users == s.users && after.accounts == s.accounts
  {
    match ContactMatch(s.contacts, v, ignoreCase)
    case Failure(_) =>
    case Success(Some(i)) =>
      assert i < |s.contacts|;
      ContactWithVcardKeepsIdentity(s.contacts[i], v, referenceData);
      ReplaceContactKeepsValid(s, i, ContactWithVcard(s.contacts[i], v, referenceData).(accountId := accountId));
    case Success(None) =>
      AppendContactKeepsValid(s, ContactWithVcard(NewContactRow(), v, referenceData).(accountId := accountId, ownerId := owner));
  }

  /** Every import leaves a valid store valid. */
  lemma ReconcileKeepsValid(s: StoreState, referenceData: OrganizationService, ignoreCase: bool, v: VCard, userEmail: string)
    requires StateValid(s)
    ensures StateValid(Reconcile(s, referenceData, ignoreCase, v, userEmail).1)
  {
    var owner := ImpersonatedUserId(s.users, userEmail, ignoreCase);
    if owner != EmptyGuid {
      assert Reconcile(s, referenceData, ignoreCase, v, userEmail) == ImportAs(s, referenceData, ignoreCase, v, owner);
      AccountStageKeepsValid(s, referenceData, ignoreCase, v, owner);
      match AccountStage(s, referenceData, ignoreCase, v, owner)
      case Failure(_) =>
      case Success(saved) =>
        ContactStageKeepsValid(saved.state, referenceData, ignoreCase, v, owner, saved.accountId);
    }
  }
}
