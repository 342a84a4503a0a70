/**
 * What the vCard import promises, stated over the specification functions
 * of CrmVcardUpdateService: when it fails and what it then leaves behind,
 * which account and contact it writes, and which columns it overwrites.
 */
module CrmVcardUpdateProperties {
  import opened Wrappers
  import opened Text
  import opened Sdk
  import CrmIds
  import opened VCard
  import opened CrmEntities
  import OrganizationServiceExtensions
  import CompanyNameHelper
  import opened CrmVcardUpdateService

  // ---------------------------------------------------------------------------
  // Field mapping
  // ---------------------------------------------------------------------------

  /** The salutation codes written are those CrmIds lists for "Hr." and "Fr.". */
  lemma SalutationMatchesTable()
    ensures SalutationFor(Male) == Some(CrmIds.GetSalutationId("Hr."))
    ensures SalutationFor(Female) == Some(CrmIds.GetSalutationId("Fr."))
    ensures SalutationFor(Unknown) == None
  {
    CrmIds.SalutationTable();
  }

  /**
   * The five Address1 columns are all null exactly when the card has no work
   * address; otherwise all five come from the same, first, work address.
   */
  lemma WorkAddressColumns(v: VCard)
    ensures WorkAddress1(v) == NoAddress1 <==> forall i :: 0 <= i < |v.deliveryAddresses| ==> !v.deliveryAddresses[i].isWork
    ensures WorkAddress1(v) != NoAddress1 ==>
      exists i :: 0 <= i < |v.deliveryAddresses| && v.deliveryAddresses[i].isWork
        && (forall j :: 0 <= j < i ==> !v.deliveryAddresses[j].isWork)
        && var a := v.deliveryAddresses[i];
           WorkAddress1(v) == Address1(Some(a.street), Some(a.city), Some(a.region), Some(a.country), Some(a.postalCode))
  {
  }

  /**
   * The classification lookup fails exactly when the card has categories and
   * the first names no single classification; an empty first category is the
   * argument error, any other miss is "not found".
   */
  lemma ClassificationFailures(referenceData: OrganizationService, v: VCard)
    ensures ClassificationFor(referenceData, v) == Success(None) <==> |v.categories| == 0
    ensures ClassificationFor(referenceData, v).Failure? <==>
      |v.categories| > 0 && !OrganizationServiceExtensions.GetCompanyClassificationReferenceByName(referenceData, v.categories[0]).Found?
    ensures ClassificationFor(referenceData, v) == Failure(ArgumentNullOrEmpty) <==> |v.categories| > 0 && v.categories[0] == ""
  {
  }

  /** A land is set only from a work address whose country is not blank. */
  lemma LandNeedsCountry(referenceData: OrganizationService, v: VCard, row: ContactRow)
    ensures ContactWithVcard(row, v, referenceData).land.Some? ==>
      WorkAddress1(v).country.Some? && !IsWhiteSpaceOnly(WorkAddress1(v).country.value)
  {
  }

  /**
   * The mapped account depends on the old record only through its id and
   * owner: name, website, address, land and classification are overwritten,
   * the name with the organisation exactly as the card gives it.
   */
  lemma AccountMappingOverwrites(row1: AccountRow, row2: AccountRow, v: VCard, referenceData: OrganizationService)
    ensures AccountWithVcard(row1, v, referenceData).Success? <==> AccountWithVcard(row2, v, referenceData).Success?
    ensures AccountWithVcard(row1, v, referenceData).Success? ==>
      AccountWithVcard(row2, v, referenceData).value == AccountWithVcard(row1, v, referenceData).value.(id := row2.id, ownerId := row2.ownerId)
    ensures AccountWithVcard(row1, v, referenceData).Success? ==> AccountWithVcard(row1, v, referenceData).value.name == Some(v.organization)
  {
  }

  /**
   * The mapped contact depends on the old record only through its id,
   * parent customer, account, owner and description: every other column the
   * card maps is overwritten, blank when the card has no value for it.
   */
  lemma ContactMappingOverwrites(row1: ContactRow, row2: ContactRow, v: VCard, referenceData: OrganizationService)
    ensures ContactWithVcard(row2, v, referenceData) ==
      ContactWithVcard(row1, v, referenceData).(
        id := row2.id, parentCustomerName := row2.parentCustomerName, accountId := row2.accountId,
        ownerId := row2.ownerId, description := ContactWithVcard(row2, v, referenceData).description)
  {
  }

  /**
   * Telephone, fax and mobile each hold the number of the first phone with
   * that tag, or null when the card has none, whatever the contact held.
   */
  lemma ContactPhoneColumns(row: ContactRow, v: VCard, referenceData: OrganizationService, kind: PhoneKind)
    ensures var c := ContactWithVcard(row, v, referenceData);
      var column := match kind case Work => c.telephone1 case Fax => c.fax case Cellular => c.mobilePhone;
      (column.None? <==> forall i :: 0 <= i < |v.phones| ==> !HasKind(v.phones[i], kind))
      && (column.Some? ==>
            exists i :: 0 <= i < |v.phones| && HasKind(v.phones[i], kind) && column.value == v.phones[i].fullNumber
              && forall j :: 0 <= j < i ==> !HasKind(v.phones[j], kind))
  {
  }

  /** The notes are appended to the description: the old description is kept as a prefix. */
  lemma DescriptionAppended(row: ContactRow, v: VCard, referenceData: OrganizationService)
    ensures var d := ContactWithVcard(row, v, referenceData).description;
      d.Some? && |d.value| == |row.description.GetOr("")| + |v.notes|
      && d.value[..|row.description.GetOr("")|] == row.description.GetOr("")
      && d.value[|row.description.GetOr("")|..] == v.notes
  {
  }

  // ---------------------------------------------------------------------------
  // The steps
  // ---------------------------------------------------------------------------

  /** With every user id set, no sender is resolved exactly when no user has the sender's address. */
  lemma ImpersonatedUserFound(users: seq<UserRow>, userEmail: string, ignoreCase: bool)
    requires forall i :: 0 <= i < |users| ==> users[i].id != EmptyGuid
    ensures ImpersonatedUserId(users, userEmail, ignoreCase) == EmptyGuid <==>
      forall i :: 0 <= i < |users| ==> !UserWithEmail(userEmail, ignoreCase)(users[i])
    ensures ImpersonatedUserId(users, userEmail, ignoreCase) != EmptyGuid ==>
      exists i :: 0 <= i < |users| && UserWithEmail(userEmail, ignoreCase)(users[i])
        && ImpersonatedUserId(users, userEmail, ignoreCase) == users[i].id
  {
    match FirstWhere(users, UserWithEmail(userEmail, ignoreCase))
    case None =>
    case Some(u) =>
      var i :| 0 <= i < |users| && u == users[i] && UserWithEmail(userEmail, ignoreCase)(users[i]);
      assert users[i].id != EmptyGuid;
  }

  /** The account step fails exactly when the classification lookup does, with its error. */
  lemma AccountStageFailure(s: StoreState, referenceData: OrganizationService, ignoreCase: bool, v: VCard, owner: Guid)
    ensures AccountStage(s, referenceData, ignoreCase, v, owner).Failure? <==> ClassificationFor(referenceData, v).Failure?
    ensures AccountStage(s, referenceData, ignoreCase, v, owner).Failure? ==>
      AccountStage(s, referenceData, ignoreCase, v, owner).error == ClassificationFor(referenceData, v).error
  {
    var found := FirstIndex(s.accounts, AccountNameStartsWith(CompanyNameHelper.Normalize(v.organization), ignoreCase));
    if found.Some? {
      AccountMappingOverwrites(s.accounts[found.value], NewAccountRow(), v, referenceData);
    }
  }

  /**
   * Contact matching fails exactly when no contact has the card's names and
   * organisation and the card has no e-mail address.
   */
  lemma ContactMatchFailure(contacts: seq<ContactRow>, v: VCard, ignoreCase: bool)
    ensures ContactMatch(contacts, v, ignoreCase).Failure? <==>
      |v.emailAddresses| == 0
      && forall i :: 0 <= i < |contacts| ==>
           !ContactNamed(Trim(v.givenName), Trim(v.familyName), Trim(v.organization), ignoreCase)(contacts[i])
    ensures ContactMatch(contacts, v, ignoreCase).Failure? ==> ContactMatch(contacts, v, ignoreCase).error == IndexOutOfRange
  {
  }

  /**
   * Which contact is matched: the first contact with the card's trimmed
   * names and organisation wins; only when there is none does the first
   * e-mail address decide, and then the match is the first contact whose
   * e-mail address equals it in the store's collation, or none when no
   * contact has it.
   */
  lemma ContactMatchStages(contacts: seq<ContactRow>, v: VCard, ignoreCase: bool, j: nat)
    ensures var named := ContactNamed(Trim(v.givenName), Trim(v.familyName), Trim(v.organization), ignoreCase);
      j < |contacts| && named(contacts[j]) && (forall k :: 0 <= k < j ==> !named(contacts[k]))
      ==> ContactMatch(contacts, v, ignoreCase) == Success(Some(j))
    ensures var named := ContactNamed(Trim(v.givenName), Trim(v.familyName), Trim(v.organization), ignoreCase);
      (forall k :: 0 <= k < |contacts| ==> !named(contacts[k])) && |v.emailAddresses| > 0
      ==> var email := Trim(v.emailAddresses[0]);
        (ContactMatch(contacts, v, ignoreCase) == Success(Some(j)) <==>
           j < |contacts|
           && contacts[j].eMailAddress1.Some? && TextEquals(contacts[j].eMailAddress1.value, email, ignoreCase)
           && forall k :: 0 <= k < j ==>
                !(contacts[k].eMailAddress1.Some? && TextEquals(contacts[k].eMailAddress1.value, email, ignoreCase)))
        && (ContactMatch(contacts, v, ignoreCase) == Success(None) <==>
           forall k :: 0 <= k < |contacts| ==>
             !(contacts[k].eMailAddress1.Some? && TextEquals(contacts[k].eMailAddress1.value, email, ignoreCase)))
  {
    var named := ContactNamed(Trim(v.givenName), Trim(v.familyName), Trim(v.organization), ignoreCase);
    var m := FirstIndex(contacts, named);
    if j < |contacts| && named(contacts[j]) && (forall k :: 0 <= k < j ==> !named(contacts[k])) {
      assert m.Some?;
      assert m.value == j;
    }
    if (forall k :: 0 <= k < |contacts| ==> !named(contacts[k])) && |v.emailAddresses| > 0 {
      var email := Trim(v.emailAddresses[0]);
      var byEmail := ContactWithEmail(email, ignoreCase);
      assert m.None?;
      var e := FirstIndex(contacts, byEmail);
      assert ContactMatch(contacts, v, ignoreCase) == Success(e);
      if j < |contacts| && byEmail(contacts[j]) && (forall k :: 0 <= k < j ==> !byEmail(contacts[k])) {
        assert e.Some?;
        assert e.value == j;
      }
    }
  }

  /**
   * An existing account is chosen by the shortened organisation name: the
   * first one whose name begins with it is rewritten in place, keeping its
   * id and owner, and nothing else in the store changes.
   */
  lemma AccountStageUpdatesFirstMatch(s: StoreState, referenceData: OrganizationService, ignoreCase: bool, v: VCard, owner: Guid, i: nat)
    requires FirstIndex(s.accounts, AccountNameStartsWith(CompanyNameHelper.Normalize(v.organization), ignoreCase)) == Some(i)
    requires AccountStage(s, referenceData, ignoreCase, v, owner).Success?
    ensures var saved := AccountStage(s, referenceData, ignoreCase, v, owner).value;
      i < |s.accounts| && |saved.state.accounts| == |s.accounts|
      && saved.accountId == s.accounts[i].id
      && saved.state.accounts[i] == AccountWithVcard(s.accounts[i], v, referenceData).value
      && saved.state.accounts[i].ownerId == s.accounts[i].ownerId
      && (forall j :: 0 <= j < |s.accounts| && j != i ==> saved.state.accounts[j] == s.accounts[j])
      && saved.state.(accounts := s.accounts) == s
  {
    AccountWithVcardKeepsIdentity(s.accounts[i], v, referenceData);
  }

  /**
   * Without a matching account a new one is appended, owned by the sender,
   * under an id no stored account has.
   */
  lemma AccountStageCreates(s: StoreState, referenceData: OrganizationService, ignoreCase: bool, v: VCard, owner: Guid)
    requires StateValid(s)
    requires FirstIndex(s.accounts, AccountNameStartsWith(CompanyNameHelper.Normalize(v.organization), ignoreCase)).None?
    requires AccountStage(s, referenceData, ignoreCase, v, owner).Success?
    ensures var saved := AccountStage(s, referenceData, ignoreCase, v, owner).value;
      |saved.state.accounts| == |s.accounts| + 1
      && saved.state.accounts[..|s.accounts|] == s.accounts
      && saved.state.accounts[|s.accounts|] == AccountWithVcard(NewAccountRow(), v, referenceData).value.(ownerId := owner, id := saved.accountId)
      && (forall j :: 0 <= j < |s.accounts| ==> s.accounts[j].id != saved.accountId)
      && saved.state.users == s.users && saved.state.contacts == s.contacts
  {
    var saved := AccountStage(s, referenceData, ignoreCase, v, owner).value;
    assert saved.state.accounts[..|s.accounts|] == s.accounts;
  }

  /**
   * A matched contact is rewritten in place and moved under the account,
   * keeping its id, owner and parent customer; nothing else changes.
   */
  lemma ContactStageUpdatesMatch(s: StoreState, referenceData: OrganizationService, ignoreCase: bool, v: VCard, owner: Guid, accountId: Guid, i: nat)
    requires ContactMatch(s.contacts, v, ignoreCase) == Success(Some(i))
    ensures var after := ContactStage(s, referenceData, ignoreCase, v, owner, accountId);
      after.Success? && i < |s.contacts| && |after.value.contacts| == |s.contacts|
      && after.value.contacts[i] == ContactWithVcard(s.contacts[i], v, referenceData).(accountId := accountId)
      && after.value.contacts[i].id == s.contacts[i].id
      && after.value.contacts[i].ownerId == s.contacts[i].ownerId
      && after.value.contacts[i].parentCustomerName == s.contacts[i].parentCustomerName
      && (forall j :: 0 <= j < |s.contacts| && j != i ==> after.value.contacts[j] == s.contacts[j])
      && after.value.(contacts := s.contacts) == s
  {
    ContactWithVcardKeepsIdentity(s.contacts[i], v, referenceData);
  }

  /**
   * Without a matching contact a new one is appended under the account,
   * owned by the sender, under an id no stored contact has.
   */
  lemma ContactStageCreates(s: StoreState, referenceData: OrganizationService, ignoreCase: bool, v: VCard, owner: Guid, accountId: Guid)
    requires StateValid(s)
    requires ContactMatch(s.contacts, v, ignoreCase) == Success(None)
    ensures var after := ContactStage(s, referenceData, ignoreCase, v, owner, accountId);
      after.Success? && |after.value.contacts| == |s.contacts| + 1
      && after.value.contacts[..|s.contacts|] == s.contacts
      && after.value.contacts[|s.contacts|] == ContactWithVcard(NewContactRow(), v, referenceData).(accountId := accountId, ownerId := owner, id := Guid(s.nextId))
      && (forall j :: 0 <= j < |s.contacts| ==> s.contacts[j].id != Guid(s.nextId))
      && after.value.users == s.users && after.value.accounts == s.accounts
  {
    var after := ContactStage(s, referenceData, ignoreCase, v, owner, accountId).value;
    assert after.contacts[..|s.contacts|] == s.contacts;
  }

  // ---------------------------------------------------------------------------
  // The whole import
  // ---------------------------------------------------------------------------

  /**
   * An import succeeds exactly when the sender is a user, the classification
   * resolves and the contact can be matched or created.
   */
  lemma ImportOutcome(s: StoreState, referenceData: OrganizationService, ignoreCase: bool, v: VCard, userEmail: string)
    requires StateValid(s)
    ensures Reconcile(s, referenceData, ignoreCase, v, userEmail).0.Success? <==>
      ImpersonatedUserId(s.users, userEmail, ignoreCase) != EmptyGuid
      && ClassificationFor(referenceData, v).Success?
      && ContactMatch(s.contacts, v, ignoreCase).Success?
  {
    var owner := ImpersonatedUserId(s.users, userEmail, ignoreCase);
    if owner != EmptyGuid {
      assert Reconcile(s, referenceData, ignoreCase, v, userEmail) == ImportAs(s, referenceData, ignoreCase, v, owner);
      AccountStageFailure(s, referenceData, ignoreCase, v, owner);
      var stage := AccountStage(s, referenceData, ignoreCase, v, owner);
      if stage.Success? {
        AccountStageKeepsValid(s, referenceData, ignoreCase, v, owner);
        assert stage.value.state.contacts == s.contacts;
      }
    }
  }

  /**
   * The import reports an unknown sender exactly when no user has the
   * sender's address; the other failures come from the classification
   * (ArgumentNullOrEmpty, ClassificationNotFound) and from contact matching
   * (IndexOutOfRange).
   */
  lemma ImportFailureCauses(s: StoreState, referenceData: OrganizationService, ignoreCase: bool, v: VCard, userEmail: string)
    requires StateValid(s)
    ensures var outcome := Reconcile(s, referenceData, ignoreCase, v, userEmail).0;
      (outcome == Failure(UserNotFound) <==> forall i :: 0 <= i < |s.users| ==> !UserWithEmail(userEmail, ignoreCase)(s.users[i]))
      && (outcome == Failure(IndexOutOfRange) ==> |v.emailAddresses| == 0)
  {
    ImpersonatedUserFound(s.users, userEmail, ignoreCase);
    var owner := ImpersonatedUserId(s.users, userEmail, ignoreCase);
    if owner != EmptyGuid {
      assert Reconcile(s, referenceData, ignoreCase, v, userEmail) == ImportAs(s, referenceData, ignoreCase, v, owner);
      ImportAsFailureCauses(s, referenceData, ignoreCase, v, owner);
    }
  }

  /** Once the sender is known, the import fails only for the classification or for contact matching. */
  lemma ImportAsFailureCauses(s: StoreState, referenceData: OrganizationService, ignoreCase: bool, v: VCard, owner: Guid)
    ensures var outcome := ImportAs(s, referenceData, ignoreCase, v, owner).0;
      outcome != Failure(UserNotFound)
      && (outcome == Failure(IndexOutOfRange) ==> |v.emailAddresses| == 0)
  {
    AccountStageFailure(s, referenceData, ignoreCase, v, owner);
    match AccountStage(s, referenceData, ignoreCase, v, owner)
    case Failure(e) =>
      assert e == ClassificationFor(referenceData, v).error;
    case Success(saved) =>
      ContactMatchFailure(saved.state.contacts, v, ignoreCase);
      var contacted := ContactStage(saved.state, referenceData, ignoreCase, v, owner, saved.accountId);
      assert contacted.Failure? ==> contacted.error == IndexOutOfRange;
  }

  /** An unknown sender changes nothing in the store. */
  lemma UnknownSenderChangesNothing(s: StoreState, referenceData: OrganizationService, ignoreCase: bool, v: VCard, userEmail: string)
    requires StateValid(s)
    requires forall i :: 0 <= i < |s.users| ==> !UserWithEmail(userEmail, ignoreCase)(s.users[i])
    ensures Reconcile(s, referenceData, ignoreCase, v, userEmail) == (Failure(UserNotFound), s)
  {
    ImpersonatedUserFound(s.users, userEmail, ignoreCase);
  }

  /**
   * Saving the account is not undone: when the contact step fails, the store
   * keeps the account step's result.
   */
  lemma ContactFailureKeepsAccount(s: StoreState, referenceData: OrganizationService, ignoreCase: bool, v: VCard, userEmail: string)
    requires StateValid(s)
    requires ImpersonatedUserId(s.users, userEmail, ignoreCase) != EmptyGuid
    requires ClassificationFor(referenceData, v).Success?
    requires ContactMatch(s.contacts, v, ignoreCase).Failure?
    ensures var owner := ImpersonatedUserId(s.users, userEmail, ignoreCase);
      var stage := AccountStage(s, referenceData, ignoreCase, v, owner);
      stage.Success? && Reconcile(s, referenceData, ignoreCase, v, userEmail) == (Failure(IndexOutOfRange), stage.value.state)
  {
    var owner := ImpersonatedUserId(s.users, userEmail, ignoreCase);
    assert Reconcile(s, referenceData, ignoreCase, v, userEmail) == ImportAs(s, referenceData, ignoreCase, v, owner);
    AccountStageFailure(s, referenceData, ignoreCase, v, owner);
    AccountStageKeepsValid(s, referenceData, ignoreCase, v, owner);
    ContactMatchFailure(s.contacts, v, ignoreCase);
  }

  /**
   * After a successful import the store holds an account named as the card's
   * organisation and a contact with the card's trimmed names attached to it.
   */
  lemma ImportLinksContactToAccount(s: StoreState, referenceData: OrganizationService, ignoreCase: bool, v: VCard, userEmail: string)
    requires StateValid(s)
    requires Reconcile(s, referenceData, ignoreCase, v, userEmail).0.Success?
    ensures var after := Reconcile(s, referenceData, ignoreCase, v, userEmail).1;
      exists a, c :: 0 <= a < |after.accounts| && 0 <= c < |after.contacts|
        && after.accounts[a].name == Some(v.organization)
        && after.contacts[c].accountId == after.accounts[a].id
        && after.contacts[c].firstName == Some(Trim(v.givenName))
        && after.contacts[c].lastName == Some(Trim(v.familyName))
  {
    var owner := ImpersonatedUserId(s.users, userEmail, ignoreCase);
    assert Reconcile(s, referenceData, ignoreCase, v, userEmail) == ImportAs(s, referenceData, ignoreCase, v, owner);
    var saved := AccountStage(s, referenceData, ignoreCase, v, owner).value;
    var a := SavedAccountPosition(s, referenceData, ignoreCase, v, owner);
    var c := SavedContactPosition(saved.state, referenceData, ignoreCase, v, owner, saved.accountId);
    var after := ContactStage(saved.state, referenceData, ignoreCase, v, owner, saved.accountId).value;
    assert Reconcile(s, referenceData, ignoreCase, v, userEmail).1 == after;
    assert after.accounts[a] == saved.state.accounts[a];
  }

  /** Where the contact step left the contact it saved: under the account, with the card's trimmed names. */
  lemma SavedContactPosition(s: StoreState, referenceData: OrganizationService, ignoreCase: bool, v: VCard, owner: Guid, accountId: Guid) returns (c: nat)
    requires ContactStage(s, referenceData, ignoreCase, v, owner, accountId).Success?
    ensures var after := ContactStage(s, referenceData, ignoreCase, v, owner, accountId).value;
      after.accounts == s.accounts && c < |after.contacts| && after.contacts[c].accountId == accountId
      && after.contacts[c].firstName == Some(Trim(v.givenName))
      && after.contacts[c].lastName == Some(Trim(v.familyName))
  {
    match ContactMatch(s.contacts, v, ignoreCase)
    case Success(Some(i)) =>
      c := i;
    case Success(None) =>
      c := |s.contacts|;
  }

  /** Where the account step left the account it saved, named as the card's organisation. */
  lemma SavedAccountPosition(s: StoreState, referenceData: OrganizationService, ignoreCase: bool, v: VCard, owner: Guid) returns (a: nat)
    requires AccountStage(s, referenceData, ignoreCase, v, owner).Success?
    ensures var saved := AccountStage(s, referenceData, ignoreCase, v, owner).value;
      a < |saved.state.accounts| && saved.state.accounts[a].id == saved.accountId
      && saved.state.accounts[a].name == Some(v.organization)
  {
    match FirstIndex(s.accounts, AccountNameStartsWith(CompanyNameHelper.Normalize(v.organization), ignoreCase))
    case Some(i) =>
      AccountWithVcardKeepsIdentity(s.accounts[i], v, referenceData);
      a := i;
    case None =>
      a := |s.accounts|;
  }
}
