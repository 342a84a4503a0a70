/**
 * The early-bound CRM records the importer writes (Account, Contact), the
 * system users it reads, and the organisation store that SaveChanges
 * writes to. A null column is None.
 */
module CrmEntities {
  import opened Wrappers
  import opened Sdk
  import opened VCard

  /** The five Address1_* columns of an account or a contact, kept together. */
  datatype Address1 = Address1(
    line1: Option<string>,
    city: Option<string>,
    stateOrProvince: Option<string>,
    country: Option<string>,
    postalCode: Option<string>)

  const NoAddress1 := Address1(None, None, None, None, None)

  datatype UserRow = UserRow(id: Guid, internalEMailAddress: Option<string>)

  datatype AccountRow = AccountRow(
    id: Guid,
    name: Option<string>,
    webSiteUrl: Option<string>,
    address1: Address1,
    land: Option<EntityReference>,
    classification: Option<EntityReference>,
    ownerId: Guid)

  datatype ContactRow = ContactRow(
    id: Guid,
    firstName: Option<string>,
    lastName: Option<string>,
    parentCustomerName: Option<string>,
    telephone1: Option<string>,
    fax: Option<string>,
    mobilePhone: Option<string>,
    eMailAddress1: Option<string>,
    webSiteUrl: Option<string>,
    address1: Address1,
    land: Option<EntityReference>,
    department: Option<string>,
    jobTitle: Option<string>,
    birthDate: Option<Date>,
    salutation: Option<int>,
    description: Option<string>,
    accountId: Guid,
    ownerId: Guid)

  /** A `new Account()`: every column null, no id yet. */
  function NewAccountRow(): (r: AccountRow)
    ensures r.id == EmptyGuid && r.ownerId == EmptyGuid && r.name.None?
  {
    AccountRow(EmptyGuid, None, None, NoAddress1, None, None, EmptyGuid)
  }

  /** A `new Contact()`: every column null, no id yet. */
  function NewContactRow(): (r: ContactRow)
    ensures r.id == EmptyGuid && r.ownerId == EmptyGuid && r.accountId == EmptyGuid
    ensures r.parentCustomerName.None? && r.description.None?
  {
    ContactRow(EmptyGuid, None, None, None, None, None, None, None, None, NoAddress1, None,
      None, None, None, None, None, EmptyGuid, EmptyGuid)
  }

  /** An account record held in memory while it is being mapped. */
  class Account {
    var id: Guid
    var name: Option<string>
    var webSiteUrl: Option<string>
    var address1: Address1
    var land: Option<EntityReference>
    var classification: Option<EntityReference>
    var ownerId: Guid

    function Row(): AccountRow
      reads this
    {
      AccountRow(id, name, webSiteUrl, address1, land, classification, ownerId)
    }

    constructor ()
      ensures Row() == NewAccountRow()
    {
      id, name, webSiteUrl, address1 := EmptyGuid, None, None, NoAddress1;
      land, classification, ownerId := None, None, EmptyGuid;
    }

    /** The record as retrieved from the store. */
    constructor FromRow(row: AccountRow)
      ensures Row() == row
    {
      id, name, webSiteUrl, address1 := row.id, row.name, row.webSiteUrl, row.address1;
      land, classification, ownerId := row.land, row.classification, row.ownerId;
    }
  }

  /** A contact record held in memory while it is being mapped. */
  class Contact {
    var id: Guid
    var firstName: Option<string>
    var lastName: Option<string>
    var parentCustomerName: Option<string>
    var telephone1: Option<string>
    var fax: Option<string>
    var mobilePhone: Option<string>
    var eMailAddress1: Option<string>
    var webSiteUrl: Option<string>
    var address1: Address1
    var land: Option<EntityReference>
    var department: Option<string>
    var jobTitle: Option<string>
    var birthDate: Option<Date>
    var salutation: Option<int>
    var description: Option<string>
    var accountId: Guid
    var ownerId: Guid

    function Row(): ContactRow
      reads this
    {
      ContactRow(id, firstName, lastName, parentCustomerName, telephone1, fax, mobilePhone, eMailAddress1,
        webSiteUrl, address1, land, department, jobTitle, birthDate, salutation, description, accountId, ownerId)
    }

    constructor ()
      ensures Row() == NewContactRow()
    {
      id, firstName, lastName, parentCustomerName := EmptyGuid, None, None, None;
      telephone1, fax, mobilePhone, eMailAddress1, webSiteUrl := None, None, None, None, None;
      address1, land, department, jobTitle, birthDate, salutation, description := NoAddress1, None, None, None, None, None, None;
      accountId, ownerId := EmptyGuid, EmptyGuid;
    }

    /** The record as retrieved from the store. */
    constructor FromRow(row: ContactRow)
      ensures Row() == row
    {
      id, firstName, lastName, parentCustomerName := row.id, row.firstName, row.lastName, row.parentCustomerName;
      telephone1, fax, mobilePhone, eMailAddress1, webSiteUrl := row.telephone1, row.fax, row.mobilePhone, row.eMailAddress1, row.webSiteUrl;
      address1, land, department, jobTitle, birthDate := row.address1, row.land, row.department, row.jobTitle, row.birthDate;
      salutation, description, accountId, ownerId := row.salutation, row.description, row.accountId, row.ownerId;
    }
  }

  /** The stored records and the next id the store hands out. */
  datatype StoreState = StoreState(users: seq<UserRow>, accounts: seq<AccountRow>, contacts: seq<ContactRow>, nextId: nat)

  /**
   * Ids are never empty; account and contact ids are below nextId and
   * distinct, so the id handed out next is new.
   */
  ghost predicate StateValid(s: StoreState) {
    0 < s.nextId
    && (forall i :: 0 <= i < |s.users| ==> s.users[i].id != EmptyGuid)
    && (forall i :: 0 <= i < |s.accounts| ==> 0 < s.accounts[i].id.value < s.nextId)
    && (forall i, j :: 0 <= i < j < |s.accounts| ==> s.accounts[i].id != s.accounts[j].id)
    && (forall i :: 0 <= i < |s.contacts| ==> 0 < s.contacts[i].id.value < s.nextId)
    && (forall i, j :: 0 <= i < j < |s.contacts| ==> s.contacts[i].id != s.contacts[j].id)
  }

  /**
   * The organisation store behind the service context. Creating a record
   * assigns it the next id; updating replaces the retrieved record.
   */
  class CrmStore {
    var users: seq<UserRow>
    var accounts: seq<AccountRow>
    var contacts: seq<ContactRow>
    var nextId: nat
    /** The reference data (countries, classifications) the resolvers read. */
    const referenceData: OrganizationService
    /** Whether the store compares text ignoring case. */
    const ignoreCase: bool

    function State(): StoreState
      reads this
    {
      StoreState(users, accounts, contacts, nextId)
    }

    ghost predicate Valid()
      reads this
    {
      StateValid(State())
    }

    constructor (users: seq<UserRow>, referenceData: OrganizationService, ignoreCase: bool)
      requires forall i :: 0 <= i < |users| ==> users[i].id != EmptyGuid
      ensures Valid()
      ensures State() == StoreState(users, [], [], 1)
      ensures this.referenceData == referenceData && this.ignoreCase == ignoreCase
    {
      this.users, accounts, contacts, nextId := users, [], [], 1;
      this.referenceData, this.ignoreCase := referenceData, ignoreCase;
    }

    /** Attach + SaveChanges of a new account: stored last, under a new id. */
    method CreateAccount(row: AccountRow) returns (id: Guid)
      requires Valid()
      modifies this
      ensures Valid()
      ensures id == Guid(old(nextId))
      ensures State() == old(State()).(accounts := old(accounts) + [row.(id := id)], nextId := old(nextId) + 1)
    {
      AppendAccountKeepsValid(State(), row);
      id := Guid(nextId);
      accounts := accounts + [row.(id := id)];
      nextId := nextId + 1;
    }

    /** SaveChanges of the retrieved account at position `i`. */
    method UpdateAccount(i: nat, row: AccountRow)
      requires Valid() && i < |accounts| && row.id == accounts[i].id
      modifies this
      ensures Valid()
      ensures State() == old(State()).(accounts := old(accounts)[i := row])
    {
      ReplaceAccountKeepsValid(State(), i, row);
      accounts := accounts[i := row];
    }

    /** Attach + SaveChanges of a new contact: stored last, under a new id. */
    method CreateContact(row: ContactRow) returns (id: Guid)
      requires Valid()
      modifies this
      ensures Valid()
      ensures id == Guid(old(nextId))
      ensures State() == old(State()).(contacts := old(contacts) + [row.(id := id)], nextId := old(nextId) + 1)
    {
      AppendContactKeepsValid(State(), row);
      id := Guid(nextId);
      contacts := contacts + [row.(id := id)];
      nextId := nextId + 1;
    }

    /** SaveChanges of the retrieved contact at position `i`. */
    method UpdateContact(i: nat, row: ContactRow)
      requires Valid() && i < |contacts| && row.id == contacts[i].id
      modifies this
      ensures Valid()
      ensures State() == old(State()).(contacts := old(contacts)[i := row])
    {
      ReplaceContactKeepsValid(State(), i, row);
      contacts := contacts[i := row];
    }
  }

  /** Replacing an account by one with the same id keeps a valid state valid. */
  lemma ReplaceAccountKeepsValid(s: StoreState, i: nat, row: AccountRow)
    requires StateValid(s) && i < |s.accounts| && row.id == s.accounts[i].id
    ensures StateValid(s.(accounts := s.accounts[i := row]))
  {
    var after := s.accounts[i := row];
    assert forall j :: 0 <= j < |after| ==> after[j].id == s.accounts[j].id;
  }

  /** Appending an account under the next id, and moving past it, keeps a valid state valid. */
  lemma AppendAccountKeepsValid(s: StoreState, row: AccountRow)
    requires StateValid(s)
    ensures StateValid(s.(accounts := s.accounts + [row.(id := Guid(s.nextId))], nextId := s.nextId + 1))
  {
  }

  /** Replacing a contact by one with the same id keeps a valid state valid. */
  lemma ReplaceContactKeepsValid(s: StoreState, i: nat, row: ContactRow)
    requires StateValid(s) && i < |s.contacts| && row.id == s.contacts[i].id
    ensures StateValid(s.(contacts := s.contacts[i := row]))
  {
    var after := s.contacts[i := row];
    assert forall j :: 0 <= j < |after| ==> after[j].id == s.contacts[j].id;
  }

  /** Appending a contact under the next id, and moving past it, keeps a valid state valid. */
  lemma AppendContactKeepsValid(s: StoreState, row: ContactRow)
    requires StateValid(s)
    ensures StateValid(s.(contacts := s.contacts + [row.(id := Guid(s.nextId))], nextId := s.nextId + 1))
  {
  }
}
