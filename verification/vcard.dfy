/** The parts of a parsed vCard that the importer reads. */
module VCard {
  import opened Wrappers

  datatype Gender = Unknown | Male | Female

  /** A telephone number and its type flags; a number may carry several. */
  datatype Phone = Phone(fullNumber: string, isWork: bool, isFax: bool, isCellular: bool)

  datatype DeliveryAddress = DeliveryAddress(
    street: string, city: string, region: string, country: string, postalCode: string, isWork: bool)

  datatype Date = Date(year: int, month: int, day: int)

  /**
   * A vCard. `notes` is the text that appending the card's note collection to
   * a string produces.
   */
  datatype VCard = VCard(
    organization: string,
    givenName: string,
    familyName: string,
    phones: seq<Phone>,
    emailAddresses: seq<string>,
    websites: seq<string>,
    deliveryAddresses: seq<DeliveryAddress>,
    department: string,
    role: string,
    birthDate: Option<Date>,
    gender: Gender,
    notes: string,
    categories: seq<string>)

  /** The type flags the importer selects phones by. */
  datatype PhoneKind = Work | Fax | Cellular

  predicate HasKind(p: Phone, kind: PhoneKind) {
    match kind
    case Work => p.isWork
    case Fax => p.isFax
    case Cellular => p.isCellular
  }

  /** The number of the first phone of the given kind, or None. */
  function FirstNumber(phones: seq<Phone>, kind: PhoneKind): (r: Option<string>)
    ensures r.None? <==> forall i :: 0 <= i < |phones| ==> !HasKind(phones[i], kind)
    ensures r.Some? ==> exists i :: 0 <= i < |phones| && HasKind(phones[i], kind) && r.value == phones[i].fullNumber &&
                                  forall j :: 0 <= j < i ==> !HasKind(phones[j], kind)
  {
    if phones == [] then None
    else if HasKind(phones[0], kind) then Some(phones[0].fullNumber)
    else
      var r := FirstNumber(phones[1..], kind);
      assert r.Some? ==> exists i :: 0 <= i < |phones[1..]| && HasKind(phones[1..][i], kind) && r.value == phones[1..][i].fullNumber &&
                                  forall j :: 0 <= j < i ==> !HasKind(phones[1..][j], kind);
      r
  }

  /** The first delivery address flagged as a work address, or None. */
  function FirstWorkAddress(addresses: seq<DeliveryAddress>): (r: Option<DeliveryAddress>)
    ensures r.None? <==> forall i :: 0 <= i < |addresses| ==> !addresses[i].isWork
    ensures r.Some? ==> exists i :: 0 <= i < |addresses| && addresses[i].isWork && r.value == addresses[i] &&
                                  forall j :: 0 <= j < i ==> !addresses[j].isWork
  {
    if addresses == [] then None
    else if addresses[0].isWork then Some(addresses[0])
    else FirstWorkAddress(addresses[1..])
  }
}
