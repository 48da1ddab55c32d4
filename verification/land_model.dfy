/**
 * The `Land` document schema of the server: three closed string enumerations,
 * fields that are all optional, and a `coordinates` field holding a list of
 * numeric lists. Validation here is the enumeration check Mongoose applies to a
 * field that is present; casting and the ObjectId format are not modelled.
 */
module LandModel {
  import opened Wrappers

  /** The `type` enumeration. */
  datatype LandType = Residential | Commercial | Farming | FishFarm

  /** The `availabilityStatus` enumeration. */
  datatype Availability = ForSale | ForRent | Sold | Leased | Auction

  /** The `ownershipType` enumeration. */
  datatype Ownership = Private | Government | Common

  /** The stored spelling of each land type (note the space in "Fish Farm"). */
  function LandTypeName(t: LandType): string
  {
    match t
    case Residential => "Residential"
    case Commercial => "Commercial"
    case Farming => "Farming"
    case FishFarm => "Fish Farm"
  }

  function AvailabilityName(a: Availability): string
  {
    match a
    case ForSale => "For Sale"
    case ForRent => "For Rent"
    case Sold => "Sold"
    case Leased => "Leased"
    case Auction => "Auction"
  }

  function OwnershipName(o: Ownership): string
  {
    match o
    case Private => "Private"
    case Government => "Government"
    case Common => "Common"
  }

  /** The values the schema admits for `type`, as listed in the schema. */
  const LandTypeNames: set<string> := {"Residential", "Commercial", "Farming", "Fish Farm"}

  /** The values the schema admits for `availabilityStatus`. */
  const AvailabilityNames: set<string> := {"For Sale", "For Rent", "Sold", "Leased", "Auction"}

  /** The values the schema admits for `ownershipType`. */
  const OwnershipNames: set<string> := {"Private", "Government", "Common"}

  /** Reads a stored `type` string back into the enumeration. */
  function ParseLandType(s: string): (r: Option<LandType>)
    ensures r.Some? <==> s in LandTypeNames
    ensures r.Some? ==> LandTypeName(r.value) == s
  {
    if s == "Residential" then Some(Residential)
    else if s == "Commercial" then Some(Commercial)
    else if s == "Farming" then Some(Farming)
    else if s == "Fish Farm" then Some(FishFarm)
    else None
  }

  function ParseAvailability(s: string): (r: Option<Availability>)
    ensures r.Some? <==> s in AvailabilityNames
    ensures r.Some? ==> AvailabilityName(r.value) == s
  {
    if s == "For Sale" then Some(ForSale)
    else if s == "For Rent" then Some(ForRent)
    else if s == "Sold" then Some(Sold)
    else if s == "Leased" then Some(Leased)
    else if s == "Auction" then Some(Auction)
    else None
  }

  function ParseOwnership(s: string): (r: Option<Ownership>)
    ensures r.Some? <==> s in OwnershipNames
    ensures r.Some? ==> OwnershipName(r.value) == s
  {
    if s == "Private" then Some(Private)
    else if s == "Government" then Some(Government)
    else if s == "Common" then Some(Common)
    else None
  }

  /** Every enumeration value is spelled as one of the admitted strings and reads back as itself. */
  lemma EnumRoundTrips(t: LandType, a: Availability, o: Ownership)
    ensures LandTypeName(t) in LandTypeNames && ParseLandType(LandTypeName(t)) == Some(t)
    ensures AvailabilityName(a) in AvailabilityNames && ParseAvailability(AvailabilityName(a)) == Some(a)
    ensures OwnershipName(o) in OwnershipNames && ParseOwnership(OwnershipName(o)) == Some(o)
  {
  }

  /**
   * A land document. Every field may be absent (`None`); an absent
   * `coordinates` array is stored as the empty list. `id` is the `_id` the
   * database assigns on creation.
   */
  datatype Land = Land(
    id: Option<string>,
    name: Option<string>,
    description: Option<string>,
    imageUrl: Option<string>,
    price: Option<real>,
    landType: Option<string>,
    availabilityStatus: Option<string>,
    ownershipType: Option<string>,
    coordinates: seq<seq<real>>,
    userId: Option<string>)

  /** A field passes its enumeration check when it is absent or one of the admitted strings. */
  predicate InEnum(field: Option<string>, admitted: set<string>)
  {
    field.None? || field.value in admitted
  }

  /** The paths of the fields whose enumeration check fails. */
  function ValidationErrors(l: Land): (errs: set<string>)
    ensures "type" in errs <==> l.landType.Some? && l.landType.value !in LandTypeNames
    ensures "availabilityStatus" in errs <==>
      l.availabilityStatus.Some? && l.availabilityStatus.value !in AvailabilityNames
    ensures "ownershipType" in errs <==> l.ownershipType.Some? && l.ownershipType.value !in OwnershipNames
    ensures errs <= {"type", "availabilityStatus", "ownershipType"}
  {
    (if InEnum(l.landType, LandTypeNames) then {} else {"type"})
    + (if InEnum(l.availabilityStatus, AvailabilityNames) then {} else {"availabilityStatus"})
    + (if InEnum(l.ownershipType, OwnershipNames) then {} else {"ownershipType"})
  }

  /** A document the schema accepts. */
  predicate ValidLand(l: Land)
  {
    ValidationErrors(l) == {}
  }

  /** A valid document's enumerated fields, when present, read back into the enumerations. */
  lemma ValidLandEnums(l: Land)
    requires ValidLand(l)
    ensures l.landType.Some? ==> ParseLandType(l.landType.value).Some?
    ensures l.availabilityStatus.Some? ==> ParseAvailability(l.availabilityStatus.value).Some?
    ensures l.ownershipType.Some? ==> ParseOwnership(l.ownershipType.value).Some?
  {
  }

  /** The document with every field absent. */
  const EmptyLand := Land(None, None, None, None, None, None, None, None, [], None)

  /**
   * No field is required: the empty document is valid, and removing any field
   * of a valid document keeps it valid.
   */
  lemma NoFieldRequired(l: Land)
    ensures ValidLand(EmptyLand)
    ensures ValidLand(l) ==>
      && ValidLand(l.(id := None)) && ValidLand(l.(name := None))
      && ValidLand(l.(description := None)) && ValidLand(l.(imageUrl := None))
      && ValidLand(l.(price := None)) && ValidLand(l.(landType := None))
      && ValidLand(l.(availabilityStatus := None)) && ValidLand(l.(ownershipType := None))
      && ValidLand(l.(coordinates := [])) && ValidLand(l.(userId := None))
  {
  }

  /**
   * The schema puts no bound on the number of points nor on the length of each
   * point: replacing the coordinates never changes validity, so a polygon of
   * 0, 1 or 2 points, or with points of any arity, is accepted.
   */
  lemma CoordinatesUnconstrained(l: Land, c: seq<seq<real>>)
    ensures ValidLand(l) <==> ValidLand(l.(coordinates := c))
  {
  }

  /** A fixed example: a two-point "polygon" with a one-number point is valid. */
  lemma DegeneratePolygonIsValid()
    ensures ValidLand(EmptyLand.(landType := Some("Fish Farm"), coordinates := [[22.9, 89.1], [22.95]]))
    ensures !ValidLand(EmptyLand.(landType := Some("FishFarm")))
  {
  }
}
