/** The records and enumerations shared by the pricing cards and the booking form. */
module Types {

  datatype Option<T> = None | Some(value: T)

  /** Property type: `'jumele'` (town house / semi-detached) or `'detache'` (detached house). */
  datatype LawnType = Jumele | Detache

  /** Service plan: mowing, mowing plus leaf clean-up, or leaf pick-up alone. */
  datatype ServiceType = Tonte | TonteFeuilles | FeuillesOnly

  /** A pricing tier of the reference data. Prices are exact currency amounts. */
  datatype PricingTier = PricingTier(
    id: LawnType,
    title: string,
    subtitle: string,
    monthlyPrice: real,
    months: nat,
    visitPriceAnchor: string,
    leafOptionPrice: real,
    features: seq<string>)

  /** Contact details of the neighbour signing up with the client ("Duo Voisin"). */
  datatype NeighborInfo = NeighborInfo(name: string, address: string, phone: string, email: string)

  /** The four keys `handleNeighborChange` is called with. */
  datatype NeighborField = Name | Address | Phone | Email

  /** The booking form's record. `neighborInfo` and `comment` are always initialised by the form. */
  datatype BookingFormData = BookingFormData(
    name: string,
    address: string,
    email: string,
    phone: string,
    lawnType: LawnType,
    serviceType: ServiceType,
    isDuoVoisin: bool,
    neighborInfo: NeighborInfo,
    comment: string)

  const EmptyNeighbor: NeighborInfo := NeighborInfo("", "", "", "")
}
