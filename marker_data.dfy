/**
 * The records the admin map exchanges with the REST API: marker records as
 * `GET markers/` returns them, the form data the marker form hands to the map,
 * and the request bodies the map sends.
 */
module MarkerData {
  import opened Wrappers
  import opened Js

  /**
   * A marker id: the server's integer `marker_id`, or the `temp-<millis>`
   * string the map invents when a create fails.
   */
  datatype MarkerId = ServerId(n: int) | TempId(text: string)
  {
    /** JavaScript truthiness of the id (`if (m.marker_id)`, `if (markerId)`). */
    predicate Truthy() {
      match this
      case ServerId(n) => n != 0
      case TempId(t) => t != ""
    }
  }

  /** The `business` object nested in a marker record. */
  datatype Business = Business(
    businessId: Option<int>,
    name: Option<string>,
    address: Option<string>,
    industry: Option<string>)

  /** The `investible` (or `invst`) object nested in a marker record. */
  datatype Investible = Investible(
    investibleId: Option<int>,
    location: Option<string>,
    description: Option<string>,
    area: Option<string>,
    preferredBusiness: Option<string>,
    landmark: Option<string>,
    contactPerson: Option<string>,
    contactNumber: Option<string>,
    status: Option<string>)

  /** One entry of `savedMarkers`. */
  datatype MarkerRecord = MarkerRecord(
    markerId: MarkerId,
    labelText: Option<string>,
    lat: real,
    lng: real,
    business: Option<Business>,
    investible: Option<Investible>,
    invst: Option<Investible>)

  /**
   * The object handed to the map's submit handlers. Each key may be absent:
   * the marker form fills only label, location and industry.
   */
  datatype FormData = FormData(
    markerType: Option<string>,
    labelText: Option<string>,
    location: Option<string>,
    industry: Option<string>,
    area: Option<string>,
    preferredBusiness: Option<string>,
    landmark: Option<string>,
    contactPerson: Option<string>,
    contactNumber: Option<string>,
    status: Option<string>)

  /** The form data `{label, location, industry}` the marker modals submit. */
  function ThreeFields(name: string, location: string, industry: string): FormData {
    FormData(None, Some(name), Some(location), Some(industry), None, None, None, None, None, None)
  }

  /** The marker type chosen in the selection modal. */
  datatype Kind = BusinessKind | InvestibleKind

  /** Body of a business POST or PUT. */
  datatype BusinessBody = BusinessBody(name: Option<string>, address: Option<string>, industry: Option<string>)

  /** Body of an investible POST or PUT. */
  datatype InvestibleBody = InvestibleBody(
    location: Option<string>,
    description: Option<string>,
    area: Option<string>,
    preferredBusiness: Option<string>,
    landmark: Option<string>,
    contactPerson: Option<string>,
    contactNumber: Option<string>,
    status: string)

  /** Body of a marker POST or PUT. */
  datatype MarkerBody = MarkerBody(
    labelText: Option<string>,
    lat: real,
    lng: real,
    businessId: Option<int>,
    investibleId: Option<int>)

  /** A request the map sends through the API client. */
  datatype ApiCall =
    | GetMarkers
    | PostBusiness(business: BusinessBody)
    | PostInvestible(investible: InvestibleBody)
    | PostMarker(marker: MarkerBody)
    | PutBusiness(businessId: int, business: BusinessBody)
    | PutInvestible(investibleId: int, investible: InvestibleBody)
    | PutMarker(markerId: MarkerId, marker: MarkerBody)
    | DeleteMarker(markerId: MarkerId)

  /** The business fields of the form: name and label coincide. */
  function BusinessBodyOf(form: FormData): BusinessBody {
    BusinessBody(form.labelText, form.location, form.industry)
  }

  /**
   * The investible body the map sends on create and on edit: the description
   * defaults to the preferred business or 'Investible property', the status to 'available'.
   */
  function InvestibleBodyOf(form: FormData): (b: InvestibleBody)
    ensures b.description.Some? && b.description.value != ""
    ensures form.preferredBusiness.Some? && form.preferredBusiness.value != "" ==> b.description == form.preferredBusiness
    ensures form.preferredBusiness.None? || form.preferredBusiness == Some("") ==> b.description == Some("Investible property")
    ensures b.status != ""
    ensures b.status == "available" <==> form.status.None? || form.status == Some("") || form.status == Some("available")
  {
    InvestibleBody(form.location, Some(OrElse(form.preferredBusiness, "Investible property")), form.area,
                   form.preferredBusiness, form.landmark, form.contactPerson, form.contactNumber,
                   OrElse(form.status, "available"))
  }
}
