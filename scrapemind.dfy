/**
 * The Apify "scrapemind" adapter (scraper/apify_scrapemind.go): it keeps
 * every result (the actor already searches by coordinates) and maps a
 * decoded realtor.ca record onto a listing. The JSON decoding is an input:
 * a record arrives already decoded, or as an error.
 */
module Scrapemind {
  import opened Util
  import opened Models
  import ApiHandler
  import Canadesk
  import ApifyHelpers
  import RealtorInfo

  /** FilterListings keeps the results as they are. */
  function FilterListings(listings: seq<RawListing>): (r: seq<RawListing>)
    ensures r == listings
  {
    listings
  }

  /** The fields of a scrapemind record the adapter reads. */
  datatype Record = Record(
    id: string,
    mlsNumber: string,
    publicRemarks: string,
    relativeUrl: string,
    price: string,
    propertyType: string,
    addressText: string,
    city: string,
    photos: seq<ApiHandler.Photo>,
    bedrooms: string,
    bathroomTotal: string,
    sizeInterior: string,
    individuals: seq<RealtorInfo.Individual>)

  /**
   * extractScrapemindRealtor: the realtor block built exactly as for the other
   * adapters, except that the brokerage logo is never read.
   */
  function RealtorOf(individuals: seq<RealtorInfo.Individual>): (r: Option<Realtor>)
    ensures r.None? <==> individuals == []
    ensures r.Some? ==> r.value.company.logo == ""
    ensures r.Some? ==>
      var full := RealtorInfo.RealtorOf(individuals).value;
      r.value.agents == full.agents
      && r.value.company == full.company.(logo := "")
  {
    match RealtorInfo.RealtorOf(individuals)
    case None => None
    case Some(full) => Some(full.(company := full.company.(logo := "")))
  }

  /**
   * A decoded record as a listing, with `postal` the value extractPostalFromAddress
   * returned for its address. The province is left empty, and a record without
   * a city takes the second-to-last part of its address.
   */
  function ToRawListing(r: Record, postal: string, raw: string): (l: RawListing)
    ensures l.id == r.id && l.mls == r.mlsNumber && l.address == r.addressText && l.province == ""
    ensures l.city == (if r.city != "" then r.city else ApiHandler.ExtractCity(r.addressText))
    ensures l.postalCode == postal
    ensures l.price == ApiHandler.DigitsOf(r.price)
    ensures (l.beds, l.bedsPlus) == Canadesk.ParseBedrooms(r.bedrooms)
    ensures l.baths == Canadesk.IntString(r.bathroomTotal) && l.sqft == Canadesk.IntString(r.sizeInterior)
    ensures l.url == ApiHandler.RealtorBase + r.relativeUrl
    ensures l.description == r.publicRemarks && l.propertyType == r.propertyType
    ensures l.realtor == RealtorOf(r.individuals) && l.data == Some(raw)
  {
    var beds := Canadesk.ParseBedrooms(r.bedrooms);
    var listing := RawListing(r.id, r.mlsNumber, r.addressText, r.city, "",
      postal, ApiHandler.DigitsOf(r.price), beds.0, beds.1,
      Canadesk.IntString(r.bathroomTotal), Canadesk.IntString(r.sizeInterior), r.propertyType,
      ApiHandler.RealtorBase + r.relativeUrl, ApiHandler.BestPaths(ApiHandler.WithPath(r.photos)),
      r.publicRemarks, RealtorOf(r.individuals), Some(raw));
    if listing.city == "" then listing.(city := ApiHandler.ExtractCity(r.addressText)) else listing
  }

  /**
   * ParseListing: a record that does not decode is an error. The postal code
   * comes from extractPostalFromAddress as written, whose panic on a six-byte
   * last address part is the error here.
   */
  function ParseListing(decoded: Result<Record>, raw: string): (r: Result<RawListing>)
    ensures r.Err? <==> decoded.Err? || ApifyHelpers.ExtractPostalAsWritten(decoded.value.addressText).Err?
    ensures decoded.Err? ==> r == Err(decoded.msg)
    ensures r.Ok? ==> r.value == ToRawListing(decoded.value, ApifyHelpers.ExtractPostal(decoded.value.addressText), raw)
  {
    if decoded.Err? then Err(decoded.msg)
    else
      var postal := ApifyHelpers.ExtractPostalAsWritten(decoded.value.addressText);
      if postal.Err? then Err(postal.msg)
      else
        ApifyHelpers.ExtractPostalAgrees(decoded.value.addressText);
        Ok(ToRawListing(decoded.value, postal.value, raw))
  }

  /** A record whose address is a bare six-character code makes the adapter fail. */
  lemma ParseBarePostalFails(r: Record, raw: string)
    requires r.addressText == "N9A1B2"
    ensures ParseListing(Ok(r), raw).Err?
  {
    ApifyHelpers.ExtractPostalAsWrittenPanics();
  }

  /** The postal code of a parsed listing is empty or a six-character A1A1A1 code. */
  lemma ParsedPostalShape(decoded: Result<Record>, raw: string)
    ensures var r := ParseListing(decoded, raw);
      r.Ok? ==> r.value.postalCode == "" || (|r.value.postalCode| == 6 && ApifyHelpers.PostalShape(r.value.postalCode))
  {
    if decoded.Ok? {
      ApifyHelpers.ExtractPostalShape(decoded.value.addressText);
    }
  }
}
