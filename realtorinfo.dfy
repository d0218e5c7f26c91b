/**
 * The agent and brokerage block of a realtor.ca result, as the scraping
 * adapters read it (scraper/browser_handler.go, scraper/apify_canadesk.go,
 * scraper/apify_scrapemind.go). The three files carry their own copies of
 * the phone and realtor helpers; the copies agree line for line, so they are
 * modelled once here.
 */
module RealtorInfo {
  import opened Util
  import opened Models

  datatype Phone = Phone(phoneType: string, number: string, areaCode: string)

  datatype Organization = Organization(id: int, name: string, logo: string, addressText: string, phones: seq<Phone>)

  datatype Individual = Individual(id: int, name: string, photo: string, phones: seq<Phone>, organization: Organization)

  // ---------------------------------------------------------------------
  // formatPhone (formatPhoneSlice, formatScrapemindPhone)
  // ---------------------------------------------------------------------

  /** Both the area code and the number are present. */
  predicate Complete(p: Phone) { p.areaCode != "" && p.number != "" }

  /** A complete entry of type "Telephone": the kind the helpers look for first. */
  predicate IsTelephone(p: Phone) { p.phoneType == "Telephone" && Complete(p) }

  /** "AAA-NNN". */
  function Formatted(p: Phone): (r: string)
    ensures |r| == |p.areaCode| + 1 + |p.number|
  {
    p.areaCode + "-" + p.number
  }

  /** Index of the first complete Telephone entry, or |phones| when there is none. */
  function FirstTelephone(phones: seq<Phone>): (k: nat)
    ensures k <= |phones|
    ensures k < |phones| ==> IsTelephone(phones[k])
    ensures forall j :: 0 <= j < k ==> !IsTelephone(phones[j])
  {
    if phones == [] then 0
    else if IsTelephone(phones[0]) then 0
    else 1 + FirstTelephone(phones[1..])
  }

  /** The phone a realtor record shows: the first complete Telephone, else the first entry if complete, else "". */
  function PhoneOf(phones: seq<Phone>): string
  {
    var k := FirstTelephone(phones);
    if k < |phones| then Formatted(phones[k])
    else if |phones| > 0 && Complete(phones[0]) then Formatted(phones[0])
    else ""
  }

  /**
   * The shown phone always comes from a complete entry, and it is "" exactly
   * when there is no complete Telephone entry and the first entry (if any) is
   * incomplete; a complete Telephone entry always wins over the first entry.
   */
  lemma PhoneOfCases(phones: seq<Phone>)
    ensures PhoneOf(phones) == "" <==>
      (forall j :: 0 <= j < |phones| ==> !IsTelephone(phones[j])) && (phones == [] || !Complete(phones[0]))
    ensures PhoneOf(phones) != "" ==>
      exists j :: 0 <= j < |phones| && Complete(phones[j]) && PhoneOf(phones) == Formatted(phones[j])
    ensures (exists j :: 0 <= j < |phones| && IsTelephone(phones[j])) ==>
      exists j :: 0 <= j < |phones| && IsTelephone(phones[j]) && PhoneOf(phones) == Formatted(phones[j])
  {
    var k := FirstTelephone(phones);
    if k < |phones| {
      assert |Formatted(phones[k])| > 0;
    } else if |phones| > 0 && Complete(phones[0]) {
      assert |Formatted(phones[0])| > 0;
    }
  }

  /** The loop of formatPhone: the first complete Telephone returns at once; the first entry is the fallback. */
  method FormatPhone(phones: seq<Phone>) returns (r: string)
    ensures r == PhoneOf(phones)
  {
    var i := 0;
    while i < |phones|
      invariant 0 <= i <= |phones|
      invariant forall j :: 0 <= j < i ==> !IsTelephone(phones[j])
    {
      var p := phones[i];
      if p.phoneType == "Telephone" && p.areaCode != "" && p.number != "" {
        return p.areaCode + "-" + p.number;
      }
      i := i + 1;
    }
    if |phones| > 0 && phones[0].areaCode != "" && phones[0].number != "" {
      return phones[0].areaCode + "-" + phones[0].number;
    }
    return "";
  }

  // ---------------------------------------------------------------------
  // extractRealtor (extractCanadeskRealtor, extractScrapemindRealtor)
  // ---------------------------------------------------------------------

  function AgentOf(ind: Individual): RealtorAgent
  {
    RealtorAgent(ind.id, ind.name, PhoneOf(ind.phones), ind.photo)
  }

  function CompanyOf(org: Organization): RealtorCompany
  {
    RealtorCompany(org.id, org.name, PhoneOf(org.phones), org.addressText, org.logo)
  }

  /** The agents, one per individual, in order. */
  function AgentsOf(individuals: seq<Individual>): (r: seq<RealtorAgent>)
    ensures |r| == |individuals|
    ensures forall i :: 0 <= i < |r| ==> r[i] == AgentOf(individuals[i])
  {
    if individuals == [] then []
    else AgentsOf(individuals[..|individuals| - 1]) + [AgentOf(individuals[|individuals| - 1])]
  }

  /**
   * No individuals give no realtor; otherwise the company is the first
   * individual's organization and every individual is an agent, in order.
   */
  function RealtorOf(individuals: seq<Individual>): (r: Option<Realtor>)
    ensures r.None? <==> individuals == []
    ensures r.Some? ==>
      (r.value.company.id == individuals[0].organization.id
       && r.value.company.name == individuals[0].organization.name
       && r.value.company.phone == PhoneOf(individuals[0].organization.phones))
    ensures r.Some? ==>
      (|r.value.agents| == |individuals|
       && forall i :: 0 <= i < |individuals| ==>
         r.value.agents[i].id == individuals[i].id && r.value.agents[i].name == individuals[i].name
         && r.value.agents[i].phone == PhoneOf(individuals[i].phones))
  {
    if individuals == [] then None
    else Some(Realtor(CompanyOf(individuals[0].organization), AgentsOf(individuals)))
  }

  /** The realtor-building loop: the company from the first organization, then one agent per individual. */
  method ExtractRealtor(individuals: seq<Individual>) returns (r: Option<Realtor>)
    ensures r == RealtorOf(individuals)
  {
    if |individuals| == 0 {
      return None;
    }
    var org := individuals[0].organization;
    var companyPhone := FormatPhone(org.phones);
    var company := RealtorCompany(org.id, org.name, companyPhone, org.addressText, org.logo);
    var agents: seq<RealtorAgent> := [];
    var i := 0;
    while i < |individuals|
      invariant 0 <= i <= |individuals|
      invariant agents == AgentsOf(individuals[..i])
    {
      assert individuals[..i + 1][..i] == individuals[..i];
      var ind := individuals[i];
      var phone := FormatPhone(ind.phones);
      agents := agents + [RealtorAgent(ind.id, ind.name, phone, ind.photo)];
      i := i + 1;
    }
    assert individuals[..i] == individuals;
    return Some(Realtor(company, agents));
  }
}
