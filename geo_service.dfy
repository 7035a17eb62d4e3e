/** Geolocation of the back end: private prefixes are internal, every other
    address gets a country guessed from its first octet, and the country's table
    entry supplies its name and coordinates. */
module GeoService {
  import opened Wrappers
  import opened Seqs
  import opened Text
  import IpUtils

  datatype CountryInfo = CountryInfo(lat: real, lng: real, country: string)

  /** COUNTRY_COORDS, entry by entry in the order written. */
  const COUNTRY_COORDS: seq<(string, CountryInfo)> := [
    ("US", CountryInfo(37.0902, -95.7129, "United States")),
    ("CN", CountryInfo(35.8617, 104.1954, "China")),
    ("RU", CountryInfo(61.5240, 105.3188, "Russia")),
    ("DE", CountryInfo(51.1657, 10.4515, "Germany")),
    ("GB", CountryInfo(55.3781, -3.4360, "United Kingdom")),
    ("IN", CountryInfo(20.5937, 78.9629, "India")),
    ("BR", CountryInfo(-14.2350, -51.9253, "Brazil")),
    ("KP", CountryInfo(40.3399, 127.5101, "North Korea")),
    ("IR", CountryInfo(32.4279, 53.6880, "Iran")),
    ("FR", CountryInfo(46.2276, 2.2137, "France")),
    ("JP", CountryInfo(36.2048, 138.2529, "Japan")),
    ("CA", CountryInfo(56.1304, -106.3468, "Canada")),
    ("AU", CountryInfo(-25.2744, 133.7751, "Australia")),
    ("IT", CountryInfo(41.8719, 12.5674, "Italy")),
    ("ES", CountryInfo(40.4637, -3.7492, "Spain")),
    ("MX", CountryInfo(23.6345, -102.5528, "Mexico")),
    ("KR", CountryInfo(35.9078, 127.7669, "South Korea")),
    ("NL", CountryInfo(52.1326, 5.2913, "Netherlands")),
    ("SE", CountryInfo(60.1282, 18.6435, "Sweden")),
    ("PL", CountryInfo(51.9194, 19.1451, "Poland"))
  ]

  const US_INFO := CountryInfo(37.0902, -95.7129, "United States")

  /** The codes the first-octet heuristic can produce. */
  const GUESSED_CODES: seq<string> := ["US", "CN", "RU", "DE", "GB", "IN", "BR", "KP", "IR"]

  /** The first nine table entries are the guessable codes, so each of them is found. */
  lemma GuessedCodesInTable(code: string)
    requires code in GUESSED_CODES
    ensures Find(COUNTRY_COORDS, code).Some?
    ensures code == "US" ==> Find(COUNTRY_COORDS, code) == Some(US_INFO)
  {
    var k :| 0 <= k < |GUESSED_CODES| && GUESSED_CODES[k] == code;
    assert COUNTRY_COORDS[k].0 == code;
  }

  /** The first-octet bands of _guess_country_from_ip. */
  function Band(firstOctet: int): (code: string)
    ensures code in GUESSED_CODES
  {
    if 1 <= firstOctet <= 50 then "US"
    else if 51 <= firstOctet <= 80 then "CN"
    else if 81 <= firstOctet <= 100 then "RU"
    else if 101 <= firstOctet <= 120 then "DE"
    else if 121 <= firstOctet <= 140 then "GB"
    else if 141 <= firstOctet <= 160 then "IN"
    else if 161 <= firstOctet <= 180 then "BR"
    else if 181 <= firstOctet <= 200 then "KP"
    else if 201 <= firstOctet <= 220 then "IR"
    else "US"
  }

  /** The guessed country is hostile exactly for first octets 51-100 and 181-220. */
  lemma BandHostile(firstOctet: int)
    ensures Band(firstOctet) in IpUtils.HOSTILE_COUNTRIES <==>
      51 <= firstOctet <= 100 || 181 <= firstOctet <= 220
  {
  }

  /** _guess_country_from_ip: not four parts, or a first part that is not a
      number, gives "US"; otherwise the first octet's band. */
  function GuessCountryFromIp(ip: string): (code: string)
    ensures code in GUESSED_CODES
    ensures |Split(ip, ".")| != 4 ==> code == "US"
    ensures |Split(ip, ".")| == 4 && !IsDigitString(Split(ip, ".")[0]) ==> code == "US"
    ensures |Split(ip, ".")| == 4 && IsDigitString(Split(ip, ".")[0]) ==> code == Band(DigitsValue(Split(ip, ".")[0]))
  {
    var octets := Split(ip, ".");
    if |octets| != 4 then "US"
    else
      match ParseNat(octets[0])
      case None => "US"
      case Some(firstOctet) => Band(firstOctet)
  }

  const PRIVATE_PREFIXES: seq<string> := ["10.", "172.16.", "192.168.", "127."]

  /** `ip.startswith(("10.", "172.16.", "192.168.", "127."))`. */
  predicate HasPrivatePrefix(ip: string) {
    exists k :: 0 <= k < |PRIVATE_PREFIXES| && StartsWith(ip, PRIVATE_PREFIXES[k])
  }

  /** The dictionary lookup_ip returns. */
  datatype GeoInfo = GeoInfo(country: string, countryCode: string, coordinates: (real, real), zone: string, riskMultiplier: real)

  const INTERNAL_GEO := GeoInfo("Internal", "XX", (0.0, 0.0), "INTERNAL_ZONE", 1.0)

  /** lookup_ip: private prefixes give the internal record; any other address gets
      the guessed code, that code's own table entry, the zone for that code and the
      code's risk multiplier. `facts` is what the address library reports for ip. */
  function LookupIp(ip: string, facts: IpUtils.IpFacts): (g: GeoInfo)
    ensures HasPrivatePrefix(ip) ==> g == INTERNAL_GEO
    ensures !HasPrivatePrefix(ip) ==>
      var code := GuessCountryFromIp(ip);
      var info := Find(COUNTRY_COORDS, code);
      info.Some? && g.countryCode == code && g.country == info.value.country &&
      g.coordinates == (info.value.lat, info.value.lng) &&
      g.zone == IpUtils.ClassifySourceZone(facts, Some(code)) &&
      g.riskMultiplier == IpUtils.CountryRiskMultiplier(code)
    ensures g.riskMultiplier >= 1.0
  {
    if HasPrivatePrefix(ip) then INTERNAL_GEO
    else
      var code := GuessCountryFromIp(ip);
      GuessedCodesInTable(code);
      var info := LookupOr(COUNTRY_COORDS, code, US_INFO);
      GeoInfo(info.country, code, (info.lat, info.lng),
        IpUtils.ClassifySourceZone(facts, Some(code)), IpUtils.CountryRiskMultiplier(code))
  }

  /** get_country_coords: the code's coordinates, the United States' for an unknown code. */
  function GetCountryCoords(code: string): (c: (real, real))
    ensures Find(COUNTRY_COORDS, code).Some? ==>
      c == (Find(COUNTRY_COORDS, code).value.lat, Find(COUNTRY_COORDS, code).value.lng)
    ensures Find(COUNTRY_COORDS, code).None? ==> c == (US_INFO.lat, US_INFO.lng)
  {
    var info := LookupOr(COUNTRY_COORDS, code, US_INFO);
    (info.lat, info.lng)
  }

  /** get_country_name: the code's name, "Unknown" for an unlisted code. */
  function GetCountryName(code: string): (name: string)
    ensures Find(COUNTRY_COORDS, code).Some? ==> name == Find(COUNTRY_COORDS, code).value.country
    ensures Find(COUNTRY_COORDS, code).None? ==> name == "Unknown"
  {
    match Find(COUNTRY_COORDS, code)
    case Some(info) => info.country
    case None => "Unknown"
  }
}
