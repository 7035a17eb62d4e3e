/** Address helpers of the back end: address kind, source zone, per-country risk
    multiplier and masking. Parsing an address is the `ipaddress` library's work;
    its verdict on a string is an input here. */
module IpUtils {
  import opened Wrappers
  import opened Seqs
  import opened Text

  /** What `ipaddress.ip_address(ip)` reports: not an address (it raises), or an
      address with its loopback and private flags. */
  datatype IpFacts = NotAnAddress | Address(isLoopback: bool, isPrivate: bool)

  /** is_private_ip: the private flag, false for a string that is not an address. */
  function IsPrivateIp(f: IpFacts): (b: bool)
    ensures b <==> f.Address? && f.isPrivate
  {
    match f
    case NotAnAddress => false
    case Address(_, isPrivate) => isPrivate
  }

  /** is_valid_ip. */
  function IsValidIp(f: IpFacts): (b: bool)
    ensures b <==> !f.NotAnAddress?
  {
    f.Address?
  }

  /** get_ip_type: loopback is checked before private, so an address that is both
      reports "loopback". */
  function GetIpType(f: IpFacts): (t: string)
    ensures t == "invalid" <==> f.NotAnAddress?
    ensures t == "loopback" <==> f.Address? && f.isLoopback
    ensures t == "private" <==> f.Address? && !f.isLoopback && f.isPrivate
    ensures t == "public" <==> f.Address? && !f.isLoopback && !f.isPrivate
  {
    match f
    case NotAnAddress => "invalid"
    case Address(isLoopback, isPrivate) =>
      if isLoopback then "loopback" else if isPrivate then "private" else "public"
  }

  const HOSTILE_COUNTRIES: seq<string> := ["RU", "CN", "KP", "IR"]
  const TRUSTED_COUNTRIES: seq<string> := []

  /** classify_source_zone: private or loopback addresses are internal; otherwise a
      hostile country code makes the source hostile; everything else is external.
      The trusted list is empty, so the trusted zone never comes out. */
  function ClassifySourceZone(f: IpFacts, countryCode: Option<string>): (zone: string)
    ensures zone == "INTERNAL_ZONE" <==> f.Address? && (f.isLoopback || f.isPrivate)
    ensures zone == "HOSTILE_ZONE" <==>
      !(f.Address? && (f.isLoopback || f.isPrivate)) && countryCode.Some? && countryCode.value in HOSTILE_COUNTRIES
    ensures zone == "INTERNAL_ZONE" || zone == "HOSTILE_ZONE" || zone == "EXTERNAL_ZONE"
  {
    var ipType := GetIpType(f);
    if ipType == "private" || ipType == "loopback" then "INTERNAL_ZONE"
    else if countryCode.Some? && countryCode.value != "" then
      if countryCode.value in HOSTILE_COUNTRIES then "HOSTILE_ZONE"
      else if countryCode.value in TRUSTED_COUNTRIES then "TRUSTED_ZONE"
      else "EXTERNAL_ZONE"
    else "EXTERNAL_ZONE"
  }

  const COUNTRY_RISK_MULTIPLIERS: seq<(string, real)> :=
    [("RU", 1.5), ("CN", 1.4), ("KP", 1.8), ("IR", 1.3), ("US", 1.0), ("default", 1.0)]

  /** get_country_risk_multiplier: hostile countries weigh more, every other code 1.0. */
  function CountryRiskMultiplier(code: string): (m: real)
    ensures m >= 1.0
    ensures code !in HOSTILE_COUNTRIES ==> m == 1.0
    ensures code == "RU" ==> m == 1.5
    ensures code == "CN" ==> m == 1.4
    ensures code == "KP" ==> m == 1.8
    ensures code == "IR" ==> m == 1.3
  {
    LookupOr(COUNTRY_RISK_MULTIPLIERS, code, 1.0)
  }

  const MASKED_FALLBACK := "***.***.***.*"

  /** mask_ip: with four dot-separated parts, the first keepOctets parts are kept
      (Python slice, so a negative count drops parts from the end) and the rest of
      four become "*"; any other input gives the fixed mask. */
  function MaskIp(ip: string, keepOctets: int): (r: string)
    ensures |Split(ip, ".")| != 4 ==> r == MASKED_FALLBACK
  {
    var parts := Split(ip, ".");
    if |parts| == 4 then
      Join(PyPrefix(parts, keepOctets) + Repeat("*", if keepOctets < 4 then 4 - keepOctets else 0), ".")
    else MASKED_FALLBACK
  }

  /** Masking keeps four parts: the first k of the address, then 4 - k stars. */
  lemma MaskIpParts(ip: string, k: nat)
    requires |Split(ip, ".")| == 4 && k <= 4
    ensures Split(MaskIp(ip, k), ".") == Split(ip, ".")[..k] + Repeat("*", 4 - k)
  {
    var parts := Split(ip, ".");
    var masked := parts[..k] + Repeat("*", 4 - k);
    assert PyPrefix(parts, k) == parts[..k];
    forall j | 0 <= j < |masked|
      ensures '.' !in masked[j]
    {
      if j < k {
        assert masked[j] == parts[j];
        ContainsCharIn(parts[j], '.');
      } else {
        assert masked[j] == "*";
      }
    }
    SplitJoin(masked, '.');
  }
}
