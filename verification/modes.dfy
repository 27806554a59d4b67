/**
 Encapsulation modes of an IP pool and the decoders that turn the configured
 mode strings into them (calico/resource_ippool.go, getIPIPMode and getVXLANMode).
 */
module Modes {

  /** The tunnelling strategy of a pool: always, only across subnets, or never. */
  datatype Mode = Always | CrossSubnet | Never

  /** The spelling of each mode in the configuration and in the pool API. */
  function ModeName(m: Mode): string
  {
    match m
    case Always => "Always"
    case CrossSubnet => "CrossSubnet"
    case Never => "Never"
  }

  /** The strings the configuration schema accepts for either mode field. */
  const ValidModeNames: set<string> := {"Always", "CrossSubnet", "Never"}

  /**
   Decodes the IP-in-IP mode. The two named non-default modes decode to
   themselves; every other string, valid or not, silently becomes `Never`.
   */
  function GetIPIPMode(mode: string): (m: Mode)
    ensures mode in ValidModeNames ==> ModeName(m) == mode
    ensures mode !in ValidModeNames ==> m == Never
    ensures m != Never ==> ModeName(m) == mode
  {
    match mode
    case "Always" => Always
    case "CrossSubnet" => CrossSubnet
    case _ => Never
  }

  /** Decodes the VXLAN mode, with the same fallback to `Never` as `GetIPIPMode`. */
  function GetVXLANMode(mode: string): (m: Mode)
    ensures mode in ValidModeNames ==> ModeName(m) == mode
    ensures mode !in ValidModeNames ==> m == Never
    ensures m != Never ==> ModeName(m) == mode
  {
    match mode
    case "Always" => Always
    case "CrossSubnet" => CrossSubnet
    case _ => Never
  }

  /** Every mode is spelled by a string the schema accepts, and no two modes share a spelling. */
  lemma ModeNamesValidAndDistinct(m: Mode, m': Mode)
    ensures ModeName(m) in ValidModeNames
    ensures ModeName(m) == ModeName(m') ==> m == m'
  {
  }

  /** The IP-in-IP decoder, case by case: exactly the two named strings escape the fallback. */
  lemma IPIPModeCases(mode: string)
    ensures GetIPIPMode(mode) == Always <==> mode == "Always"
    ensures GetIPIPMode(mode) == CrossSubnet <==> mode == "CrossSubnet"
    ensures GetIPIPMode(mode) == Never <==> mode != "Always" && mode != "CrossSubnet"
  {
  }

  /** Both decoders agree on every input, so the VXLAN decoder has the same three cases. */
  lemma VXLANModeLikeIPIPMode(mode: string)
    ensures GetVXLANMode(mode) == GetIPIPMode(mode)
  {
  }

  /** Decoding inverts spelling: a mode's name decodes back to that mode under both decoders. */
  lemma DecodeModeName(m: Mode)
    ensures GetIPIPMode(ModeName(m)) == m
    ensures GetVXLANMode(ModeName(m)) == m
  {
  }

  /** On accepted strings spelling inverts decoding; elsewhere decoding loses the input. */
  lemma NameOfDecodedMode(mode: string)
    ensures ModeName(GetIPIPMode(mode)) == mode <==> mode in ValidModeNames
    ensures ModeName(GetVXLANMode(mode)) == mode <==> mode in ValidModeNames
  {
  }
}
