/**
  `AWSPricingIntegration`: the service-code catalogue with its cache, the
  case-insensitive filter over it, the mapping from a service name to a
  code, and the pricing record assembled for a service.

  Like the documentation search, the pricing service is never called: each
  call is a placeholder that builds a fixed answer, modelled as written.
 */
module Pricing {
  import opened Wrappers
  import opened TextUtil

  // ================================================================
  // Service codes and the filter
  // ================================================================

  /** The eight codes the placeholder catalogue holds, in its order. */
  const ServiceCodes: seq<string> := [
    "AmazonBedrock", "AWSLambda", "AmazonS3", "AmazonEC2",
    "AmazonRDS", "AmazonEKS", "AmazonDynamoDB", "AmazonSageMaker"
  ]

  /** `pattern.lower() in code.lower()`. */
  predicate Matches(code: string, pattern: string) {
    Contains(ToLower(code), ToLower(pattern))
  }

  /** `[s for s in codes if pattern.lower() in s.lower()]`. */
  function Matching(codes: seq<string>, pattern: string): (r: seq<string>)
    ensures |r| <= |codes|
  {
    if codes == [] then []
    else (if Matches(codes[0], pattern) then [codes[0]] else []) + Matching(codes[1..], pattern)
  }

  /** A code is kept exactly when it matches the pattern. */
  lemma {:induction false} MatchingMembers(codes: seq<string>, pattern: string)
    ensures forall c :: c in Matching(codes, pattern) <==> c in codes && Matches(c, pattern)
  {
    if codes != [] {
      MatchingMembers(codes[1..], pattern);
      assert codes == [codes[0]] + codes[1..];
    }
  }

  /** The filter keeps the catalogue order: its first code is the first code
      of `codes` that matches, and there is none when nothing matches. */
  lemma {:induction false} MatchingFirst(codes: seq<string>, pattern: string)
    ensures Matching(codes, pattern) == [] <==> forall i :: 0 <= i < |codes| ==> !Matches(codes[i], pattern)
    ensures Matching(codes, pattern) != [] ==>
      exists i :: 0 <= i < |codes| && Matching(codes, pattern)[0] == codes[i]
        && Matches(codes[i], pattern) && forall j :: 0 <= j < i ==> !Matches(codes[j], pattern)
  {
    if codes != [] {
      MatchingFirst(codes[1..], pattern);
      if !Matches(codes[0], pattern) && Matching(codes[1..], pattern) != [] {
        var i :| 0 <= i < |codes[1..]| && Matching(codes[1..], pattern)[0] == codes[1..][i]
          && Matches(codes[1..][i], pattern) && forall j :: 0 <= j < i ==> !Matches(codes[1..][j], pattern);
        assert forall j :: 1 <= j <= i ==> codes[j] == codes[1..][j - 1];
      }
      if Matching(codes, pattern) == [] {
        assert forall i :: 1 <= i < |codes| ==> codes[i] == codes[1..][i - 1];
      }
    }
  }

  /** The empty pattern occurs in every code, so filtering by it changes nothing. */
  lemma {:induction false} MatchingEmpty(codes: seq<string>)
    ensures Matching(codes, "") == codes
  {
    if codes != [] {
      assert ToLower("") == "";
      assert Matches(codes[0], "");
      MatchingEmpty(codes[1..]);
      assert codes == [codes[0]] + codes[1..];
    }
  }

  /** What `get_service_codes(filter)` returns once the catalogue is cached:
      a missing or empty filter gives the whole of `cached`. */
  function Filtered(cached: seq<string>, filter: Option<string>): seq<string> {
    if filter.Some? && filter.value != [] then Matching(cached, filter.value) else cached
  }

  /** A code of the catalogue is returned exactly when there is no filter or
      it matches the filter; an empty filter behaves as no filter. */
  lemma FilteredMembers(filter: Option<string>)
    ensures forall c :: c in Filtered(ServiceCodes, filter) <==>
      c in ServiceCodes && (filter.None? || Matches(c, filter.value))
  {
    if filter.Some? {
      MatchingMembers(ServiceCodes, filter.value);
      if filter.value == [] {
        MatchingEmpty(ServiceCodes);
      }
    }
  }

  // ================================================================
  // From a service name to a code
  // ================================================================

  /** `name.replace('Amazon ', '').replace('AWS ', '').replace(' ', '')`. */
  function CleanName(name: string): string {
    ReplaceAll(ReplaceAll(ReplaceAll(name, "Amazon ", ""), "AWS ", ""), " ", "")
  }

  /** The cleaned name has no space left and is no longer than the name. */
  lemma CleanNameShape(name: string)
    ensures ' ' !in CleanName(name)
    ensures |CleanName(name)| <= |name|
  {
    var a := ReplaceAll(name, "Amazon ", "");
    var b := ReplaceAll(a, "AWS ", "");
    ReplaceNothingShrinks(name, "Amazon ");
    ReplaceNothingShrinks(a, "AWS ");
    ReplaceCharByNothing(b, ' ');
  }

  lemma {:induction false} ReplaceNothingShrinks(s: string, pat: string)
    requires pat != []
    ensures |ReplaceAll(s, pat, "")| <= |s|
    decreases |s|
  {
    if |s| >= |pat| {
      if s[..|pat|] == pat {
        ReplaceNothingShrinks(s[|pat|..], pat);
      } else {
        ReplaceNothingShrinks(s[1..], pat);
      }
    }
  }

  /** The code `find_service_code(name)` finds: the first code the cleaned
      name filters out of the catalogue. */
  function CodeFor(name: string): Option<string> {
    var codes := Filtered(ServiceCodes, Some(CleanName(name)));
    if codes == [] then None else Some(codes[0])
  }

  /** A code is found exactly when the cleaned name is empty or occurs,
      ignoring case, in some code of the catalogue; the code found is the
      first such code in catalogue order. */
  lemma CodeForMeaning(name: string)
    ensures CodeFor(name).Some? <==>
      CleanName(name) == [] || exists c :: c in ServiceCodes && Matches(c, CleanName(name))
    ensures CodeFor(name).Some? ==>
      exists i :: 0 <= i < |ServiceCodes| && CodeFor(name).value == ServiceCodes[i]
        && (CleanName(name) == [] || Matches(ServiceCodes[i], CleanName(name)))
        && (CleanName(name) != [] ==> forall j :: 0 <= j < i ==> !Matches(ServiceCodes[j], CleanName(name)))
  {
    var clean := CleanName(name);
    if clean == [] {
      assert CodeFor(name).value == ServiceCodes[0];
    } else {
      MatchingFirst(ServiceCodes, clean);
      MatchingMembers(ServiceCodes, clean);
    }
  }

  /** A name that cleans to nothing, such as "Amazon " or "AWS ", is not
      filtered at all and gets the first code of the catalogue. */
  lemma CodeForBlankName(name: string)
    requires CleanName(name) == []
    ensures CodeFor(name) == Some("AmazonBedrock")
  {
  }

  /** A pattern whose first character is missing from `s` is never replaced. */
  lemma {:induction false} ReplaceAbsent(s: string, pat: string, rep: string)
    requires pat != [] && pat[0] !in s
    ensures ReplaceAll(s, pat, rep) == s
    decreases |s|
  {
    if |s| >= |pat| {
      assert s[..|pat|][0] == s[0] != pat[0];
      ReplaceAbsent(s[1..], pat, rep);
      assert s == [s[0]] + s[1..];
    }
  }

  lemma CleanBedrock()
    ensures CleanName("Amazon Bedrock") == "Bedrock"
  {
    var name := "Amazon Bedrock";
    assert name[..7] == "Amazon " && name[7..] == "Bedrock";
    ReplaceAbsent("Bedrock", "Amazon ", "");
    assert ReplaceAll(name, "Amazon ", "") == "Bedrock";
    assert 'A' !in "Bedrock" && ' ' !in "Bedrock";
    ReplaceAbsent("Bedrock", "AWS ", "");
    ReplaceAbsent("Bedrock", " ", "");
  }

  lemma MatchesBedrock()
    ensures Matches("AmazonBedrock", "Bedrock")
  {
    assert ToLower("Bedrock") == "bedrock";
    assert ToLower("AmazonBedrock") == "amazonbedrock";
    assert OccursAt("amazonbedrock", "bedrock", 6);
    ContainsIffOccurs("amazonbedrock", "bedrock");
  }

  lemma MatchingHead(codes: seq<string>, pattern: string)
    requires codes != [] && Matches(codes[0], pattern)
    ensures Matching(codes, pattern) != [] && Matching(codes, pattern)[0] == codes[0]
  {
  }

  /** "Amazon Bedrock" cleans to "Bedrock", which the first code holds. */
  lemma CodeForBedrock()
    ensures CodeFor("Amazon Bedrock") == Some("AmazonBedrock")
  {
    CleanBedrock();
    MatchesBedrock();
    MatchingHead(ServiceCodes, "Bedrock");
  }

  /** Names whose cleaned forms differ only in letter case get the same code. */
  lemma CodeForIgnoresCase(a: string, b: string)
    requires ToLower(CleanName(a)) == ToLower(CleanName(b))
    ensures CodeFor(a) == CodeFor(b)
  {
    assert |CleanName(a)| == |ToLower(CleanName(a))| == |CleanName(b)|;
    assert forall c :: Matches(c, CleanName(a)) == Matches(c, CleanName(b));
    MatchingSame(ServiceCodes, CleanName(a), CleanName(b));
  }

  lemma {:induction false} MatchingSame(codes: seq<string>, p: string, q: string)
    requires forall c :: Matches(c, p) == Matches(c, q)
    ensures Matching(codes, p) == Matching(codes, q)
  {
    if codes != [] {
      MatchingSame(codes[1..], p, q);
    }
  }

  // ================================================================
  // Pricing records
  // ================================================================

  const DefaultRegion: string := "us-east-1"

  const NotAvailable: string := "Pricing information not available"

  datatype PricingDetails = PricingDetails(compute: string, storage: string, dataTransfer: string)

  /** The dictionary `get_pricing_info` returns. */
  datatype PricingInfo = PricingInfo(
    serviceCode: string,
    region: string,
    pricingModel: string,
    freeTier: string,
    estimatedMonthlyCost: string,
    pricingDetails: PricingDetails)

  /** `get_pricing_info(code, region)`: fixed terms for any code and region. */
  function GetPricingInfo(code: string, region: string): PricingInfo {
    PricingInfo(code, region, "Pay-as-you-go", "Available for first 12 months",
      "$10-$1000+ depending on usage",
      PricingDetails("$0.10 per hour", "$0.023 per GB-month", "$0.09 per GB (first 10 TB)"))
  }

  /** The placeholder terms echo the code and region and are otherwise the
      same for every service and region. */
  lemma PricingInfoFixed(c1: string, r1: string, c2: string, r2: string)
    ensures GetPricingInfo(c1, r1).serviceCode == c1 && GetPricingInfo(c1, r1).region == r1
    ensures GetPricingInfo(c1, r1).(serviceCode := c2, region := r2) == GetPricingInfo(c2, r2)
  {
  }

  /** `get_service_pricing_attributes(code)`: four dimensions for any code. */
  function PricingAttributes(code: string): seq<string> {
    ["location", "instanceType", "operatingSystem", "tenancy"]
  }

  /** The dictionary `get_comprehensive_pricing` returns; its
      `pricing_available` flag is the constructor. */
  datatype ComprehensivePricing =
    | Unavailable(serviceName: string, message: string)
    | Available(
        serviceName: string,
        serviceCode: string,
        pricingModel: string,
        freeTier: string,
        estimatedCost: string,
        pricingDetails: PricingDetails,
        pricingDimensions: seq<string>)

  /** The pricing record for a service, from the code its name finds. */
  function PricingFor(name: string): ComprehensivePricing {
    match CodeFor(name)
    case None => Unavailable(name, NotAvailable)
    case Some(code) =>
      if code == [] then Unavailable(name, NotAvailable)
      else
        var info := GetPricingInfo(code, DefaultRegion);
        Available(name, code, info.pricingModel, info.freeTier, info.estimatedMonthlyCost,
          info.pricingDetails, PricingAttributes(code))
  }

  /** Pricing is available exactly when a code is found; then the record
      names that catalogue code, carries the default region's terms and the
      four fixed dimensions, and otherwise it carries the fixed message. */
  lemma PricingForShape(name: string)
    ensures PricingFor(name).serviceName == name
    ensures PricingFor(name).Available? <==> CodeFor(name).Some?
    ensures PricingFor(name).Available? ==>
      && PricingFor(name).serviceCode == CodeFor(name).value
      && PricingFor(name).serviceCode in ServiceCodes
      && PricingFor(name).pricingModel == GetPricingInfo(CodeFor(name).value, DefaultRegion).pricingModel
      && PricingFor(name).freeTier == GetPricingInfo(CodeFor(name).value, DefaultRegion).freeTier
      && PricingFor(name).estimatedCost == GetPricingInfo(CodeFor(name).value, DefaultRegion).estimatedMonthlyCost
      && PricingFor(name).pricingDetails == GetPricingInfo(CodeFor(name).value, DefaultRegion).pricingDetails
      && PricingFor(name).pricingDimensions == ["location", "instanceType", "operatingSystem", "tenancy"]
    ensures PricingFor(name).Unavailable? ==> PricingFor(name).message == NotAvailable
  {
    if CodeFor(name).Some? {
      CodeForMeaning(name);
      var i :| 0 <= i < |ServiceCodes| && CodeFor(name).value == ServiceCodes[i];
      assert ServiceCodes[i] != [];
    }
  }

  // ================================================================
  // `AWSPricingIntegration`
  // ================================================================

  class PricingIntegration {
    var serviceCodesCache: Option<seq<string>>

    /** The cache is empty or holds the catalogue, as the source only ever
        leaves it. */
    ghost predicate Valid()
      reads this
    {
      serviceCodesCache == None || serviceCodesCache == Some(ServiceCodes)
    }

    constructor ()
      ensures serviceCodesCache == None && Valid()
    {
      serviceCodesCache := None;
    }

    /** `get_service_codes(filter)`: an empty or missing cache is filled with
        the catalogue, which is then filtered when a non-empty filter is given. */
    method GetServiceCodes(filter: Option<string>) returns (codes: seq<string>)
      modifies this
      ensures old(serviceCodesCache) == None || old(serviceCodesCache) == Some([]) ==>
        serviceCodesCache == Some(ServiceCodes)
      ensures old(serviceCodesCache).Some? && old(serviceCodesCache).value != [] ==>
        serviceCodesCache == old(serviceCodesCache)
      ensures old(Valid()) ==> Valid() && codes == Filtered(ServiceCodes, filter)
      ensures serviceCodesCache.Some? && codes == Filtered(serviceCodesCache.value, filter)
    {
      if serviceCodesCache.None? || serviceCodesCache.value == [] {
        serviceCodesCache := Some(ServiceCodes);
      }
      var cached := serviceCodesCache.value;
      if filter.Some? && filter.value != [] {
        codes := Matching(cached, filter.value);
      } else {
        codes := cached;
      }
    }

    /** `find_service_code(name)`: the first code the cleaned name filters
        out of the catalogue. */
    method FindServiceCode(name: string) returns (code: Option<string>)
      requires Valid()
      modifies this
      ensures serviceCodesCache == Some(ServiceCodes)
      ensures code == CodeFor(name)
    {
      var clean := name;
      clean := ReplaceAll(clean, "Amazon ", "");
      clean := ReplaceAll(clean, "AWS ", "");
      clean := ReplaceAll(clean, " ", "");
      var codes := GetServiceCodes(Some(clean));
      if codes != [] {
        code := Some(codes[0]);
      } else {
        code := None;
      }
    }

    /** `get_comprehensive_pricing(name)`. */
    method GetComprehensivePricing(name: string) returns (pricing: ComprehensivePricing)
      requires Valid()
      modifies this
      ensures serviceCodesCache == Some(ServiceCodes)
      ensures pricing == PricingFor(name)
    {
      var code := FindServiceCode(name);
      if code.None? || code.value == [] {
        return Unavailable(name, NotAvailable);
      }
      var info := GetPricingInfo(code.value, DefaultRegion);
      var attributes := PricingAttributes(code.value);
      pricing := Available(name, code.value, info.pricingModel, info.freeTier,
        info.estimatedMonthlyCost, info.pricingDetails, attributes);
    }
  }
}
