/**
  `integrate_aws_research`: one documentation integration and one pricing
  integration, freshly made, combined into a single research record.
 */
module Integration {
  import opened TextUtil
  import opened ServiceResearch
  import opened Documentation
  import opened Pricing

  /** The dictionary `integrate_aws_research` returns. */
  datatype IntegratedResearch = IntegratedResearch(
    serviceName: string,
    description: string,
    overview: string,
    keyFeatures: seq<string>,
    useCases: seq<string>,
    problemsSolved: seq<string>,
    benefits: seq<string>,
    pricing: ComprehensivePricing,
    documentationUrls: seq<string>,
    recommendedTopics: seq<string>,
    usageExamples: seq<UsageExample>)

  /** The problems every integrated record lists. */
  const ProblemsSolved: seq<string> := [
    "Reduces operational complexity",
    "Improves scalability and performance",
    "Enhances security and compliance",
    "Accelerates development cycles"
  ]

  /** The "Production Deployment" walk-through. */
  function ProductionDeployment(name: string): UsageExample {
    UsageExample(
      "Production Deployment",
      "Deploy " + name + " in production",
      ["Set up VPC and networking", "Configure security groups",
       "Deploy resources with IaC", "Set up monitoring and alerts",
       "Implement backup strategy"])
  }

  /** The record built from the extracted information and the pricing record. */
  function Combine(name: string, description: string, info: ServiceInfo,
                   pricing: ComprehensivePricing): IntegratedResearch {
    IntegratedResearch(name, description, info.overview, info.keyFeatures, info.useCases,
      ProblemsSolved, info.keyFeatures, pricing, info.documentationUrls,
      info.recommendedTopics, [BasicSetup(name), ProductionDeployment(name)])
  }

  /** `integrate_aws_research(name, description)`, with `read` as the
      documentation reader. */
  method IntegrateAwsResearch(name: string, description: string, read: string -> string) returns (r: IntegratedResearch)
    ensures r == Combine(name, description, InfoFrom(name, SearchResultsFor(name), read, false), PricingFor(name))
  {
    var docs := new DocumentationIntegration();
    var pricing := new PricingIntegration();
    var info := docs.ExtractServiceInformation(name, read);
    var pricingInfo := pricing.GetComprehensivePricing(name);
    r := Combine(name, description, info, pricingInfo);
  }

  /** The integrated record echoes the name and description; its benefits
      are its key features; it lists four problems, the three user-guide
      pages, the three recommended topics, an overview that is never empty
      and one to five features and use cases; and pricing is available
      exactly when the name finds a service code. */
  lemma IntegratedShape(name: string, description: string, read: string -> string)
    ensures var r := Combine(name, description, InfoFrom(name, SearchResultsFor(name), read, false), PricingFor(name));
      && r.serviceName == name && r.description == description
      && r.benefits == r.keyFeatures
      && 1 <= |r.keyFeatures| <= MaxItems && 1 <= |r.useCases| <= MaxItems
      && |r.problemsSolved| == 4
      && r.overview != []
      && r.documentationUrls == ResultUrls(SearchResultsFor(name))
      && r.recommendedTopics == ["Best Practices", "Security", "Monitoring"]
      && (r.pricing.Available? <==> CodeFor(name).Some?)
      && r.pricing.serviceName == name
  {
    InfoShape(name, read, false);
    PricingForShape(name);
  }

  /** Whatever the documentation and pricing say, the record carries two
      five-step walk-throughs that name the service, the first of them the
      "Basic Setup" of the automation script's research record. */
  lemma IntegratedExamples(name: string, description: string, info: ServiceInfo,
                           pricing: ComprehensivePricing)
    ensures var examples := Combine(name, description, info, pricing).usageExamples;
      && |examples| == 2
      && (forall k :: 0 <= k < 2 ==> |examples[k].steps| == 5)
      && examples[0] == ResearchService(name, description).usageExamples[0]
      && examples[0].steps[1] == "Navigate to " + name
      && examples[1].description == "Deploy " + name + " in production"
  {
  }

  /** Every documentation URL of the integrated record lies in the service
      documentation directory the automation script's research record lists. */
  lemma IntegratedAgreesWithResearch(name: string, description: string, read: string -> string)
    ensures var urls := Combine(name, description, InfoFrom(name, SearchResultsFor(name), read, false),
                                PricingFor(name)).documentationUrls;
      forall k :: 0 <= k < |urls| ==>
        StartsWith(urls[k], ResearchService(name, description).documentationUrls[0])
  {
    InfoShape(name, read, false);
    SearchUrlsInDocsDir(name);
  }
}
