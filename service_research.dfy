/**
  The two fixed record builders of the automation script:
  `AWSDocumentationResearcher.research_service` and
  `AWSConsoleScreenshotter._get_service_console_url`, together with the
  lower-case, space-to-hyphen "slug" that every AWS URL in the project is
  built from.
 */
module ServiceResearch {
  import opened TextUtil

  // ================================================================
  // Slug: `name.lower().replace(" ", "-")`
  // ================================================================

  /** A service name as it appears in an AWS URL path. */
  function Slug(name: string): string {
    ReplaceAll(ToLower(name), " ", "-")
  }

  /** The slug has the name's length, no space and no capital letter, and
      agrees with the lower-case name everywhere except where that holds a
      space, which becomes a hyphen. */
  lemma SlugShape(name: string)
    ensures |Slug(name)| == |name|
    ensures ' ' !in Slug(name)
    ensures NoUpper(Slug(name))
    ensures forall i :: 0 <= i < |name| ==>
      Slug(name)[i] == (if name[i] == ' ' then '-' else Lower(name[i]))
  {
    var l := ToLower(name);
    ReplaceCharAt(l, ' ', '-');
    assert forall i :: 0 <= i < |name| ==> (l[i] == ' ' <==> name[i] == ' ');
    forall c | c in Slug(name) ensures c != ' ' {
      var i :| 0 <= i < |Slug(name)| && Slug(name)[i] == c;
    }
  }

  /** Two names that differ only in letter case share a slug, and the slug of
      a slug is itself. */
  lemma SlugNormalises(a: string, b: string)
    requires ToLower(a) == ToLower(b)
    ensures Slug(a) == Slug(b)
    ensures Slug(Slug(a)) == Slug(a)
  {
    var s := Slug(a);
    SlugShape(a);
    SlugShape(s);
    assert forall i :: 0 <= i < |s| ==> s[i] != ' ' && !IsUpper(s[i]);
    assert forall i :: 0 <= i < |s| ==> Slug(s)[i] == s[i];
  }

  // ================================================================
  // `_get_service_console_url`
  // ================================================================

  const AwsSite: string := "https://aws.amazon.com/"

  /** The five console pages the screenshotter knows, keyed by slug; each is
      a page of the AWS site, written here by its path below `AwsSite`. */
  const ConsolePaths: map<string, string> := map[
    "amazon-bedrock" := "bedrock",
    "aws-lambda" := "lambda",
    "amazon-s3" := "s3",
    "amazon-ec2" := "ec2",
    "amazon-rds" := "rds"
  ]

  /** The known page for the name's slug, or the AWS site page named by the slug. */
  function ConsoleUrl(name: string): string {
    var key := Slug(name);
    AwsSite + (if key in ConsolePaths then ConsolePaths[key] else key)
  }

  /** Every console URL is a page of the AWS site with no space in it; a known
      slug gives its fixed page and any other slug the page named by it. */
  lemma ConsoleUrlShape(name: string)
    ensures StartsWith(ConsoleUrl(name), AwsSite)
    ensures ' ' !in ConsoleUrl(name)
    ensures Slug(name) in ConsolePaths ==> ConsoleUrl(name)[|AwsSite|..] == ConsolePaths[Slug(name)]
    ensures Slug(name) !in ConsolePaths ==> ConsoleUrl(name)[|AwsSite|..] == Slug(name)
  {
    var key := Slug(name);
    SlugShape(name);
    var path := if key in ConsolePaths then ConsolePaths[key] else key;
    var r := ConsoleUrl(name);
    assert r[..|AwsSite|] == AwsSite && r[|AwsSite|..] == path;
    if key in ConsolePaths {
      ConsolePathsHaveNoSpace(key);
    }
    forall c | c in r ensures c != ' ' {
      var i :| 0 <= i < |r| && r[i] == c;
      if i >= |AwsSite| {
        assert r[i] == path[i - |AwsSite|];
      }
    }
  }

  lemma ConsolePathsHaveNoSpace(key: string)
    requires key in ConsolePaths
    ensures ' ' !in ConsolePaths[key]
  {
    assert key == "amazon-bedrock" || key == "aws-lambda" || key == "amazon-s3"
      || key == "amazon-ec2" || key == "amazon-rds";
  }

  /** The console URL ignores letter case. */
  lemma ConsoleUrlIgnoresCase(a: string, b: string)
    requires ToLower(a) == ToLower(b)
    ensures ConsoleUrl(a) == ConsoleUrl(b)
  {
    SlugNormalises(a, b);
  }

  /** Any name whose slug is "amazon-bedrock", such as "Amazon Bedrock", maps
      to the Bedrock page rather than to the default `.../amazon-bedrock`. */
  lemma ConsoleUrlBedrock(name: string)
    requires Slug(name) == "amazon-bedrock"
    ensures ConsoleUrl(name) == AwsSite + "bedrock"
    ensures ConsoleUrl(name) != AwsSite + Slug(name)
  {
    assert |ConsoleUrl(name)| != |AwsSite + Slug(name)|;
  }

  // ================================================================
  // `research_service`
  // ================================================================

  datatype CostInfo = CostInfo(pricingModel: string, freeTier: string, estimatedCost: string)

  datatype UsageExample = UsageExample(title: string, description: string, steps: seq<string>)

  /** The research record; the announcement description passed to
      `research_service` is not part of it. */
  datatype ResearchRecord = ResearchRecord(
    serviceName: string,
    overview: string,
    problemsSolved: seq<string>,
    benefits: seq<string>,
    costInfo: CostInfo,
    usageExamples: seq<UsageExample>,
    documentationUrls: seq<string>)

  const DocsSite: string := "https://docs.aws.amazon.com/"

  /** The "Basic Setup" walk-through, shared with the integrated research. */
  function BasicSetup(name: string): UsageExample {
    UsageExample(
      "Basic Setup",
      "Getting started with " + name,
      ["Sign in to AWS Console", "Navigate to " + name, "Create new resource",
       "Configure settings", "Deploy and test"])
  }

  /** The record `research_service` returns for `name`; `description` is ignored. */
  function ResearchService(name: string, description: string): ResearchRecord {
    ResearchRecord(
      name,
      name + " is an AWS service that provides cloud capabilities.",
      ["Reduces operational complexity",
       "Improves scalability and performance",
       "Enhances security and compliance"],
      ["Pay-as-you-go pricing",
       "Fully managed service",
       "Integration with other AWS services",
       "High availability and durability"],
      CostInfo("Pay per use", "Available for first 12 months", "Varies based on usage"),
      [BasicSetup(name)],
      [ServiceDocsUrl(name)])
  }

  /** The documentation directory of a service. */
  function ServiceDocsUrl(name: string): string {
    DocsSite + Slug(name) + "/"
  }

  /** The documentation directory lies on the docs site, is named by the
      slug, has no space and ignores the letter case of the name. */
  lemma ServiceDocsUrlShape(name: string, other: string)
    requires ToLower(other) == ToLower(name)
    ensures var url := ServiceDocsUrl(name);
      && StartsWith(url, DocsSite)
      && url[|DocsSite|..] == Slug(name) + "/"
      && ' ' !in url
      && url == ServiceDocsUrl(other)
  {
    var url := ServiceDocsUrl(name);
    SlugShape(name);
    SlugNormalises(name, other);
    assert url == DocsSite + (Slug(name) + "/");
    assert url[..|DocsSite|] == DocsSite;
    forall c | c in url ensures c != ' ' {
      var i :| 0 <= i < |url| && url[i] == c;
      if |DocsSite| <= i < |url| - 1 {
        assert url[i] == Slug(name)[i - |DocsSite|];
      }
    }
  }

  /** The record echoes the name, has three problems, four benefits, one
      five-step example that names the service, and one documentation URL,
      the service's documentation directory. */
  lemma ResearchServiceShape(name: string, description: string)
    ensures var r := ResearchService(name, description);
      && r.serviceName == name
      && |r.problemsSolved| == 3 && |r.benefits| == 4
      && |r.usageExamples| == 1 && |r.usageExamples[0].steps| == 5
      && r.usageExamples[0].steps[1] == "Navigate to " + name
      && r.documentationUrls == [ServiceDocsUrl(name)]
  {
  }

  /** The description passed in does not change the record. */
  lemma ResearchIgnoresDescription(name: string, d1: string, d2: string)
    ensures ResearchService(name, d1) == ResearchService(name, d2)
  {
  }
}
