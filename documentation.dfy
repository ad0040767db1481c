/**
  `AWSDocumentationIntegration`: the documentation search with its
  read-through cache, the recommendations, the fixed documentation page, the
  three markdown scanners (`_extract_overview`, `_extract_features`,
  `_extract_use_cases`) and `extract_service_information`.

  The documentation service itself is not called by the source (every call
  is a placeholder that builds its answer locally), so the placeholders are
  modelled as they are written.  Their longer texts are written as
  concatenations of shorter literals: the value is the same, and the verifier
  handles short literals far more cheaply than long ones.
 */
module Documentation {
  import opened Wrappers
  import opened TextUtil
  import opened ServiceResearch

  datatype SearchResult = SearchResult(title: string, url: string, context: string)

  // ================================================================
  // Search results and recommendations
  // ================================================================

  /** A page of a service's user guide. */
  function GuidePage(name: string, page: string): string {
    ServiceDocsUrl(name) + "latest/userguide/" + page
  }

  /** The three results the placeholder search builds for `name`. */
  function SearchResultsFor(name: string): seq<SearchResult> {
    [
      SearchResult(name + " - What Is " + name + "?", GuidePage(name, "what-is.html"),
        "Learn about " + name + " and its key features."),
      SearchResult(name + " - Getting Started", GuidePage(name, "getting-started.html"),
        "Get started with " + name + " in minutes."),
      SearchResult(name + " - Pricing", GuidePage(name, "pricing.html"),
        "Understand pricing for " + name + ".")
    ]
  }

  /** `[r['url'] for r in results]`. */
  function ResultUrls(results: seq<SearchResult>): (urls: seq<string>)
    ensures |urls| == |results|
    ensures forall i :: 0 <= i < |results| ==> urls[i] == results[i].url
  {
    seq(|results|, i requires 0 <= i < |results| => results[i].url)
  }

  /** `[r['title'] for r in results]`. */
  function ResultTitles(results: seq<SearchResult>): (titles: seq<string>)
    ensures |titles| == |results|
    ensures forall i :: 0 <= i < |results| ==> titles[i] == results[i].title
  {
    seq(|results|, i requires 0 <= i < |results| => results[i].title)
  }

  /** The results' URLs depend on the name only through its lower-case form. */
  lemma SearchUrlsIgnoreCase(a: string, b: string)
    requires ToLower(a) == ToLower(b)
    ensures ResultUrls(SearchResultsFor(a)) == ResultUrls(SearchResultsFor(b))
  {
    SlugNormalises(a, b);
  }

  /** Three results, each titled by the name as given and pointing into the
      service's user guide, at three different pages. */
  lemma SearchResultsShape(name: string)
    ensures var rs := SearchResultsFor(name);
      && |rs| == 3
      && (forall k :: 0 <= k < 3 ==> StartsWith(rs[k].title, name))
      && (forall k :: 0 <= k < 3 ==> StartsWith(rs[k].url, ServiceDocsUrl(name) + "latest/userguide/"))
      && rs[0].url != rs[1].url && rs[1].url != rs[2].url && rs[0].url != rs[2].url
  {
    var rs := SearchResultsFor(name);
    var guide := ServiceDocsUrl(name) + "latest/userguide/";
    forall k | 0 <= k < 3
      ensures StartsWith(rs[k].title, name) && StartsWith(rs[k].url, guide)
    {
      assert rs[k].url[..|guide|] == guide;
      assert rs[k].title[..|name|] == name;
    }
    assert rs[0].url[|guide|..] == "what-is.html";
    assert rs[1].url[|guide|..] == "getting-started.html";
    assert rs[2].url[|guide|..] == "pricing.html";
  }

  /** Every result lies in the service's documentation directory. */
  lemma SearchUrlsInDocsDir(name: string)
    ensures forall k :: 0 <= k < 3 ==> StartsWith(ResultUrls(SearchResultsFor(name))[k], ServiceDocsUrl(name))
  {
    var dir := ServiceDocsUrl(name);
    var guide := dir + "latest/userguide/";
    SearchResultsShape(name);
    forall k | 0 <= k < 3 ensures StartsWith(ResultUrls(SearchResultsFor(name))[k], dir) {
      var u := SearchResultsFor(name)[k].url;
      assert u[..|dir|] == guide[..|dir|] == dir;
    }
  }

  /** `get_service_recommendations(url)`: three fixed topics below `url`. */
  function GetServiceRecommendations(url: string): seq<SearchResult> {
    [
      SearchResult("Best Practices", url + "/best-practices",
        "Learn best practices " + "for using this service"),
      SearchResult("Security", url + "/security",
        "Security guidelines " + "and recommendations"),
      SearchResult("Monitoring", url + "/monitoring",
        "How to monitor " + "your resources")
    ]
  }

  /** The recommendations are three distinct pages below `url`, titled
      "Best Practices", "Security" and "Monitoring" in that order. */
  lemma RecommendationsShape(url: string)
    ensures var rs := GetServiceRecommendations(url);
      && ResultTitles(rs) == ["Best Practices", "Security", "Monitoring"]
      && ResultUrls(rs) == [url + "/best-practices", url + "/security", url + "/monitoring"]
      && (forall k :: 0 <= k < 3 ==> StartsWith(rs[k].url, url + "/"))
      && rs[0].url != rs[1].url && rs[1].url != rs[2].url && rs[0].url != rs[2].url
  {
    var rs := GetServiceRecommendations(url);
    var dir := url + "/";
    forall k | 0 <= k < 3 ensures StartsWith(rs[k].url, dir) {
      assert rs[k].url[..|dir|] == dir;
    }
    assert |rs[0].url| != |rs[1].url| && |rs[1].url| != |rs[2].url| && |rs[0].url| != |rs[2].url|;
  }

  // ================================================================
  // The documentation page the placeholder reader returns
  // ================================================================

  /** The lines of the page `read_documentation_page` returns, whatever the
      URL: an introduction and three sections.  The text starts and ends
      with a line feed, hence the empty first and last lines. */
  function DocumentationPageLines(): (lines: seq<string>)
    ensures |lines| == 23
  {
    PageIntro() + PageKeyFeatures() + PageUseCases() + PageGettingStarted()
  }

  /** A markdown list item: "- " followed by its text. */
  function Bullet(text: string): string {
    "- " + text
  }

  function PageIntro(): (lines: seq<string>)
    ensures |lines| == 6
  {
    [
      "",
      "# AWS Service Documentation",
      "",
      "This is documentation " + "content for the service. " + "In production, " + "this would be the",
      "actual content fetched " + "from AWS documentation.",
      ""
    ]
  }

  function PageKeyFeatures(): (lines: seq<string>)
    ensures |lines| == 5
  {
    [
      "## Key Features",
      Bullet(Feature1()),
      Bullet(Feature2()),
      Bullet(Feature3()),
      ""
    ]
  }

  function Feature1(): string { "Feature 1: High " + "performance and scalability" }
  function Feature2(): string { "Feature 2: Fully " + "managed service" }
  function Feature3(): string { "Feature 3: Integration " + "with other AWS services" }

  function PageUseCases(): (lines: seq<string>)
    ensures |lines| == 5
  {
    [
      "## Use Cases",
      Bullet(UseCase1()),
      Bullet(UseCase2()),
      Bullet(UseCase3()),
      ""
    ]
  }

  function UseCase1(): string { "Use case 1: Real-time " + "data processing" }
  function UseCase2(): string { "Use case 2: Machine " + "learning applications" }
  function UseCase3(): string { "Use case 3: Content delivery" }

  function PageGettingStarted(): (lines: seq<string>)
    ensures |lines| == 7
  {
    [
      "## Getting Started",
      "1. Sign in to the " + "AWS Console",
      "2. Navigate to the service",
      "3. Create a new resource",
      "4. Configure your settings",
      "5. Deploy and test",
      ""
    ]
  }

  /** `read_documentation_page(url)`: the same page for every URL. */
  function ReadDocumentationPage(url: string): string {
    JoinLines(DocumentationPageLines())
  }

  // ================================================================
  // `_extract_overview`
  // ================================================================

  const DefaultOverview: string := "AWS managed service " + "providing cloud capabilities."

  predicate IsHeading(line: string) {
    StartsWith(line, "#")
  }

  /** A line whose `strip()` is empty (falsy in Python). */
  predicate IsBlank(line: string) {
    Strip(line) == []
  }

  /** Index of the first line in `lines[j..end]` that is neither blank nor a
      heading. */
  function ParagraphAfter(lines: seq<string>, j: nat, end: nat): (r: Option<nat>)
    requires j <= end <= |lines|
    ensures r.Some? ==> j <= r.value < end
    decreases end - j
  {
    if j == end then None
    else if !IsBlank(lines[j]) && !IsHeading(lines[j]) then Some(j)
    else ParagraphAfter(lines, j + 1, end)
  }

  /** The overview found from heading index `i` on. */
  function OverviewFrom(lines: seq<string>, i: nat): string
    requires i <= |lines|
    decreases |lines| - i
  {
    if i == |lines| then DefaultOverview
    else if IsHeading(lines[i]) && i + 1 < |lines| then
      match ParagraphAfter(lines, i + 1, Min(i + 5, |lines|))
      case Some(j) => Strip(lines[j])
      case None => OverviewFrom(lines, i + 1)
    else OverviewFrom(lines, i + 1)
  }

  /** What `_extract_overview(content)` returns. */
  function Overview(content: string): string {
    OverviewFrom(SplitLines(content), 0)
  }

  /** `_extract_overview`: for each heading, look at the up to four lines
      after it and return the first that is neither blank nor a heading. */
  method ExtractOverview(content: string) returns (overview: string)
    ensures overview == Overview(content)
  {
    var lines := SplitLines(content);
    var i := 0;
    while i < |lines|
      invariant 0 <= i <= |lines|
      invariant OverviewFrom(lines, i) == OverviewFrom(lines, 0)
    {
      if StartsWith(lines[i], "#") && i + 1 < |lines| {
        var end := Min(i + 5, |lines|);
        var j := i + 1;
        while j < end
          invariant i + 1 <= j <= end
          invariant ParagraphAfter(lines, j, end) == ParagraphAfter(lines, i + 1, end)
        {
          if Strip(lines[j]) != [] && !StartsWith(lines[j], "#") {
            return Strip(lines[j]);
          }
          j := j + 1;
        }
      }
      i := i + 1;
    }
    return DefaultOverview;
  }

  /** `lines[j]` is the paragraph that heading `lines[i]` offers: within the
      four lines after it, not blank, not a heading, and only blank lines or
      headings between the two. */
  predicate OverviewAt(lines: seq<string>, i: int, j: int) {
    && 0 <= i < j < |lines| && j < i + 5
    && IsHeading(lines[i])
    && !IsBlank(lines[j]) && !IsHeading(lines[j])
    && forall k :: i < k < j ==> IsBlank(lines[k]) || IsHeading(lines[k])
  }

  lemma {:induction false} ParagraphAfterFinds(lines: seq<string>, i: nat, j: nat, from: nat)
    requires OverviewAt(lines, i, j) && i + 1 <= from <= j
    ensures ParagraphAfter(lines, from, Min(i + 5, |lines|)) == Some(j)
    decreases j - from
  {
    if from < j {
      ParagraphAfterFinds(lines, i, j, from + 1);
    }
  }

  lemma {:induction false} ParagraphAfterNone(lines: seq<string>, i: nat, from: nat)
    requires i < |lines| && IsHeading(lines[i]) && i + 1 <= from <= Min(i + 5, |lines|)
    requires forall j :: from <= j ==> !OverviewAt(lines, i, j)
    requires forall k :: i < k < from ==> IsBlank(lines[k]) || IsHeading(lines[k])
    ensures ParagraphAfter(lines, from, Min(i + 5, |lines|)) == None
    decreases Min(i + 5, |lines|) - from
  {
    if from < Min(i + 5, |lines|) {
      assert !OverviewAt(lines, i, from);
      ParagraphAfterNone(lines, i, from + 1);
    }
  }

  lemma ParagraphAfterSome(lines: seq<string>, i: nat, from: nat)
    requires i < |lines| && IsHeading(lines[i]) && from == i + 1 <= Min(i + 5, |lines|)
    requires ParagraphAfter(lines, from, Min(i + 5, |lines|)).Some?
    ensures OverviewAt(lines, i, ParagraphAfter(lines, from, Min(i + 5, |lines|)).value)
  {
    ParagraphAfterSomeFrom(lines, i, from);
  }

  lemma {:induction false} ParagraphAfterSomeFrom(lines: seq<string>, i: nat, from: nat)
    requires i < |lines| && IsHeading(lines[i]) && i + 1 <= from <= Min(i + 5, |lines|)
    requires forall k :: i < k < from ==> IsBlank(lines[k]) || IsHeading(lines[k])
    requires ParagraphAfter(lines, from, Min(i + 5, |lines|)).Some?
    ensures OverviewAt(lines, i, ParagraphAfter(lines, from, Min(i + 5, |lines|)).value)
    decreases Min(i + 5, |lines|) - from
  {
    var end := Min(i + 5, |lines|);
    if IsBlank(lines[from]) || IsHeading(lines[from]) {
      ParagraphAfterSomeFrom(lines, i, from + 1);
    }
  }

  /** The overview is the stripped paragraph offered by the first heading that
      offers one. */
  lemma {:induction false} OverviewIsFirstParagraph(lines: seq<string>, from: nat, i: nat, j: nat)
    requires from <= i
    requires OverviewAt(lines, i, j)
    requires forall i', j' :: from <= i' < i ==> !OverviewAt(lines, i', j')
    ensures OverviewFrom(lines, from) == Strip(lines[j])
    decreases i - from
  {
    if from < i {
      if IsHeading(lines[from]) && from + 1 < |lines| {
        ParagraphAfterNone(lines, from, from + 1);
      }
      OverviewIsFirstParagraph(lines, from + 1, i, j);
    } else {
      ParagraphAfterFinds(lines, i, j, i + 1);
    }
  }

  /** With no heading offering a paragraph, the overview is the default sentence. */
  lemma {:induction false} OverviewDefaults(lines: seq<string>, from: nat)
    requires from <= |lines|
    requires forall i, j :: from <= i ==> !OverviewAt(lines, i, j)
    ensures OverviewFrom(lines, from) == DefaultOverview
    decreases |lines| - from
  {
    if from < |lines| {
      if IsHeading(lines[from]) && from + 1 < |lines| {
        ParagraphAfterNone(lines, from, from + 1);
      }
      OverviewDefaults(lines, from + 1);
    }
  }

  /** The overview is never empty: either the default sentence or the stripped
      text of a line that is not blank. */
  lemma {:induction false} OverviewNotEmpty(lines: seq<string>, from: nat)
    requires from <= |lines|
    ensures OverviewFrom(lines, from) != []
    ensures OverviewFrom(lines, from) == DefaultOverview
         || exists i, j :: from <= i && OverviewAt(lines, i, j) && OverviewFrom(lines, from) == Strip(lines[j])
    decreases |lines| - from
  {
    if from < |lines| {
      if IsHeading(lines[from]) && from + 1 < |lines|
        && ParagraphAfter(lines, from + 1, Min(from + 5, |lines|)).Some?
      {
        ParagraphAfterSome(lines, from, from + 1);
      } else {
        OverviewNotEmpty(lines, from + 1);
      }
    }
  }

  // ================================================================
  // `_extract_features` and `_extract_use_cases`
  // ================================================================

  const MaxItems: nat := 5

  const FeatureTriggers: seq<string> := ["feature", "key"]
  const UseCaseTriggers: seq<string> := ["use case"]

  const DefaultFeatures: seq<string> := [
    "Fully managed service",
    "High availability and durability",
    "Integration with AWS services",
    "Pay-as-you-go pricing",
    "Enterprise-grade security"
  ]

  const DefaultUseCases: seq<string> := [
    "Real-time data processing",
    "Machine learning applications",
    "Web and mobile backends",
    "IoT applications",
    "Analytics and reporting"
  ]

  /** A line whose lower-case form contains one of the section's trigger words. */
  predicate IsTriggerLine(line: string, triggers: seq<string>) {
    ContainsAny(ToLower(line), triggers)
  }

  /** A line whose stripped text starts with a dash. */
  predicate IsBullet(line: string) {
    StartsWith(Strip(line), "-")
  }

  /** `line.strip()[1:].strip()`: the bullet's text without its dash. */
  function BulletText(line: string): string
    requires IsBullet(line)
  {
    Strip(Strip(line)[1..])
  }

  /** A bullet the scanner may collect: as written, only one without a
      trigger word. */
  predicate Collectable(line: string, triggers: seq<string>, bulletFirst: bool) {
    IsBullet(line) && (bulletFirst || !IsTriggerLine(line, triggers))
  }

  /** The items the section scanner collects from `lines`, given whether it is
      inside the section and the items found so far.  With `bulletFirst` false
      this is the scanner as written: the trigger test comes first, so a
      bullet that mentions a trigger word only re-opens the section.  With
      `bulletFirst` true, inside the section the bullet test comes first. */
  function SectionItems(lines: seq<string>, triggers: seq<string>, bulletFirst: bool,
                        inSection: bool, found: seq<string>): seq<string>
    requires |found| < MaxItems
    decreases |lines|
  {
    if lines == [] then found
    else
      var line := lines[0];
      if inSection && Collectable(line, triggers, bulletFirst) then
        var found' := found + [BulletText(line)];
        if |found'| >= MaxItems then found'
        else SectionItems(lines[1..], triggers, bulletFirst, true, found')
      else if IsTriggerLine(line, triggers) then
        SectionItems(lines[1..], triggers, bulletFirst, true, found)
      else if inSection && IsHeading(line) then found
      else SectionItems(lines[1..], triggers, bulletFirst, inSection, found)
  }

  /** The scanning loop shared by `_extract_features` and `_extract_use_cases`. */
  method ScanSection(lines: seq<string>, triggers: seq<string>, bulletFirst: bool)
    returns (items: seq<string>)
    ensures items == SectionItems(lines, triggers, bulletFirst, false, [])
  {
    items := [];
    var inSection := false;
    var i := 0;
    while i < |lines|
      invariant 0 <= i <= |lines| && |items| < MaxItems
      invariant SectionItems(lines[i..], triggers, bulletFirst, inSection, items)
             == SectionItems(lines, triggers, bulletFirst, false, [])
    {
      var line := lines[i];
      assert lines[i..][0] == line && lines[i..][1..] == lines[i + 1..];
      if inSection && Collectable(line, triggers, bulletFirst) {
        items := items + [Strip(Strip(line)[1..])];
        if |items| >= MaxItems {
          return;
        }
      } else if IsTriggerLine(line, triggers) {
        inSection := true;
      } else if inSection && StartsWith(line, "#") {
        return;
      }
      i := i + 1;
    }
  }

  /** The scanned items, or the defaults when there are none. */
  function OrDefault(items: seq<string>, defaults: seq<string>): seq<string> {
    if items == [] then defaults else items
  }

  /** `_extract_features(content)`: as written when `bulletFirst` is false. */
  function Features(content: string, bulletFirst: bool): seq<string> {
    OrDefault(SectionItems(SplitLines(content), FeatureTriggers, bulletFirst, false, []), DefaultFeatures)
  }

  /** `_extract_use_cases(content)`: as written when `bulletFirst` is false. */
  function UseCases(content: string, bulletFirst: bool): seq<string> {
    OrDefault(SectionItems(SplitLines(content), UseCaseTriggers, bulletFirst, false, []), DefaultUseCases)
  }

  /** `_extract_features` as written. */
  method ExtractFeaturesAsWritten(content: string) returns (features: seq<string>)
    ensures features == Features(content, false)
  {
    features := ScanSection(SplitLines(content), FeatureTriggers, false);
    if features == [] {
      features := DefaultFeatures;
    }
  }

  /** `_extract_features` with the bullet test first inside the section. */
  method ExtractFeatures(content: string) returns (features: seq<string>)
    ensures features == Features(content, true)
  {
    features := ScanSection(SplitLines(content), FeatureTriggers, true);
    if features == [] {
      features := DefaultFeatures;
    }
  }

  /** `_extract_use_cases` as written. */
  method ExtractUseCasesAsWritten(content: string) returns (useCases: seq<string>)
    ensures useCases == UseCases(content, false)
  {
    useCases := ScanSection(SplitLines(content), UseCaseTriggers, false);
    if useCases == [] {
      useCases := DefaultUseCases;
    }
  }

  /** `_extract_use_cases` with the bullet test first inside the section. */
  method ExtractUseCases(content: string) returns (useCases: seq<string>)
    ensures useCases == UseCases(content, true)
  {
    useCases := ScanSection(SplitLines(content), UseCaseTriggers, true);
    if useCases == [] {
      useCases := DefaultUseCases;
    }
  }

  /** Some line of `lines` before index `i` holds a trigger word. */
  predicate TriggerBefore(lines: seq<string>, i: int, triggers: seq<string>) {
    exists t :: 0 <= t < i && t < |lines| && IsTriggerLine(lines[t], triggers)
  }

  /** `item` is the text of the collectable bullet line `lines[k]`, and an
      earlier line `lines[t]` holds a trigger word that opened the section;
      as written, `lines[k]` itself holds no trigger word. */
  predicate FromBullet(item: string, lines: seq<string>, triggers: seq<string>, bulletFirst: bool) {
    exists t, k :: 0 <= t < k < |lines| && IsTriggerLine(lines[t], triggers) &&
                   Collectable(lines[k], triggers, bulletFirst) && item == BulletText(lines[k])
  }

  /** Every item of `r` from index `from` on comes from a bullet line of
      `lines` after a trigger line. */
  predicate AddedFromBullets(r: seq<string>, from: nat, lines: seq<string>,
                             triggers: seq<string>, bulletFirst: bool) {
    forall k :: from <= k < |r| ==> FromBullet(r[k], lines, triggers, bulletFirst)
  }

  /** The scanner keeps what it had and stops by five items. */
  lemma {:induction false} SectionItemsGrow(lines: seq<string>, triggers: seq<string>,
                                            bulletFirst: bool, inSection: bool, found: seq<string>)
    requires |found| < MaxItems
    ensures |found| <= |SectionItems(lines, triggers, bulletFirst, inSection, found)| <= MaxItems
    ensures SectionItems(lines, triggers, bulletFirst, inSection, found)[..|found|] == found
    decreases |lines|
  {
    if lines != [] {
      var line := lines[0];
      if inSection && Collectable(line, triggers, bulletFirst) {
        var found' := found + [BulletText(line)];
        if |found'| < MaxItems {
          SectionItemsGrow(lines[1..], triggers, bulletFirst, true, found');
          var r := SectionItems(lines[1..], triggers, bulletFirst, true, found');
          assert r[..|found|] == r[..|found'|][..|found|];
        }
      } else if IsTriggerLine(line, triggers) {
        SectionItemsGrow(lines[1..], triggers, bulletFirst, true, found);
      } else if !(inSection && IsHeading(line)) {
        SectionItemsGrow(lines[1..], triggers, bulletFirst, inSection, found);
      }
    }
  }

  /** Scanning `lines` from index `i` on, every item the scanner adds is the
      text of a collectable bullet line that comes after a trigger line: the
      section is only open once a trigger line has been passed. */
  lemma {:induction false} SectionItemsFromBullets(lines: seq<string>, i: nat, triggers: seq<string>,
                                                   bulletFirst: bool, inSection: bool, found: seq<string>)
    requires i <= |lines| && |found| < MaxItems
    requires inSection ==> TriggerBefore(lines, i, triggers)
    ensures AddedFromBullets(SectionItems(lines[i..], triggers, bulletFirst, inSection, found), |found|,
                             lines, triggers, bulletFirst)
    decreases |lines| - i
  {
    if i < |lines| {
      var line := lines[i];
      assert lines[i..][0] == line && lines[i..][1..] == lines[i + 1..];
      var r := SectionItems(lines[i..], triggers, bulletFirst, inSection, found);
      if inSection && Collectable(line, triggers, bulletFirst) {
        var t :| 0 <= t < i && t < |lines| && IsTriggerLine(lines[t], triggers);
        var found' := found + [BulletText(line)];
        assert FromBullet(BulletText(line), lines, triggers, bulletFirst);
        assert TriggerBefore(lines, i + 1, triggers);
        if |found'| < MaxItems {
          SectionItemsFromBullets(lines, i + 1, triggers, bulletFirst, true, found');
          SectionItemsGrow(lines[i + 1..], triggers, bulletFirst, true, found');
          forall k | |found| <= k < |r| ensures FromBullet(r[k], lines, triggers, bulletFirst) {
            if k == |found| {
              assert r[k] == r[..|found'|][k] == BulletText(line);
            }
          }
        }
      } else if IsTriggerLine(line, triggers) {
        assert TriggerBefore(lines, i + 1, triggers) by { assert IsTriggerLine(lines[i], triggers); }
        SectionItemsFromBullets(lines, i + 1, triggers, bulletFirst, true, found);
      } else if !(inSection && IsHeading(line)) {
        if inSection {
          var t :| 0 <= t < i && t < |lines| && IsTriggerLine(lines[t], triggers);
          assert TriggerBefore(lines, i + 1, triggers);
        }
        SectionItemsFromBullets(lines, i + 1, triggers, bulletFirst, inSection, found);
      }
    }
  }

  /** The extractors return between one and five items; each scanned item is
      the text of a bullet line that follows a trigger line (as written, a
      bullet line without a trigger word). */
  lemma ExtractedItemsShape(content: string, bulletFirst: bool)
    ensures 1 <= |Features(content, bulletFirst)| <= MaxItems
    ensures 1 <= |UseCases(content, bulletFirst)| <= MaxItems
    ensures var items := SectionItems(SplitLines(content), FeatureTriggers, bulletFirst, false, []);
      forall k :: 0 <= k < |items| ==> FromBullet(items[k], SplitLines(content), FeatureTriggers, bulletFirst)
    ensures var items := SectionItems(SplitLines(content), UseCaseTriggers, bulletFirst, false, []);
      forall k :: 0 <= k < |items| ==> FromBullet(items[k], SplitLines(content), UseCaseTriggers, bulletFirst)
  {
    var lines := SplitLines(content);
    assert lines[0..] == lines;
    SectionItemsGrow(lines, FeatureTriggers, bulletFirst, false, []);
    SectionItemsGrow(lines, UseCaseTriggers, bulletFirst, false, []);
    SectionItemsFromBullets(lines, 0, FeatureTriggers, bulletFirst, false, []);
    SectionItemsFromBullets(lines, 0, UseCaseTriggers, bulletFirst, false, []);
  }

  /** As written, a line with a trigger word is never collected: every item
      is the text of a bullet line without one, after a line with one. */
  lemma TriggerLineNeverCollected(lines: seq<string>, triggers: seq<string>, item: string)
    requires item in SectionItems(lines, triggers, false, false, [])
    ensures exists t, k :: 0 <= t < k < |lines| && IsTriggerLine(lines[t], triggers) &&
                           IsBullet(lines[k]) && !IsTriggerLine(lines[k], triggers) && item == BulletText(lines[k])
  {
    assert lines[0..] == lines;
    SectionItemsFromBullets(lines, 0, triggers, false, false, []);
    var r := SectionItems(lines, triggers, false, false, []);
    var k :| 0 <= k < |r| && r[k] == item;
    assert FromBullet(r[k], lines, triggers, false);
  }

  /** A heading's stripped text starts with '#', so it is not a bullet. */
  lemma HeadingIsNotBullet(line: string)
    requires IsHeading(line)
    ensures !IsBullet(line)
  {
    assert line[0] == '#';
    StripKeepsFirst(line);
  }

  /** Once a trigger line has been seen, the first heading without a trigger
      word ends the scan: nothing after it is looked at. */
  lemma {:induction false} ScanStopsAtHeading(lines: seq<string>, triggers: seq<string>, bulletFirst: bool,
                                              inSection: bool, found: seq<string>, j: nat)
    requires |found| < MaxItems
    requires j < |lines|
    requires inSection || exists t :: 0 <= t < j && IsTriggerLine(lines[t], triggers)
    requires IsHeading(lines[j]) && !IsTriggerLine(lines[j], triggers)
    ensures SectionItems(lines, triggers, bulletFirst, inSection, found)
         == SectionItems(lines[..j + 1], triggers, bulletFirst, inSection, found)
    decreases j
  {
    var line := lines[0];
    var prefix := lines[..j + 1];
    assert prefix[0] == line;
    if j == 0 {
      HeadingIsNotBullet(line);
    } else {
      assert prefix[1..] == lines[1..][..j];
      if inSection && Collectable(line, triggers, bulletFirst) {
        var found' := found + [BulletText(line)];
        if |found'| < MaxItems {
          ScanStopsAtHeading(lines[1..], triggers, bulletFirst, true, found', j - 1);
        }
      } else if IsTriggerLine(line, triggers) {
        ScanStopsAtHeading(lines[1..], triggers, bulletFirst, true, found, j - 1);
      } else if !(inSection && IsHeading(line)) {
        if !inSection {
          var t :| 0 <= t < j && IsTriggerLine(lines[t], triggers);
          assert t != 0;
          assert lines[1..][t - 1] == lines[t];
        }
        ScanStopsAtHeading(lines[1..], triggers, bulletFirst, inSection, found, j - 1);
      }
    }
  }

  // ================================================================
  // The trigger test that shadows the bullet test
  // ================================================================

  /** A line that is empty or starts with a character other than whitespace,
      '-' and '#' is neither a bullet nor a heading. */
  lemma PlainLine(line: string)
    requires line == [] || (!IsSpace(line[0]) && line[0] != '-' && line[0] != '#')
    ensures !IsBullet(line) && !IsHeading(line)
  {
    if line != [] {
      StripKeepsFirst(line);
    }
  }

  /** A list item whose text has no whitespace at either end is a bullet
      whose text is that text. */
  lemma BulletOf(text: string)
    requires text != [] && !IsSpace(text[0]) && !IsSpace(text[|text| - 1])
    ensures IsBullet(Bullet(text)) && BulletText(Bullet(text)) == text
  {
    var line := Bullet(text);
    assert Strip(line) == line;
    assert line[1..][1..] == text;
    assert TrimLeft(line[1..]) == text;
  }

  /** A list item whose text starts with `word`, a trigger of the section
      (already in lower case but for its first letter), is a trigger line. */
  lemma TriggerItem(text: string, triggers: seq<string>, t: nat, word: string)
    requires t < |triggers| && |word| == |triggers[t]|
    requires |word| <= |text| && text[..|word|] == word
    requires ToLower(word) == triggers[t]
    ensures IsTriggerLine(Bullet(text), triggers)
  {
    var line := Bullet(text);
    assert line[2..2 + |word|] == word;
    TriggerAt(line, triggers, t, 2);
  }

  /** `p` occurs in the lower-case form of `line` at index `i`, so a section
      whose triggers include `p` takes `line` for a trigger line. */
  lemma TriggerAt(line: string, triggers: seq<string>, t: nat, i: nat)
    requires t < |triggers| && i + |triggers[t]| <= |line|
    requires ToLower(line[i..i + |triggers[t]|]) == triggers[t]
    ensures IsTriggerLine(line, triggers)
  {
    var p := triggers[t];
    ContainsIffOccurs(ToLower(line), p);
    assert ToLower(line)[i..i + |p|] == ToLower(line[i..i + |p|]);
    assert OccursAt(ToLower(line), p, i);
    ContainsAnyIffSome(ToLower(line), triggers);
  }

  /** Each trigger has a character, `missing[t]`, that the lower-case form of
      `line` lacks, so `line` is no trigger line. */
  lemma NoTriggerBy(line: string, triggers: seq<string>, missing: seq<char>)
    requires |missing| == |triggers|
    requires forall t :: 0 <= t < |triggers| ==> missing[t] in triggers[t] && missing[t] !in ToLower(line)
    ensures !IsTriggerLine(line, triggers)
  {
    ContainsAnyIffSome(ToLower(line), triggers);
    forall t | 0 <= t < |triggers| ensures !Contains(ToLower(line), triggers[t]) {
      var k :| 0 <= k < |triggers[t]| && triggers[t][k] == missing[t];
      MissingCharNotContained(ToLower(line), triggers[t], k);
    }
  }

  /** Outside the section, lines without a trigger word are skipped. */
  lemma {:induction false} OutsideUntilTrigger(lines: seq<string>, triggers: seq<string>, bulletFirst: bool, n: nat)
    requires n <= |lines|
    requires forall k :: 0 <= k < n ==> !IsTriggerLine(lines[k], triggers)
    ensures SectionItems(lines, triggers, bulletFirst, false, [])
         == SectionItems(lines[n..], triggers, bulletFirst, false, [])
    decreases n
  {
    if n > 0 {
      OutsideUntilTrigger(lines[1..], triggers, bulletFirst, n - 1);
      assert lines[1..][n - 1..] == lines[n..];
    }
  }

  /** Inside the section, a line that is not collected and does not end the
      section is skipped. */
  lemma SkipLine(lines: seq<string>, triggers: seq<string>, bulletFirst: bool, found: seq<string>)
    requires |found| < MaxItems && lines != []
    requires !Collectable(lines[0], triggers, bulletFirst)
    requires IsTriggerLine(lines[0], triggers) || !IsHeading(lines[0])
    ensures SectionItems(lines, triggers, bulletFirst, true, found)
         == SectionItems(lines[1..], triggers, bulletFirst, true, found)
  {
  }

  /** Inside the section, a collectable line below the item limit is collected. */
  lemma TakeLine(lines: seq<string>, triggers: seq<string>, bulletFirst: bool, found: seq<string>)
    requires |found| + 1 < MaxItems && lines != []
    requires Collectable(lines[0], triggers, bulletFirst)
    ensures SectionItems(lines, triggers, bulletFirst, true, found)
         == SectionItems(lines[1..], triggers, bulletFirst, true, found + [BulletText(lines[0])])
  {
  }

  /** Inside a section, three bullets that each mention a trigger word, a
      blank line and a heading without one: as written nothing is collected,
      since each bullet is taken for a trigger line; with the bullet test
      first the three bullet texts are. */
  lemma ThreeTriggerBullets(s: seq<string>, triggers: seq<string>)
    requires |s| == 5
    requires forall k :: 0 <= k < 3 ==> IsBullet(s[k]) && IsTriggerLine(s[k], triggers)
    requires s[3] == "" && IsHeading(s[4]) && !IsTriggerLine(s[4], triggers)
    requires forall t :: 0 <= t < |triggers| ==> triggers[t] != []
    ensures SectionItems(s, triggers, false, true, []) == []
    ensures SectionItems(s, triggers, true, true, []) == [BulletText(s[0]), BulletText(s[1]), BulletText(s[2])]
  {
    PlainLine(s[3]);
    NoTriggerBy(s[3], triggers, seq(|triggers|, t requires 0 <= t < |triggers| => triggers[t][0]));
    HeadingIsNotBullet(s[4]);
    SkipThreeBullets(s, triggers);
    TakeThreeBullets(s, triggers);
  }

  /** As written, each of the three bullets only re-opens the section. */
  lemma SkipThreeBullets(s: seq<string>, triggers: seq<string>)
    requires |s| == 5
    requires forall k :: 0 <= k < 3 ==> IsBullet(s[k]) && IsTriggerLine(s[k], triggers)
    requires !IsBullet(s[3]) && !IsTriggerLine(s[3], triggers) && !IsHeading(s[3])
    requires IsHeading(s[4]) && !IsBullet(s[4]) && !IsTriggerLine(s[4], triggers)
    ensures SectionItems(s, triggers, false, true, []) == []
  {
    for k := 0 to 4
      invariant SectionItems(s, triggers, false, true, []) == SectionItems(s[k..], triggers, false, true, [])
    {
      assert s[k..][0] == s[k] && s[k..][1..] == s[k + 1..];
      SkipLine(s[k..], triggers, false, []);
    }
    assert s[4..][0] == s[4];
  }

  /** With the bullet test first, the three bullets are collected. */
  lemma TakeThreeBullets(s: seq<string>, triggers: seq<string>)
    requires |s| == 5
    requires forall k :: 0 <= k < 3 ==> IsBullet(s[k])
    requires !IsBullet(s[3]) && !IsTriggerLine(s[3], triggers) && !IsHeading(s[3])
    requires IsHeading(s[4]) && !IsBullet(s[4]) && !IsTriggerLine(s[4], triggers)
    ensures SectionItems(s, triggers, true, true, []) == [BulletText(s[0]), BulletText(s[1]), BulletText(s[2])]
  {
    var items := [BulletText(s[0]), BulletText(s[1]), BulletText(s[2])];
    for k := 0 to 4
      invariant SectionItems(s, triggers, true, true, []) == SectionItems(s[k..], triggers, true, true, items[..Min(k, 3)])
    {
      assert s[k..][0] == s[k] && s[k..][1..] == s[k + 1..];
      if k < 3 {
        TakeLine(s[k..], triggers, true, items[..k]);
        assert items[..k] + [BulletText(s[k])] == items[..k + 1];
      } else {
        SkipLine(s[k..], triggers, true, items);
      }
    }
    assert s[4..][0] == s[4];
  }

  /** A list item whose text starts with "Feature" is a trigger line of the
      features section. */
  lemma FeatureBullet(text: string)
    requires |text| >= 7 && text[..7] == "Feature" && !IsSpace(text[|text| - 1])
    ensures IsBullet(Bullet(text)) && BulletText(Bullet(text)) == text
    ensures IsTriggerLine(Bullet(text), FeatureTriggers)
  {
    BulletOf(text);
    TriggerItem(text, FeatureTriggers, 0, "Feature");
  }

  /** A list item whose text starts with "Use case" is a trigger line of the
      use-cases section. */
  lemma UseCaseBullet(text: string)
    requires |text| >= 8 && text[..8] == "Use case" && !IsSpace(text[|text| - 1])
    ensures IsBullet(Bullet(text)) && BulletText(Bullet(text)) == text
    ensures IsTriggerLine(Bullet(text), UseCaseTriggers)
  {
    BulletOf(text);
    TriggerItem(text, UseCaseTriggers, 0, "Use case");
  }

  /** The scan of a page whose line `n` is a trigger heading followed by three
      bullets that each mention a trigger word, a blank line and a heading
      without one, and whose earlier lines hold no trigger word.  As written
      nothing is collected; with the bullet test first the three bullet
      texts are. */
  lemma ThreeItemPage(lines: seq<string>, triggers: seq<string>, n: nat)
    requires n + 6 <= |lines|
    requires forall k :: 0 <= k < n ==> !IsTriggerLine(lines[k], triggers)
    requires IsHeading(lines[n]) && IsTriggerLine(lines[n], triggers)
    requires forall k :: n + 1 <= k < n + 4 ==> IsBullet(lines[k]) && IsTriggerLine(lines[k], triggers)
    requires lines[n + 4] == "" && IsHeading(lines[n + 5]) && !IsTriggerLine(lines[n + 5], triggers)
    requires forall t :: 0 <= t < |triggers| ==> triggers[t] != []
    ensures SectionItems(lines, triggers, false, false, []) == []
    ensures SectionItems(lines, triggers, true, false, [])
         == [BulletText(lines[n + 1]), BulletText(lines[n + 2]), BulletText(lines[n + 3])]
  {
    HeadingIsNotBullet(lines[n]);
    OutsideUntilTrigger(lines, triggers, false, n);
    OutsideUntilTrigger(lines, triggers, true, n);
    var rest := lines[n + 1..];
    assert lines[n..][0] == lines[n] && lines[n..][1..] == rest;
    ScanStopsAtHeading(rest, triggers, false, true, [], 4);
    ScanStopsAtHeading(rest, triggers, true, true, [], 4);
    ThreeTriggerBullets(rest[..5], triggers);
  }

  /** Each feature item starts with "Feature" and ends in a letter. */
  lemma FeatureTextsShape()
    ensures |Feature1()| >= 7 && Feature1()[..7] == "Feature" && !IsSpace(Feature1()[|Feature1()| - 1])
    ensures |Feature2()| >= 7 && Feature2()[..7] == "Feature" && !IsSpace(Feature2()[|Feature2()| - 1])
    ensures |Feature3()| >= 7 && Feature3()[..7] == "Feature" && !IsSpace(Feature3()[|Feature3()| - 1])
  {
  }

  /** Each use-case item starts with "Use case" and ends in a letter. */
  lemma UseCaseTextsShape()
    ensures |UseCase1()| >= 8 && UseCase1()[..8] == "Use case" && !IsSpace(UseCase1()[|UseCase1()| - 1])
    ensures |UseCase2()| >= 8 && UseCase2()[..8] == "Use case" && !IsSpace(UseCase2()[|UseCase2()| - 1])
    ensures |UseCase3()| >= 8 && UseCase3()[..8] == "Use case" && !IsSpace(UseCase3()[|UseCase3()| - 1])
  {
  }

  /** The page's features heading holds the trigger word "key". */
  lemma KeyFeaturesHeading()
    ensures IsHeading("## Key Features") && IsTriggerLine("## Key Features", FeatureTriggers)
  {
    TriggerAt("## Key Features", FeatureTriggers, 1, 3);
  }

  /** The page's use-cases heading holds neither "feature" nor "key", so it
      ends the features section. */
  lemma UseCasesHeadingEndsFeatures()
    ensures IsHeading("## Use Cases") && !IsTriggerLine("## Use Cases", FeatureTriggers)
  {
    assert ToLower("## Use Cases") == "## use cases";
    NoTriggerBy("## Use Cases", FeatureTriggers, ['f', 'k']);
  }

  /** The page's use-cases heading holds the trigger "use case". */
  lemma UseCasesHeadingOpensUseCases()
    ensures IsHeading("## Use Cases") && IsTriggerLine("## Use Cases", UseCaseTriggers)
  {
    TriggerAt("## Use Cases", UseCaseTriggers, 0, 3);
  }

  /** The page's "## Getting Started" heading lacks "use case", so it ends
      the use-cases section. */
  lemma GettingStartedEndsUseCases()
    ensures IsHeading("## Getting Started") && !IsTriggerLine("## Getting Started", UseCaseTriggers)
  {
    assert ToLower("## Getting Started") == "## getting started";
    NoTriggerBy("## Getting Started", UseCaseTriggers, ['u']);
  }

  /** The three feature items of the page each say "Feature". */
  lemma FeatureItems()
    ensures IsBullet(Bullet(Feature1())) && IsTriggerLine(Bullet(Feature1()), FeatureTriggers)
    ensures IsBullet(Bullet(Feature2())) && IsTriggerLine(Bullet(Feature2()), FeatureTriggers)
    ensures IsBullet(Bullet(Feature3())) && IsTriggerLine(Bullet(Feature3()), FeatureTriggers)
    ensures BulletText(Bullet(Feature1())) == Feature1()
    ensures BulletText(Bullet(Feature2())) == Feature2()
    ensures BulletText(Bullet(Feature3())) == Feature3()
  {
    FeatureTextsShape();
    FeatureBullet(Feature1());
    FeatureBullet(Feature2());
    FeatureBullet(Feature3());
  }

  /** The three use-case items of the page each say "Use case". */
  lemma UseCaseItems()
    ensures IsBullet(Bullet(UseCase1())) && IsTriggerLine(Bullet(UseCase1()), UseCaseTriggers)
    ensures IsBullet(Bullet(UseCase2())) && IsTriggerLine(Bullet(UseCase2()), UseCaseTriggers)
    ensures IsBullet(Bullet(UseCase3())) && IsTriggerLine(Bullet(UseCase3()), UseCaseTriggers)
    ensures BulletText(Bullet(UseCase1())) == UseCase1()
    ensures BulletText(Bullet(UseCase2())) == UseCase2()
    ensures BulletText(Bullet(UseCase3())) == UseCase3()
  {
    UseCaseTextsShape();
    UseCaseBullet(UseCase1());
    UseCaseBullet(UseCase2());
    UseCaseBullet(UseCase3());
  }

  /** Where the sections of the placeholder page sit among its lines. */
  lemma PageLayout()
    ensures var lines := DocumentationPageLines();
      && lines[6] == "## Key Features"
      && lines[7] == Bullet(Feature1()) && lines[8] == Bullet(Feature2()) && lines[9] == Bullet(Feature3())
      && lines[10] == ""
      && lines[11] == "## Use Cases"
      && lines[12] == Bullet(UseCase1()) && lines[13] == Bullet(UseCase2()) && lines[14] == Bullet(UseCase3())
      && lines[15] == ""
      && lines[16] == "## Getting Started"
  {
    var lines := DocumentationPageLines();
    assert lines[6..11] == PageKeyFeatures();
    assert lines[11..16] == PageUseCases();
    assert lines[16..] == PageGettingStarted();
  }

  /** The features section of the placeholder page has the shape of
      `ThreeItemPage` at line 6: a trigger heading, three bullets that each
      mention a trigger word, a blank line, and a heading without one. */
  lemma PageFeaturesSection()
    ensures FeaturesSectionShape(DocumentationPageLines())
  {
    PageLayout();
    FeaturesSectionAt(DocumentationPageLines());
  }

  /** The use-cases section of the placeholder page has the shape of
      `ThreeItemPage` at line 11. */
  lemma PageUseCasesSection()
    ensures UseCasesSectionShape(DocumentationPageLines())
  {
    PageLayout();
    UseCasesSectionAt(DocumentationPageLines());
  }

  /** Lines 6 to 11 of `lines` are a features section as the placeholder
      page lays it out. */
  predicate FeaturesSectionShape(lines: seq<string>) {
    && |lines| >= 12
    && IsHeading(lines[6]) && IsTriggerLine(lines[6], FeatureTriggers)
    && IsBullet(lines[7]) && IsTriggerLine(lines[7], FeatureTriggers)
    && IsBullet(lines[8]) && IsTriggerLine(lines[8], FeatureTriggers)
    && IsBullet(lines[9]) && IsTriggerLine(lines[9], FeatureTriggers)
    && lines[10] == "" && IsHeading(lines[11]) && !IsTriggerLine(lines[11], FeatureTriggers)
    && [BulletText(lines[7]), BulletText(lines[8]), BulletText(lines[9])] == [Feature1(), Feature2(), Feature3()]
  }

  /** Lines 11 to 16 of `lines` are a use-cases section as the placeholder
      page lays it out. */
  predicate UseCasesSectionShape(lines: seq<string>) {
    && |lines| >= 17
    && IsHeading(lines[11]) && IsTriggerLine(lines[11], UseCaseTriggers)
    && IsBullet(lines[12]) && IsTriggerLine(lines[12], UseCaseTriggers)
    && IsBullet(lines[13]) && IsTriggerLine(lines[13], UseCaseTriggers)
    && IsBullet(lines[14]) && IsTriggerLine(lines[14], UseCaseTriggers)
    && lines[15] == "" && IsHeading(lines[16]) && !IsTriggerLine(lines[16], UseCaseTriggers)
    && [BulletText(lines[12]), BulletText(lines[13]), BulletText(lines[14])] == [UseCase1(), UseCase2(), UseCase3()]
  }

  /** Any lines laid out like the page's features section have its shape. */
  lemma FeaturesSectionAt(lines: seq<string>)
    requires |lines| == 23
    requires lines[6] == "## Key Features" && lines[10] == "" && lines[11] == "## Use Cases"
    requires lines[7] == Bullet(Feature1()) && lines[8] == Bullet(Feature2()) && lines[9] == Bullet(Feature3())
    ensures FeaturesSectionShape(lines)
  {
    KeyFeaturesHeading();
    FeatureItems();
    UseCasesHeadingEndsFeatures();
  }

  /** Any lines laid out like the page's use-cases section have its shape. */
  lemma UseCasesSectionAt(lines: seq<string>)
    requires |lines| == 23
    requires lines[11] == "## Use Cases" && lines[15] == "" && lines[16] == "## Getting Started"
    requires lines[12] == Bullet(UseCase1()) && lines[13] == Bullet(UseCase2()) && lines[14] == Bullet(UseCase3())
    ensures UseCasesSectionShape(lines)
  {
    UseCasesHeadingOpensUseCases();
    UseCaseItems();
    GettingStartedEndsUseCases();
  }

  // ================================================================
  // `extract_service_information` and the search cache
  // ================================================================

  /** The dictionary `extract_service_information` returns. */
  datatype ServiceInfo = ServiceInfo(
    serviceName: string,
    overview: string,
    keyFeatures: seq<string>,
    useCases: seq<string>,
    documentationUrls: seq<string>,
    recommendedTopics: seq<string>)

  /** The information extracted for `name` from the search results `results`:
      the first result's page is read with `read` and its recommendations
      fetched, and both are skipped when there are no results.  With
      `bulletFirst` false the feature and use-case scanners are the ones the
      source runs; with it true they are the corrected ones. */
  function InfoFrom(name: string, results: seq<SearchResult>, read: string -> string, bulletFirst: bool): ServiceInfo {
    var content := if results != [] then read(results[0].url) else "";
    var recommendations := if results != [] then GetServiceRecommendations(results[0].url) else [];
    ServiceInfo(name, Overview(content), Features(content, bulletFirst), UseCases(content, bulletFirst),
      ResultUrls(results[..Min(3, |results|)]), ResultTitles(recommendations))
  }

  /** The information depends on the results only through their URLs, so a
      cached answer first built for another spelling of the name gives the
      same information as a fresh search. */
  lemma InfoFromUrls(name: string, r1: seq<SearchResult>, r2: seq<SearchResult>, read: string -> string,
                     bulletFirst: bool)
    requires ResultUrls(r1) == ResultUrls(r2)
    ensures InfoFrom(name, r1, read, bulletFirst) == InfoFrom(name, r2, read, bulletFirst)
  {
    assert |r1| == |ResultUrls(r1)| == |r2|;
    if r1 != [] {
      assert r1[0].url == ResultUrls(r1)[0] == r2[0].url;
    }
    var n := Min(3, |r1|);
    assert ResultUrls(r1[..n]) == ResultUrls(r2[..n]) by {
      forall k | 0 <= k < n ensures ResultUrls(r1[..n])[k] == ResultUrls(r2[..n])[k] {
        assert ResultUrls(r1)[k] == ResultUrls(r2)[k];
      }
    }
  }

  /** The documentation URLs are those of the first (at most) three results,
      in order. */
  lemma InfoUrlsFirstThree(name: string, results: seq<SearchResult>, read: string -> string, bulletFirst: bool)
    ensures var urls := InfoFrom(name, results, read, bulletFirst).documentationUrls;
      && |urls| == Min(3, |results|)
      && forall k :: 0 <= k < |urls| ==> urls[k] == results[k].url
  {
  }

  /** Without search results nothing is read: the overview, features and use
      cases are the defaults, and there are no URLs and no topics. */
  lemma InfoWithoutResults(name: string, read: string -> string, bulletFirst: bool)
    ensures InfoFrom(name, [], read, bulletFirst) == ServiceInfo(name, DefaultOverview, DefaultFeatures, DefaultUseCases, [], [])
  {
    assert SplitLines("") == [""];
    assert !IsHeading("");
    assert Overview("") == DefaultOverview;
    assert ToLower("") == "";
    assert !IsTriggerLine("", FeatureTriggers) && !IsTriggerLine("", UseCaseTriggers);
  }

  /** For a searched name: the three user-guide pages, the three recommended
      topics, an overview that is never empty, and one to five features and
      use cases, each either scanned from a bullet line of the page or one of
      the defaults. */
  lemma InfoShape(name: string, read: string -> string, bulletFirst: bool)
    ensures var info := InfoFrom(name, SearchResultsFor(name), read, bulletFirst);
      && info.serviceName == name
      && info.documentationUrls == ResultUrls(SearchResultsFor(name))
      && |info.documentationUrls| == 3
      && info.recommendedTopics == ["Best Practices", "Security", "Monitoring"]
      && info.overview != []
      && 1 <= |info.keyFeatures| <= MaxItems
      && 1 <= |info.useCases| <= MaxItems
  {
    var rs := SearchResultsFor(name);
    assert rs[..Min(3, |rs|)] == rs;
    RecommendationsShape(rs[0].url);
    OverviewNotEmpty(SplitLines(read(rs[0].url)), 0);
    ExtractedItemsShape(read(rs[0].url), bulletFirst);
  }

  /** `AWSDocumentationIntegration`, whose search results are cached by the
      lower-case service name. */
  class DocumentationIntegration {
    var searchCache: map<string, seq<SearchResult>>

    /** Every entry is the answer the search built for some spelling of its key. */
    ghost predicate Valid()
      reads this
    {
      forall key :: key in searchCache ==>
        exists name :: ToLower(name) == key && searchCache[key] == SearchResultsFor(name)
    }

    constructor ()
      ensures Valid() && searchCache == map[]
    {
      searchCache := map[];
    }

    /** `search_service_documentation(name)`: the cached results for the
        lower-case name, built and cached on a miss.  Whichever spelling
        filled the entry, the URLs are those of a fresh search. */
    method SearchServiceDocumentation(name: string) returns (results: seq<SearchResult>)
      requires Valid()
      modifies this
      ensures Valid()
      ensures ToLower(name) in old(searchCache) ==> searchCache == old(searchCache)
      ensures ToLower(name) !in old(searchCache) ==>
        searchCache == old(searchCache)[ToLower(name) := SearchResultsFor(name)]
      ensures ToLower(name) in searchCache && results == searchCache[ToLower(name)]
      ensures |results| == 3
      ensures ResultUrls(results) == ResultUrls(SearchResultsFor(name))
    {
      var key := ToLower(name);
      if key !in searchCache {
        searchCache := searchCache[key := SearchResultsFor(name)];
      }
      results := searchCache[key];
      var first :| ToLower(first) == key && results == SearchResultsFor(first);
      SearchUrlsIgnoreCase(first, name);
    }

    /** `extract_service_information(name)`: search, read the first result's
        page with `read`, fetch its recommendations and run the three
        scanners.  The answer is the one a fresh search gives, whatever was
        cached. */
    method ExtractServiceInformation(name: string, read: string -> string) returns (info: ServiceInfo)
      requires Valid()
      modifies this
      ensures Valid()
      ensures ToLower(name) in searchCache
      ensures ToLower(name) in old(searchCache) ==> searchCache == old(searchCache)
      ensures ToLower(name) !in old(searchCache) ==>
        searchCache == old(searchCache)[ToLower(name) := SearchResultsFor(name)]
      ensures info == InfoFrom(name, SearchResultsFor(name), read, false)
    {
      var results := SearchServiceDocumentation(name);
      info := InfoFromResults(name, results, read);
      InfoFromUrls(name, results, SearchResultsFor(name), read, false);
    }

    /** The body of `extract_service_information` after the search, with
        `_extract_features` and `_extract_use_cases` as written. */
    method InfoFromResults(name: string, results: seq<SearchResult>, read: string -> string)
      returns (info: ServiceInfo)
      ensures info == InfoFrom(name, results, read, false)
    {
      var content := "";
      var recommendations := [];
      if results != [] {
        content := read(results[0].url);
        recommendations := GetServiceRecommendations(results[0].url);
      }
      var overview := ExtractOverview(content);
      var features := ExtractFeaturesAsWritten(content);
      var useCases := ExtractUseCasesAsWritten(content);
      info := ServiceInfo(name, overview, features, useCases,
        ResultUrls(results[..Min(3, |results|)]), ResultTitles(recommendations));
    }
  }
}
