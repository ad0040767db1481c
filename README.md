# re:Invent research automation: a verified model of its string and record core

The repository automates research on AWS re:Invent announcements. It scrapes
the announcement blog, infers a service name for each announcement and
researches the service. It builds console URLs and assembles documentation
and pricing records. Most of it drives outside collaborators: HTTP,
BeautifulSoup, Selenium, python-pptx and the file system. Within that
sit small deterministic routines over strings and lists. This project models
those routines in Dafny and proves what they promise.

Modules (one file each):

- `Wrappers`: `Option`.
- `TextUtil`: the Python `str` operations the code relies on, over ASCII.
  These are `lower`, `isupper`, `strip`, `split()`, `split('\n')`, `' '.join`,
  `in`, `startswith` and `replace`.
- `BlogScraper` (`BlogScraper` in `src/reinvent_research_automation.py`):
  - service-name inference from a title (`_extract_service_name`, with its
    nested loop as methods);
  - the title filter, link absolutisation, the 50-candidate cap and
    first-wins de-duplication of `extract_announcements`;
  - the fixed sample list returned when fetching or parsing raises.
- `ServiceResearch`: `AWSDocumentationResearcher.research_service` and
  `AWSConsoleScreenshotter._get_service_console_url`.
- `Documentation` (`AWSDocumentationIntegration`): a class whose
  `searchCache` field is the read-through search cache. Also here:
  - the placeholder search results and recommendations;
  - the three markdown scanners `_extract_overview`, `_extract_features` and
    `_extract_use_cases`, as loops over lines;
  - `extract_service_information`.
- `Pricing` (`AWSPricingIntegration`): a class whose `serviceCodesCache`
  field caches the service-code catalogue. Also here: the case-insensitive
  code filter, `find_service_code` and `get_comprehensive_pricing`.
- `Integration`: `integrate_aws_research`.

The HTML parse is abstract. `extract_announcements` receives
`Some(candidates)`, one `(title, href, description)` triple per element the
parser picked. It receives `None` when the request or the parse raised.

The documentation reader is a parameter `read: string -> string` of
`extract_service_information` and `integrate_aws_research`.
`read_documentation_page` stands in for a call to a documentation service.
Its placeholder answer is modelled as `Documentation.ReadDocumentationPage`, the
lines of `Documentation.DocumentationPageLines` joined by line feeds.
The scanners' behaviour on that page is the subject of the finding below.
`extract_service_information` runs the feature and use-case scanners as
written. `Documentation.InfoFrom` takes a flag: `false` gives the source's
assembly, `true` the same assembly with the corrected scanners.

Three behaviours of the code are easy to misread; the model keeps them as
written:

- There is a single `extract_announcements`, and its scraping path is live.
- The curated sample list replaces the result only when fetching or parsing
  raises. A successful fetch that accepts nothing returns an empty list
  (`src/reinvent_research_automation.py:129-134`).
- Name inference keeps scanning after a trigger whose run is empty, for
  example a trigger that is the last token. It falls back to the capitalised
  tokens only when no trigger yields a run.

## Model

| member | source | states |
|---|---|---|
| TextUtil.ToLower | src/reinvent_research_automation.py:143 | `lower()` keeps the length and lowers each ASCII capital in place |
| TextUtil.ContainsIffOccurs | src/reinvent_research_automation.py:103-108 | the substring test `p in s` holds exactly when `p` occurs at some index of `s` |
| TextUtil.ContainsAnyIffSome | src/reinvent_research_automation.py:103-108 | `any(k in s for k in ks)` holds exactly when some keyword occurs in `s` |
| TextUtil.StripEmptyIffBlank | src/aws_documentation_integration.py:210 | `line.strip()` is empty exactly when the line is all whitespace |
| TextUtil.SplitTokens | src/reinvent_research_automation.py:139 | `split()` yields no empty token and no token containing whitespace |
| TextUtil.SplitJoinWords | src/reinvent_research_automation.py:152 | splitting `' '.join(words)` gives back `words` when no word is empty or holds whitespace |
| TextUtil.SplitJoinLines | src/aws_documentation_integration.py:205 | `split('\n')` inverts joining lines that hold no line feed |
| TextUtil.ReplaceCharAt | src/reinvent_research_automation.py:326 | replacing one character by another keeps the length and acts position by position |
| TextUtil.ReplaceCharByNothing | src/aws_documentation_integration.py:393 | `replace(' ', '')` leaves no space and never lengthens the text |
| BlogScraper.RunFrom | src/reinvent_research_automation.py:146-150 | the run of name parts from index `j` has at most `end - j` tokens |
| BlogScraper.RunFromShape | src/reinvent_research_automation.py:146-150 | the run is the slice starting at `j`; every token is a name part; it stops only at `end` or at a non-part |
| BlogScraper.TriggerRun | src/reinvent_research_automation.py:143-150 | a token contributes at most three following tokens, and only if it is a trigger |
| BlogScraper.TriggerRunShape | src/reinvent_research_automation.py:143-150 | a trigger's run is the slice right after it, holds only name parts drawn from the title, and is maximal |
| BlogScraper.TriggeredParts | src/reinvent_research_automation.py:142-152 | parts found by a trigger number between one and three |
| BlogScraper.TriggeredPartsFromTrigger | src/reinvent_research_automation.py:142-152 | found parts are the run of some trigger token |
| BlogScraper.CapitalisedMembers | src/reinvent_research_automation.py:155 | the fallback keeps exactly the tokens with an upper-case initial |
| BlogScraper.ExtractServiceName | src/reinvent_research_automation.py:136-155 | the scanning loop with early return computes the inferred name |
| BlogScraper.CollectNameParts | src/reinvent_research_automation.py:145-150 | the inner loop with `break` collects exactly the trigger's run |
| BlogScraper.FirstTriggerDecides | src/reinvent_research_automation.py:142-152 | the first trigger with a non-empty run decides the name |
| BlogScraper.NoTriggerRun | src/reinvent_research_automation.py:142-152 | with no trigger yielding a run, no parts are found |
| BlogScraper.InferWithTrigger | src/reinvent_research_automation.py:142-152 | trigger case: the name is the maximal run of one to three name parts after the first productive trigger |
| BlogScraper.InferWithoutTrigger | src/reinvent_research_automation.py:154-155 | fallback: the name's words are exactly the capitalised tokens among the first five, in order |
| BlogScraper.InferredNameWords | src/reinvent_research_automation.py:139-155 | every word of the name is a title token; at most three from a trigger and at most five otherwise |
| BlogScraper.InferPartsBedrock | src/reinvent_research_automation.py:142-152 | the tokens of "Amazon Bedrock announces Claude 3.5 Sonnet v2" give `["Bedrock"]` |
| BlogScraper.InferBedrockTokens | src/reinvent_research_automation.py:139-155 | any title that splits into those seven tokens is named "Bedrock" |
| BlogScraper.BedrockTitleTokens | src/reinvent_research_automation.py:139 | `split()` of the sample title "Amazon Bedrock announces Claude 3.5 Sonnet v2" gives its seven words |
| BlogScraper.InferBedrockExample | src/reinvent_research_automation.py:162 | that title's inferred name is "Bedrock", not the sample's "Amazon Bedrock" |
| BlogScraper.InferPartsTrailingTrigger | src/reinvent_research_automation.py:143 | a trigger that is the last token yields nothing, so the fallback decides |
| BlogScraper.InferTrailingTriggerTokens | src/reinvent_research_automation.py:139-155 | any title that splits into "Generally", "available", "on", "AWS" is named "Generally AWS" |
| BlogScraper.TrailingTitleTokens | src/reinvent_research_automation.py:139 | `split()` of "Generally available on AWS" gives its four words |
| BlogScraper.InferTrailingTriggerExample | src/reinvent_research_automation.py:155 | the title "Generally available on AWS" itself gives "Generally AWS" |
| BlogScraper.AbsoluteLink | src/reinvent_research_automation.py:116 | every stored link starts with "http" and ends with the scraped link; an "http" link is kept as it is |
| BlogScraper.AbsoluteLinkIdempotent | src/reinvent_research_automation.py:116 | making a link absolute twice is making it absolute once |
| BlogScraper.Accepted | src/reinvent_research_automation.py:103-118 | at most one record per candidate |
| BlogScraper.AcceptedFrom | src/reinvent_research_automation.py:103-118 | every record is built from a candidate whose title passes the filter |
| BlogScraper.CollectAnnouncements | src/reinvent_research_automation.py:87-118 | the appending loop builds one record per accepted candidate, in order |
| BlogScraper.AcceptedTitlesExact | src/reinvent_research_automation.py:103-118 | the accepted records' titles are exactly the titles of the candidates that pass the filter |
| BlogScraper.NothingAccepted | src/reinvent_research_automation.py:103-118 | candidates that all fail the filter give no records |
| BlogScraper.DedupeFrom | src/reinvent_research_automation.py:121-126 | de-duplication never lengthens the list |
| BlogScraper.DedupeFromSound | src/reinvent_research_automation.py:121-126 | kept records come from the input, carry each unseen title, and carry it once |
| BlogScraper.DedupeByTitle | src/reinvent_research_automation.py:121-126 | the seen-set loop computes the de-duplicated list |
| BlogScraper.DedupeSnoc | src/reinvent_research_automation.py:123-126 | appending a record appends it to the output exactly when its title is new |
| BlogScraper.DedupeKeepsFirstOccurrences | src/reinvent_research_automation.py:121-126 | the output is the subsequence of first occurrences, in input order |
| BlogScraper.DedupeOfDistinct | src/reinvent_research_automation.py:121-126 | a list with distinct, unseen titles passes through unchanged |
| BlogScraper.DedupeProperties | src/reinvent_research_automation.py:121-126 | distinct titles, the same title set, no growth, and idempotence |
| BlogScraper.DedupeExample | src/reinvent_research_automation.py:121-126 | `[A, B, A']` with `A'` titled like `A` gives `[A, B]` |
| BlogScraper.SampleAnnouncements | src/reinvent_research_automation.py:157-182 | the fixed list holds three records |
| BlogScraper.SampleAnnouncementsWellFormed | src/reinvent_research_automation.py:160-182 | the samples have distinct titles and link to pages of the AWS site |
| BlogScraper.ExtractAnnouncements | src/reinvent_research_automation.py:64-134 | the extraction computes the samples on failure, else the de-duplicated accepted records of the first fifty candidates |
| BlogScraper.ExtractedProperties | src/reinvent_research_automation.py:64-134 | at most fifty records, distinct titles, "http" links, and exactly the samples on failure |
| BlogScraper.ExtractedFromCandidates | src/reinvent_research_automation.py:87-129 | after a successful fetch: records come from accepted candidates among the first fifty; their title set is exactly that of the first fifty candidates that pass the filter; they carry the inferred service names, and are `[]` when nothing passes |
| ServiceResearch.SlugShape | src/reinvent_research_automation.py:326 | `lower().replace(' ', '-')` keeps the length and leaves no space or capital |
| ServiceResearch.SlugNormalises | src/reinvent_research_automation.py:326 | names equal up to case share a slug, and the slug is its own slug |
| ServiceResearch.ConsoleUrlShape | src/reinvent_research_automation.py:324-337 | the five known slugs give their mapped page, any other the page named by the slug; no space |
| ServiceResearch.ConsolePathsHaveNoSpace | src/reinvent_research_automation.py:329-335 | the mapped pages contain no space |
| ServiceResearch.ConsoleUrlIgnoresCase | src/reinvent_research_automation.py:326-337 | the console URL ignores the letter case of the name |
| ServiceResearch.ConsoleUrlBedrock | src/reinvent_research_automation.py:330 | "amazon-bedrock" maps to the Bedrock page, not to the default |
| ServiceResearch.ServiceDocsUrlShape | src/reinvent_research_automation.py:232-234 | the documentation directory lies on the docs site, is named by the slug, has no space and ignores case |
| ServiceResearch.ResearchServiceShape | src/reinvent_research_automation.py:200-235 | the name is echoed, with 3 problems, 4 benefits, one five-step example naming the service and one documentation URL |
| ServiceResearch.ResearchIgnoresDescription | src/reinvent_research_automation.py:188-237 | the description argument does not affect the record |
| Documentation.ResultUrls | src/aws_documentation_integration.py:196 | the URL list has one entry per result, each result's URL in order |
| Documentation.ResultTitles | src/aws_documentation_integration.py:197 | the title list has one entry per result, each result's title in order |
| Documentation.SearchUrlsIgnoreCase | src/aws_documentation_integration.py:56-73 | the result URLs depend on the name only through its lower-case form |
| Documentation.SearchResultsShape | src/aws_documentation_integration.py:57-73 | three results titled by the name, pointing to three different pages of the user guide |
| Documentation.SearchUrlsInDocsDir | src/aws_documentation_integration.py:60-70 | every result lies in the service's documentation directory |
| Documentation.RecommendationsShape | src/aws_documentation_integration.py:147-163 | "Best Practices", "Security", "Monitoring" at `url` + "/best-practices", "/security", "/monitoring", in order |
| Documentation.DocumentationPageLines | src/aws_documentation_integration.py:101-123 | the placeholder page has 23 lines |
| Documentation.PageLayout | src/aws_documentation_integration.py:107-117 | the page's headings sit at lines 6, 11 and 16, each followed by its three items and a blank line |
| Documentation.PageFeaturesSection | src/aws_documentation_integration.py:107-112 | lines 6 to 11 of the page: a trigger heading, three bullets with a trigger word whose texts are the three features, a blank line, and a heading without a trigger |
| Documentation.PageUseCasesSection | src/aws_documentation_integration.py:112-117 | lines 11 to 16 of the page: the same shape for the use cases |
| Documentation.FeaturesSectionAt | src/aws_documentation_integration.py:107-112 | any lines laid out like the features section have its shape |
| Documentation.UseCasesSectionAt | src/aws_documentation_integration.py:112-117 | any lines laid out like the use-cases section have its shape |
| Documentation.ParagraphAfter | src/aws_documentation_integration.py:209-211 | a paragraph found lies within the lines searched |
| Documentation.ExtractOverview | src/aws_documentation_integration.py:202-213 | the nested loops with early return compute the overview |
| Documentation.ParagraphAfterFinds | src/aws_documentation_integration.py:209-211 | the inner loop finds the paragraph a heading offers |
| Documentation.ParagraphAfterNone | src/aws_documentation_integration.py:209-211 | a heading that offers no paragraph lets the outer loop continue |
| Documentation.ParagraphAfterSome | src/aws_documentation_integration.py:209-211 | what the inner loop finds is a paragraph the heading offers |
| Documentation.OverviewIsFirstParagraph | src/aws_documentation_integration.py:205-211 | the overview is the stripped first non-blank, non-heading line among the four after the first heading that has one |
| Documentation.OverviewDefaults | src/aws_documentation_integration.py:213 | with no such line the overview is the default sentence |
| Documentation.OverviewNotEmpty | src/aws_documentation_integration.py:202-213 | the overview is never empty: the default, or an offered paragraph |
| Documentation.ScanSection | src/aws_documentation_integration.py:220-229 | the section loop with its flag, cap and `break` computes the section items |
| Documentation.ExtractFeaturesAsWritten | src/aws_documentation_integration.py:215-240 | `_extract_features` as written: scanned items, or the five defaults |
| Documentation.ExtractFeatures | src/aws_documentation_integration.py:215-240 | the features scanner with the bullet test first inside the section |
| Documentation.ExtractUseCasesAsWritten | src/aws_documentation_integration.py:242-267 | `_extract_use_cases` as written: scanned items, or the five defaults |
| Documentation.ExtractUseCases | src/aws_documentation_integration.py:242-267 | the use-cases scanner with the bullet test first inside the section |
| Documentation.SectionItemsGrow | src/aws_documentation_integration.py:225-227 | the scan keeps what it collected and stops by five items |
| Documentation.SectionItemsFromBullets | src/aws_documentation_integration.py:220-225 | every added item is the dash-less, stripped text of a collectable bullet line `k` that comes after a trigger line `t < k` |
| Documentation.ExtractedItemsShape | src/aws_documentation_integration.py:215-267 | one to five items; each scanned item is the text of a bullet line after a trigger line (as written, a bullet without a trigger word) |
| Documentation.TriggerLineNeverCollected | src/aws_documentation_integration.py:220-225 | as written, every item is the text of a bullet line that holds no trigger word and follows a line that holds one |
| Documentation.HeadingIsNotBullet | src/aws_documentation_integration.py:224-228 | a '#' line is never taken for a bullet |
| Documentation.ScanStopsAtHeading | src/aws_documentation_integration.py:228-229 | once the section is open, a heading without a trigger word ends the scan: later lines do not matter |
| Documentation.OutsideUntilTrigger | src/aws_documentation_integration.py:221-223 | before the first trigger line every line is skipped |
| Documentation.ThreeTriggerBullets | src/aws_documentation_integration.py:221-229 | three trigger-word bullets then a heading: as written nothing is collected, corrected all three are |
| Documentation.ThreeItemPage | src/aws_documentation_integration.py:215-267 | a page with a trigger heading and three trigger-word bullets: as written `[]`, corrected the three texts |
| Documentation.FeatureItems | src/aws_documentation_integration.py:108-110 | the page's three feature items are bullets with the trigger word "feature" |
| Documentation.UseCaseItems | src/aws_documentation_integration.py:113-115 | the page's three use-case items are bullets with the trigger "use case" |
| Documentation.KeyFeaturesHeading | src/aws_documentation_integration.py:107 | "## Key Features" is a heading with the trigger "key" |
| Documentation.UseCasesHeadingEndsFeatures | src/aws_documentation_integration.py:112 | "## Use Cases" is a heading without a features trigger, so it ends that section |
| Documentation.UseCasesHeadingOpensUseCases | src/aws_documentation_integration.py:112 | "## Use Cases" holds the trigger "use case" |
| Documentation.GettingStartedEndsUseCases | src/aws_documentation_integration.py:117 | "## Getting Started" is a heading without "use case", so it ends that section |
| Documentation.InfoFromUrls | src/aws_documentation_integration.py:178-198 | the extracted information depends on the results only through their URLs |
| Documentation.InfoUrlsFirstThree | src/aws_documentation_integration.py:196 | the documentation URLs are those of the first (at most) three results, in order |
| Documentation.InfoWithoutResults | src/aws_documentation_integration.py:181-197 | with no results nothing is read: default overview, features and use cases, no URLs, no topics |
| Documentation.InfoShape | src/aws_documentation_integration.py:165-200 | three user-guide URLs, the three topics, a non-empty overview, one to five features and use cases |
| Documentation.DocumentationIntegration.constructor | src/aws_documentation_integration.py:27-30 | the search cache starts empty |
| Documentation.DocumentationIntegration.SearchServiceDocumentation | src/aws_documentation_integration.py:32-75 | keyed by the lower-case name; a hit returns the first caller's list unchanged, a miss adds this caller's results; always three results with a fresh search's URLs |
| Documentation.DocumentationIntegration.ExtractServiceInformation | src/aws_documentation_integration.py:165-200 | a cache hit leaves the cache as it was and a miss adds the name's entry; the information is that of a fresh search, assembled with the scanners as written |
| Documentation.DocumentationIntegration.InfoFromResults | src/aws_documentation_integration.py:181-198 | reading, recommending and the as-written scanners compute the information for the given results |
| Pricing.Matching | src/aws_documentation_integration.py:316 | the filter never lengthens the list |
| Pricing.MatchingMembers | src/aws_documentation_integration.py:316 | a code is kept exactly when its lower-case form contains the lower-case filter |
| Pricing.MatchingFirst | src/aws_documentation_integration.py:316 | the filter keeps catalogue order: it is empty exactly when nothing matches, and its head is the first match |
| Pricing.MatchingEmpty | src/aws_documentation_integration.py:315-318 | filtering by "" changes nothing |
| Pricing.FilteredMembers | src/aws_documentation_integration.py:303-318 | a catalogue code is returned exactly when there is no filter or it matches; "" acts as no filter |
| Pricing.CleanNameShape | src/aws_documentation_integration.py:393 | the cleaned name has no space and is no longer than the name |
| Pricing.CodeForMeaning | src/aws_documentation_integration.py:393-400 | a code is found exactly when the cleaned name is empty or matches some code; it is the first match in catalogue order |
| Pricing.CodeForBlankName | src/aws_documentation_integration.py:393-398 | a name that cleans to "" gets "AmazonBedrock" |
| Pricing.CodeForBedrock | src/aws_documentation_integration.py:393-398 | "Amazon Bedrock" finds "AmazonBedrock" |
| Pricing.CleanBedrock | src/aws_documentation_integration.py:393 | "Amazon Bedrock" cleans to "Bedrock" |
| Pricing.CodeForIgnoresCase | src/aws_documentation_integration.py:316 | cleaned names equal up to case find the same code |
| Pricing.PricingInfoFixed | src/aws_documentation_integration.py:369-380 | the pricing terms echo code and region and are otherwise the same for every code and region |
| Pricing.PricingForShape | src/aws_documentation_integration.py:415-440 | echoes the name; available exactly when a code is found, then with that catalogue code and the default region's pricing model, free tier, cost estimate and details, and the four dimensions location, instanceType, operatingSystem, tenancy; otherwise the fixed message |
| Pricing.PricingIntegration.constructor | src/aws_documentation_integration.py:277-279 | the code cache starts empty |
| Pricing.PricingIntegration.GetServiceCodes | src/aws_documentation_integration.py:281-318 | a missing or empty cache is filled with the catalogue and a filled one is kept; the result is the filtered cache |
| Pricing.PricingIntegration.FindServiceCode | src/aws_documentation_integration.py:382-400 | the cleaned name's first matching code, or none |
| Pricing.PricingIntegration.GetComprehensivePricing | src/aws_documentation_integration.py:402-440 | the pricing record for the name, with the cache holding the catalogue |
| Integration.IntegrateAwsResearch | src/aws_documentation_integration.py:443-512 | the combined record of a fresh documentation extraction and the name's pricing record |
| Integration.IntegratedShape | src/aws_documentation_integration.py:470-485 | benefits equal key features; 4 problems; the three guide URLs and topics; non-empty overview; pricing available exactly when a code is found |
| Integration.IntegratedExamples | src/aws_documentation_integration.py:486-509 | two five-step walk-throughs naming the service, the first the research record's "Basic Setup" |
| Integration.IntegratedAgreesWithResearch | src/aws_documentation_integration.py:484 | every documentation URL lies in the directory `research_service` lists |

## Left out

- The HTTP session, the request, `raise_for_status` and the BeautifulSoup element and description search are network I/O and a foreign library. They become the abstract candidate list and `None` for any exception.
- The `extracted_at` time stamps come from the wall clock and are omitted. So is logging.
- `AWSConsoleScreenshotter` apart from `_get_service_console_url` drives Selenium. `PresentationGenerator` renders with python-pptx. `ReInventResearchAutomation` is orchestration and file output. None of them is modelled.
- The documentation and pricing services are never called by the code. Their placeholder answers are modelled as written. The exception is `read_documentation_page`, which is the `read` parameter.
- `pricing_cache` is created by `AWSDocumentationIntegration.__init__` and never used, so it is not modelled.
- `max_length` of `read_documentation_page` is ignored by the code and is not modelled.
- `Documentation.ThreeItemPage`: proved for every page with the placeholder page's shape. `Documentation.PageFeaturesSection` and `Documentation.PageUseCasesSection` prove that the page's lines have that shape at lines 6 and 11. Its instantiation on the whole placeholder text is not proved. Two facts are missing: that the lines before each section hold no trigger word, and that the text `Documentation.ReadDocumentationPage` returns splits back into its lines. Each needs a character-by-character check of about 400 characters of literal text, beyond what the verifier handles cheaply.
- `get_service_pricing_attributes` and `get_pricing_info` are placeholders and are modelled as the functions `PricingAttributes` and `GetPricingInfo`.
- Casing and whitespace are ASCII only. Unicode case mapping and Unicode whitespace are not modelled.

## Findings

| source | as written | input that shows it | evidently intended | confidence | as-written member | corrected member |
|---|---|---|---|---|---|---|
| src/aws_documentation_integration.py:221-225 and :248-252 | the trigger-word test comes before the bullet test, so inside a section any bullet that mentions "feature", "key" or "use case" only re-opens the section and is never collected | the module's own placeholder page (:101-123): its bullets read "Feature 1: ...", "Use case 1: ...", so both scanners return their five defaults | inside the section, collect bullets first, and treat only other lines as triggers or section ends | not executed | Documentation.ExtractFeaturesAsWritten, Documentation.ExtractUseCasesAsWritten, Documentation.ThreeItemPage, Documentation.TriggerLineNeverCollected | Documentation.ExtractFeatures, Documentation.ExtractUseCases |
