/**
  The announcement-normalisation core of `BlogScraper`: service-name
  inference from a title, the title acceptance filter, link absolutisation,
  the 50-candidate cap, first-wins de-duplication by title and the fixed
  sample list that replaces a failed fetch.

  The HTTP request and the HTML parse are not modelled: the page arrives as
  `Some(candidates)`, one `(title, href, description)` triple per element the
  parser picked, or as `None` when fetching or parsing raised.  The sample
  announcements' texts are written as concatenations of shorter literals:
  the value is the same, and the verifier handles short literals far more
  cheaply than long ones.
 */
module BlogScraper {
  import opened Wrappers
  import opened TextUtil

  /** One element the parser picked: its text, its `href` (empty when the
      element is not a link) and the description found beside it (or ""). */
  datatype Candidate = Candidate(title: string, href: string, description: string)

  /** An announcement record; the `extracted_at` time stamp is not modelled. */
  datatype Announcement = Announcement(
    title: string,
    serviceName: string,
    description: string,
    link: string)

  // ================================================================
  // Service-name inference (`_extract_service_name`)
  // ================================================================

  const TriggerWords: seq<string> := ["amazon", "aws"]
  const LowercaseServices: seq<string> := ["s3", "ec2", "rds", "eks", "ecs"]

  /** A token that introduces a service name, in any letter case. */
  predicate IsTrigger(word: string) {
    ToLower(word) in TriggerWords
  }

  /** A token that may belong to a service name: an upper-case initial or one
      of the lower-case abbreviations the scraper knows. */
  predicate IsNamePart(word: string) {
    (|word| > 0 && IsUpper(word[0])) || ToLower(word) in LowercaseServices
  }

  /** A token the fallback keeps: non-empty with an upper-case initial. */
  predicate IsCapitalised(word: string) {
    |word| > 0 && IsUpper(word[0])
  }

  /** The longest run of name parts among `words[j..end]` that starts at `j`. */
  function RunFrom(words: seq<string>, j: nat, end: nat): (run: seq<string>)
    requires j <= end <= |words|
    ensures |run| <= end - j
    decreases end - j
  {
    if j < end && IsNamePart(words[j]) then [words[j]] + RunFrom(words, j + 1, end) else []
  }

  /** The run is the slice of `words` it starts at, made of name parts, and it
      stops only at `end` or at a token that is not a name part. */
  lemma {:induction false} RunFromShape(words: seq<string>, j: nat, end: nat)
    requires j <= end <= |words|
    ensures var run := RunFrom(words, j, end);
      && run == words[j..j + |run|]
      && (forall k :: 0 <= k < |run| ==> IsNamePart(run[k]))
      && (j + |run| < end ==> !IsNamePart(words[j + |run|]))
    decreases end - j
  {
    if j < end && IsNamePart(words[j]) {
      RunFromShape(words, j + 1, end);
      var rest := RunFrom(words, j + 1, end);
      assert RunFrom(words, j, end) == [words[j]] + rest;
      assert words[j..j + 1 + |rest|] == [words[j]] + words[j + 1..j + 1 + |rest|];
    }
  }

  /** The parts a token at index `i` contributes: when it is a trigger with a
      token after it, the run of at most three name parts that follows it. */
  function TriggerRun(words: seq<string>, i: nat): (run: seq<string>)
    requires i < |words|
    ensures |run| <= 3 && i + 1 + |run| <= |words|
    ensures run != [] ==> IsTrigger(words[i])
  {
    if IsTrigger(words[i]) && i + 1 < |words| then RunFrom(words, i + 1, Min(i + 4, |words|))
    else []
  }

  /** A trigger's run is the slice right after it, holds only name parts and
      is maximal: it ends after three parts, at the last token, or before a
      token that is not a name part. */
  lemma TriggerRunShape(words: seq<string>, i: nat)
    requires i < |words|
    ensures var run := TriggerRun(words, i);
      && run == words[i + 1..i + 1 + |run|]
      && (forall k :: 0 <= k < |run| ==> IsNamePart(run[k]))
      && (forall w :: w in run ==> w in words)
      && (IsTrigger(words[i]) && |run| < 3 && i + 1 + |run| < |words| ==> !IsNamePart(words[i + 1 + |run|]))
  {
    var run := TriggerRun(words, i);
    if IsTrigger(words[i]) && i + 1 < |words| {
      RunFromShape(words, i + 1, Min(i + 4, |words|));
    }
    forall w | w in run ensures w in words {
      var k :| 0 <= k < |run| && run[k] == w;
      assert words[i + 1 + k] == w;
    }
  }

  /** The run of the first trigger at or after index `i` whose run is not
      empty, or `None` when there is no such trigger. */
  function TriggeredParts(words: seq<string>, i: nat): (r: Option<seq<string>>)
    requires i <= |words|
    ensures r.Some? ==> 1 <= |r.value| <= 3
    decreases |words| - i
  {
    if i == |words| then None
    else
      var run := TriggerRun(words, i);
      if run != [] then Some(run) else TriggeredParts(words, i + 1)
  }

  /** Found parts are the run of some trigger token at or after `i`. */
  lemma {:induction false} TriggeredPartsFromTrigger(words: seq<string>, i: nat)
    requires i <= |words|
    requires TriggeredParts(words, i).Some?
    ensures exists j :: i <= j < |words| && TriggeredParts(words, i).value == TriggerRun(words, j)
    decreases |words| - i
  {
    if TriggerRun(words, i) == [] {
      TriggeredPartsFromTrigger(words, i + 1);
    }
  }

  /** The capitalised tokens of `words`, in order. */
  function Capitalised(words: seq<string>): (r: seq<string>)
    ensures |r| <= |words|
  {
    if words == [] then []
    else (if IsCapitalised(words[0]) then [words[0]] else []) + Capitalised(words[1..])
  }

  /** The fallback keeps exactly the capitalised tokens. */
  lemma {:induction false} CapitalisedMembers(words: seq<string>)
    ensures forall w :: w in Capitalised(words) <==> w in words && IsCapitalised(w)
  {
    if words != [] {
      CapitalisedMembers(words[1..]);
      assert words == [words[0]] + words[1..];
    }
  }

  /** The tokens the inferred name is made of. */
  function InferParts(words: seq<string>): seq<string> {
    match TriggeredParts(words, 0)
    case Some(parts) => parts
    case None => Capitalised(words[..Min(5, |words|)])
  }

  /** The service name `_extract_service_name` infers from `title`. */
  function InferServiceName(title: string): string {
    JoinWords(InferParts(Split(title)))
  }

  /** `_extract_service_name`: scan the tokens for a trigger whose following
      name parts are not empty; otherwise keep the capitalised tokens among
      the first five. */
  method ExtractServiceName(title: string) returns (name: string)
    ensures name == InferServiceName(title)
  {
    var words := Split(title);
    var i := 0;
    while i < |words|
      invariant 0 <= i <= |words|
      invariant TriggeredParts(words, i) == TriggeredParts(words, 0)
    {
      if IsTrigger(words[i]) && i + 1 < |words| {
        var parts := CollectNameParts(words, i);
        assert parts == TriggerRun(words, i);
        if parts != [] {
          return JoinWords(parts);
        }
      }
      i := i + 1;
    }
    name := JoinWords(Capitalised(words[..Min(5, |words|)]));
  }

  /** The inner loop of `_extract_service_name`: append the tokens after the
      trigger at `i`, at most three, until one is not a name part. */
  method CollectNameParts(words: seq<string>, i: nat) returns (parts: seq<string>)
    requires i + 1 < |words|
    ensures parts == RunFrom(words, i + 1, Min(i + 4, |words|))
  {
    parts := [];
    var j := i + 1;
    var end := Min(i + 4, |words|);
    while j < end
      invariant i + 1 <= j <= end
      invariant parts + RunFrom(words, j, end) == RunFrom(words, i + 1, end)
    {
      if IsNamePart(words[j]) {
        ghost var rest := RunFrom(words, j + 1, end);
        assert RunFrom(words, j, end) == [words[j]] + rest;
        assert (parts + [words[j]]) + rest == parts + ([words[j]] + rest);
        parts := parts + [words[j]];
      } else {
        assert RunFrom(words, j, end) == [];
        assert parts + [] == parts;
        break;
      }
      j := j + 1;
    }
    assert parts + [] == parts;
  }

  /** The first trigger (from index `from` on) whose run is not empty decides. */
  lemma {:induction false} FirstTriggerDecides(words: seq<string>, from: nat, i: nat)
    requires from <= i < |words|
    requires TriggerRun(words, i) != []
    requires forall k :: from <= k < i ==> TriggerRun(words, k) == []
    ensures TriggeredParts(words, from) == Some(TriggerRun(words, i))
    decreases i - from
  {
    if from < i {
      FirstTriggerDecides(words, from + 1, i);
    }
  }

  /** With no trigger yielding a run, no parts are found from `from` on. */
  lemma {:induction false} NoTriggerRun(words: seq<string>, from: nat)
    requires from <= |words|
    requires forall k :: from <= k < |words| ==> TriggerRun(words, k) == []
    ensures TriggeredParts(words, from) == None
    decreases |words| - from
  {
    if from < |words| {
      NoTriggerRun(words, from + 1);
    }
  }

  /** Trigger case: the name is the maximal run of at most three name parts
      right after the first trigger token whose run is not empty. */
  lemma InferWithTrigger(title: string, i: nat)
    requires i < |Split(title)|
    requires TriggerRun(Split(title), i) != []
    requires forall k :: 0 <= k < i ==> TriggerRun(Split(title), k) == []
    ensures InferParts(Split(title)) == TriggerRun(Split(title), i)
    ensures 1 <= |InferParts(Split(title))| <= 3
    ensures Split(InferServiceName(title)) == InferParts(Split(title))
  {
    var words := Split(title);
    FirstTriggerDecides(words, 0, i);
    TriggerRunShape(words, i);
    SplitTokens(title);
    SplitJoinWords(TriggerRun(words, i));
  }

  /** Fallback case: when no trigger yields a name part (a trigger that is
      the last token included), the name is the capitalised tokens among the
      first five, joined by single spaces; it may be empty. */
  lemma InferWithoutTrigger(title: string)
    requires forall k :: 0 <= k < |Split(title)| ==> TriggerRun(Split(title), k) == []
    ensures var words := Split(title);
      && InferParts(words) == Capitalised(words[..Min(5, |words|)])
      && |InferParts(words)| <= 5
      && (forall w :: w in InferParts(words) <==> w in words[..Min(5, |words|)] && IsCapitalised(w))
      && Split(InferServiceName(title)) == InferParts(words)
  {
    var words := Split(title);
    NoTriggerRun(words, 0);
    var parts := Capitalised(words[..Min(5, |words|)]);
    CapitalisedMembers(words[..Min(5, |words|)]);
    assert forall w :: w in words[..Min(5, |words|)] ==> w in words;
    SplitTokens(title);
    SplitJoinWords(parts);
  }

  /** Every word of an inferred name is a token of the title; there are at
      most three when a trigger decided and at most five otherwise. */
  lemma InferredNameWords(title: string)
    ensures var words, parts := Split(title), InferParts(Split(title));
      && Split(InferServiceName(title)) == parts
      && (forall w :: w in parts ==> w in words)
      && |parts| <= 5
      && (TriggeredParts(words, 0).Some? ==> 1 <= |parts| <= 3)
  {
    var words := Split(title);
    SplitTokens(title);
    match TriggeredParts(words, 0)
    case Some(parts) =>
      TriggeredPartsFromTrigger(words, 0);
      var j :| 0 <= j < |words| && parts == TriggerRun(words, j);
      TriggerRunShape(words, j);
      SplitJoinWords(parts);
    case None =>
      CapitalisedMembers(words[..Min(5, |words|)]);
      assert forall w :: w in words[..Min(5, |words|)] ==> w in words;
      SplitJoinWords(InferParts(words));
  }

  /** The tokens of the example title the scraper's authors give: the run
      after "Amazon" stops at the lower-case "announces". */
  lemma InferPartsBedrock()
    ensures InferParts(["Amazon", "Bedrock", "announces", "Claude", "3.5", "Sonnet", "v2"]) == ["Bedrock"]
  {
    assert ToLower("Amazon") == "amazon";
    assert RunFrom(["Amazon", "Bedrock", "announces", "Claude", "3.5", "Sonnet", "v2"], 1, 4) == ["Bedrock"];
  }

  /** A title whose tokens are those of the example gives "Bedrock". */
  lemma InferBedrockTokens(title: string)
    requires Split(title) == ["Amazon", "Bedrock", "announces", "Claude", "3.5", "Sonnet", "v2"]
    ensures InferServiceName(title) == "Bedrock"
  {
    InferPartsBedrock();
  }

  /** The example title "Amazon Bedrock announces Claude 3.5 Sonnet v2" gives
      "Bedrock". */
  lemma InferBedrockExample()
    ensures InferServiceName("Amazon Bedrock announces Claude 3.5 Sonnet v2") == "Bedrock"
  {
    BedrockTitleTokens("Amazon Bedrock announces Claude 3.5 Sonnet v2");
    InferBedrockTokens("Amazon Bedrock announces Claude 3.5 Sonnet v2");
  }

  /** The example title splits into its seven words. */
  lemma BedrockTitleTokens(t: string)
    requires t == "Amazon Bedrock announces Claude 3.5 Sonnet v2"
    ensures Split(t) == ["Amazon", "Bedrock", "announces", "Claude", "3.5", "Sonnet", "v2"]
  {
    BedrockTitleJoined(t);
    BedrockWordsWellFormed();
    SplitSevenWords(t, "Amazon", "Bedrock", "announces", "Claude", "3.5", "Sonnet", "v2");
  }

  lemma BedrockTitleJoined(t: string)
    requires t == "Amazon Bedrock announces Claude 3.5 Sonnet v2"
    ensures t == "Amazon" + (" " + ("Bedrock" + (" " + ("announces" + (" " + ("Claude" + (" " + ("3.5" + (" " + ("Sonnet" + (" " + "v2")))))))))))
  {
  }

  lemma BedrockWordsWellFormed()
    ensures forall w :: w in ["Amazon", "Bedrock", "announces", "Claude", "3.5", "Sonnet", "v2"] ==> w != [] && NoSpace(w)
  {
  }

  /** Seven well-formed words joined by single spaces split back into
      themselves.  The join is bracketed the way `JoinWords` builds it. */
  lemma SplitSevenWords(s: string, a: string, b: string, c: string, d: string, e: string, f: string, g: string)
    requires forall w :: w in [a, b, c, d, e, f, g] ==> w != [] && NoSpace(w)
    requires s == a + (" " + (b + (" " + (c + (" " + (d + (" " + (e + (" " + (f + (" " + g)))))))))))
    ensures Split(s) == [a, b, c, d, e, f, g]
  {
    var words := [a, b, c, d, e, f, g];
    SplitJoinWords(words);
    assert JoinWords(words[6..]) == g;
    assert JoinWords(words[5..]) == f + (" " + g) by { assert words[5..][1..] == words[6..]; }
    assert JoinWords(words[4..]) == e + (" " + JoinWords(words[5..])) by { assert words[4..][1..] == words[5..]; }
    assert JoinWords(words[3..]) == d + (" " + JoinWords(words[4..])) by { assert words[3..][1..] == words[4..]; }
    assert JoinWords(words[2..]) == c + (" " + JoinWords(words[3..])) by { assert words[2..][1..] == words[3..]; }
    assert JoinWords(words[1..]) == b + (" " + JoinWords(words[2..])) by { assert words[1..][1..] == words[2..]; }
    assert JoinWords(words) == a + (" " + JoinWords(words[1..]));
  }

  /** A trigger that is the last token yields nothing, so the fallback keeps
      the capitalised tokens, the trigger itself among them. */
  lemma InferPartsTrailingTrigger()
    ensures InferParts(["Generally", "available", "on", "AWS"]) == ["Generally", "AWS"]
  {
    var words := ["Generally", "available", "on", "AWS"];
    assert ToLower("Generally") == "generally";
    assert ToLower("available") == "available";
    assert ToLower("on") == "on";
    assert TriggerRun(words, 0) == [] && TriggerRun(words, 1) == [];
    assert TriggerRun(words, 2) == [] && TriggerRun(words, 3) == [];
    NoTriggerRun(words, 0);
    assert words[..4] == words;
  }

  /** A title whose tokens are "Generally available on AWS" gives
      "Generally AWS". */
  lemma InferTrailingTriggerTokens(title: string)
    requires Split(title) == ["Generally", "available", "on", "AWS"]
    ensures InferServiceName(title) == "Generally AWS"
  {
    InferPartsTrailingTrigger();
    assert ["Generally", "AWS"][1..] == ["AWS"];
  }

  /** "Generally available on AWS" gives "Generally AWS". */
  lemma InferTrailingTriggerExample()
    ensures InferServiceName("Generally available on AWS") == "Generally AWS"
  {
    TrailingTitleTokens("Generally available on AWS");
    InferTrailingTriggerTokens("Generally available on AWS");
  }

  /** The trailing-trigger title splits into its four words. */
  lemma TrailingTitleTokens(t: string)
    requires t == "Generally available on AWS"
    ensures Split(t) == ["Generally", "available", "on", "AWS"]
  {
    SplitFourWords(t, "Generally", "available", "on", "AWS");
  }

  /** Four well-formed words joined by single spaces split back into themselves. */
  lemma SplitFourWords(s: string, a: string, b: string, c: string, d: string)
    requires forall w :: w in [a, b, c, d] ==> w != [] && NoSpace(w)
    requires s == a + (" " + (b + (" " + (c + (" " + d)))))
    ensures Split(s) == [a, b, c, d]
  {
    var words := [a, b, c, d];
    SplitJoinWords(words);
    assert JoinWords(words[3..]) == d;
    assert JoinWords(words[2..]) == c + (" " + d) by { assert words[2..][1..] == words[3..]; }
    assert JoinWords(words[1..]) == b + (" " + JoinWords(words[2..])) by { assert words[1..][1..] == words[2..]; }
    assert JoinWords(words) == a + (" " + JoinWords(words[1..]));
  }

  // ================================================================
  // Filter, link and record construction (`extract_announcements`)
  // ================================================================

  const TitleKeywords: seq<string> := [
    "aws", "amazon", "launch", "announce", "new", "service",
    "feature", "available", "now", "general availability", "ga"
  ]

  /** The acceptance test: a non-empty title longer than ten characters whose
      lower-case form contains one of the eleven keywords. */
  predicate IsAnnouncementTitle(title: string) {
    title != [] && |title| > 10 && ContainsAny(ToLower(title), TitleKeywords)
  }

  const BaseOrigin: string := "https://aws.amazon.com"

  /** A link starting with "http" is kept; any other is appended to the base origin. */
  function AbsoluteLink(link: string): (r: string)
    ensures StartsWith(r, "http")
    ensures |link| <= |r| && r[|r| - |link|..] == link
    ensures StartsWith(link, "http") ==> r == link
  {
    if StartsWith(link, "http") then link else BaseOrigin + link
  }

  lemma AbsoluteLinkIdempotent(link: string)
    ensures AbsoluteLink(AbsoluteLink(link)) == AbsoluteLink(link)
  {
  }

  function ToAnnouncement(c: Candidate): Announcement {
    Announcement(c.title, InferServiceName(c.title), c.description, AbsoluteLink(c.href))
  }

  /** The records built from the accepted candidates, in candidate order. */
  function Accepted(cands: seq<Candidate>): (anns: seq<Announcement>)
    ensures |anns| <= |cands|
    decreases |cands|
  {
    if cands == [] then []
    else
      var init, last := cands[..|cands| - 1], cands[|cands| - 1];
      Accepted(init) + (if IsAnnouncementTitle(last.title) then [ToAnnouncement(last)] else [])
  }

  /** Every record comes from an accepted candidate. */
  lemma {:induction false} AcceptedFrom(cands: seq<Candidate>)
    ensures forall a :: a in Accepted(cands) ==>
      exists c :: c in cands && IsAnnouncementTitle(c.title) && a == ToAnnouncement(c)
    decreases |cands|
  {
    if cands != [] {
      var init, last := cands[..|cands| - 1], cands[|cands| - 1];
      AcceptedFrom(init);
      assert forall c :: c in init ==> c in cands;
      assert last in cands;
    }
  }

  /** The loop of `extract_announcements` that appends one record per accepted candidate. */
  method CollectAnnouncements(cands: seq<Candidate>) returns (anns: seq<Announcement>)
    ensures anns == Accepted(cands)
  {
    anns := [];
    var i := 0;
    while i < |cands|
      invariant 0 <= i <= |cands|
      invariant anns == Accepted(cands[..i])
    {
      var c := cands[i];
      assert cands[..i + 1][..i] == cands[..i];
      assert Accepted(cands[..i + 1])
          == anns + (if IsAnnouncementTitle(c.title) then [ToAnnouncement(c)] else []);
      if IsAnnouncementTitle(c.title) {
        var serviceName := ExtractServiceName(c.title);
        anns := anns + [Announcement(c.title, serviceName, c.description, AbsoluteLink(c.href))];
      }
      i := i + 1;
    }
    assert cands[..i] == cands;
  }

  // ================================================================
  // De-duplication by title, first occurrence wins
  // ================================================================

  function Titles(anns: seq<Announcement>): set<string> {
    set a | a in anns :: a.title
  }

  predicate DistinctTitles(anns: seq<Announcement>) {
    forall i, j :: 0 <= i < j < |anns| ==> anns[i].title != anns[j].title
  }

  lemma TitlesCons(anns: seq<Announcement>)
    requires anns != []
    ensures Titles(anns) == {anns[0].title} + Titles(anns[1..])
  {
    assert forall a :: a in anns <==> a == anns[0] || a in anns[1..];
  }

  /** The records of `anns` whose title is neither in `seen` nor on an
      earlier record of `anns`, in order. */
  function DedupeFrom(anns: seq<Announcement>, seen: set<string>): (r: seq<Announcement>)
    ensures |r| <= |anns|
    decreases |anns|
  {
    if anns == [] then []
    else
      var a := anns[0];
      if a.title in seen then DedupeFrom(anns[1..], seen)
      else [a] + DedupeFrom(anns[1..], seen + {a.title})
  }

  /** The kept records come from `anns`, carry each title of `anns` not in
      `seen` and carry it once. */
  lemma DedupeFromSound(anns: seq<Announcement>, seen: set<string>)
    ensures var r := DedupeFrom(anns, seen);
      && (forall a :: a in r ==> a in anns)
      && Titles(r) == Titles(anns) - seen
      && DistinctTitles(r)
  {
    DedupeFromKept(anns, seen);
    DedupeFromTitles(anns, seen);
    DedupeFromDistinct(anns, seen);
  }

  lemma {:induction false} DedupeFromKept(anns: seq<Announcement>, seen: set<string>)
    ensures forall a :: a in DedupeFrom(anns, seen) ==> a in anns
    decreases |anns|
  {
    if anns != [] {
      var a := anns[0];
      if a.title in seen {
        DedupeFromKept(anns[1..], seen);
      } else {
        DedupeFromKept(anns[1..], seen + {a.title});
      }
    }
  }

  lemma {:induction false} DedupeFromTitles(anns: seq<Announcement>, seen: set<string>)
    ensures Titles(DedupeFrom(anns, seen)) == Titles(anns) - seen
    decreases |anns|
  {
    if anns != [] {
      var a := anns[0];
      TitlesCons(anns);
      if a.title in seen {
        DedupeFromTitles(anns[1..], seen);
      } else {
        var rest := DedupeFrom(anns[1..], seen + {a.title});
        DedupeFromTitles(anns[1..], seen + {a.title});
        TitlesCons([a] + rest);
        assert ([a] + rest)[1..] == rest;
      }
    }
  }

  lemma {:induction false} DedupeFromDistinct(anns: seq<Announcement>, seen: set<string>)
    ensures DistinctTitles(DedupeFrom(anns, seen))
    decreases |anns|
  {
    if anns != [] {
      var a := anns[0];
      if a.title in seen {
        DedupeFromDistinct(anns[1..], seen);
      } else {
        var rest := DedupeFrom(anns[1..], seen + {a.title});
        DedupeFromDistinct(anns[1..], seen + {a.title});
        DedupeFromTitles(anns[1..], seen + {a.title});
        assert forall j :: 0 <= j < |rest| ==> rest[j].title in Titles(rest);
        assert forall j :: 0 <= j < |rest| ==> rest[j].title != a.title;
        var r := [a] + rest;
        assert forall j :: 1 <= j < |r| ==> r[j] == rest[j - 1];
      }
    }
  }

  /** The de-duplicated list the scraper returns. */
  function Dedupe(anns: seq<Announcement>): seq<Announcement> {
    DedupeFrom(anns, {})
  }

  /** The de-duplication loop: a seen-set of titles and an output list. */
  method DedupeByTitle(anns: seq<Announcement>) returns (unique: seq<Announcement>)
    ensures unique == Dedupe(anns)
  {
    unique := [];
    var seen: set<string> := {};
    var i := 0;
    while i < |anns|
      invariant 0 <= i <= |anns|
      invariant unique + DedupeFrom(anns[i..], seen) == Dedupe(anns)
    {
      var a := anns[i];
      assert anns[i..][0] == a && anns[i..][1..] == anns[i + 1..];
      if a.title !in seen {
        seen := seen + {a.title};
        unique := unique + [a];
      }
      i := i + 1;
    }
  }

  /** Reference reading of "first occurrence wins": `anns[i]` is kept exactly
      when no earlier record carries its title. */
  function FirstOccurrences(anns: seq<Announcement>): seq<Announcement>
    decreases |anns|
  {
    if anns == [] then []
    else
      var init, last := anns[..|anns| - 1], anns[|anns| - 1];
      FirstOccurrences(init) + (if last.title in Titles(init) then [] else [last])
  }

  lemma {:induction false} DedupeSnoc(anns: seq<Announcement>, x: Announcement, seen: set<string>)
    ensures DedupeFrom(anns + [x], seen)
         == DedupeFrom(anns, seen) + (if x.title in seen + Titles(anns) then [] else [x])
    decreases |anns|
  {
    if anns == [] {
      assert [] + [x] == [x] && [x][1..] == [];
    } else {
      var a, tail := anns[0], anns[1..];
      var last := if x.title in seen + Titles(anns) then [] else [x];
      assert (anns + [x])[0] == a && (anns + [x])[1..] == tail + [x];
      TitlesCons(anns);
      if a.title in seen {
        DedupeSnoc(tail, x, seen);
        assert seen + Titles(tail) == seen + Titles(anns);
      } else {
        var seen' := seen + {a.title};
        DedupeSnoc(tail, x, seen');
        assert seen' + Titles(tail) == seen + Titles(anns);
        assert DedupeFrom(anns + [x], seen) == [a] + DedupeFrom(tail + [x], seen');
        assert DedupeFrom(anns, seen) == [a] + DedupeFrom(tail, seen');
        assert [a] + (DedupeFrom(tail, seen') + last) == ([a] + DedupeFrom(tail, seen')) + last;
      }
    }
  }

  /** The de-duplicator keeps exactly the first occurrences, in input order. */
  lemma {:induction false} DedupeKeepsFirstOccurrences(anns: seq<Announcement>)
    ensures Dedupe(anns) == FirstOccurrences(anns)
    decreases |anns|
  {
    if anns != [] {
      var init, last := anns[..|anns| - 1], anns[|anns| - 1];
      assert anns == init + [last];
      DedupeSnoc(init, last, {});
      DedupeKeepsFirstOccurrences(init);
    }
  }

  /** A list whose titles are distinct and unseen passes through unchanged. */
  lemma {:induction false} DedupeOfDistinct(anns: seq<Announcement>, seen: set<string>)
    requires DistinctTitles(anns)
    requires Titles(anns) !! seen
    ensures DedupeFrom(anns, seen) == anns
    decreases |anns|
  {
    if anns != [] {
      TitlesCons(anns);
      var a := anns[0];
      assert forall j :: 1 <= j < |anns| ==> anns[j].title != a.title;
      assert a.title !in Titles(anns[1..]) by {
        forall b | b in anns[1..] ensures b.title != a.title {
          var j :| 0 <= j < |anns[1..]| && anns[1..][j] == b;
          assert anns[j + 1] == b;
        }
      }
      DedupeOfDistinct(anns[1..], seen + {a.title});
    }
  }

  /** De-duplication: distinct titles, the same title set, no growth, and
      applying it twice is applying it once. */
  lemma DedupeProperties(anns: seq<Announcement>)
    ensures DistinctTitles(Dedupe(anns))
    ensures Titles(Dedupe(anns)) == Titles(anns)
    ensures forall a :: a in Dedupe(anns) ==> a in anns
    ensures |Dedupe(anns)| <= |anns|
    ensures Dedupe(Dedupe(anns)) == Dedupe(anns)
  {
    DedupeFromSound(anns, {});
    DedupeOfDistinct(Dedupe(anns), {});
  }

  /** `[A, B, A']` with `A'` titled like `A` de-duplicates to `[A, B]`. */
  lemma DedupeExample(a: Announcement, b: Announcement, c: Announcement)
    requires a.title == c.title && a.title != b.title
    ensures Dedupe([a, b, c]) == [a, b]
  {
    assert [a, b, c][1..] == [b, c] && [b, c][1..] == [c] && [c][1..] == [];
    assert DedupeFrom([c], {a.title, b.title}) == [];
    assert {a.title} + {b.title} == {a.title, b.title};
    assert DedupeFrom([b, c], {a.title}) == [b];
    assert {} + {a.title} == {a.title};
  }

  // ================================================================
  // The whole extraction
  // ================================================================

  const MaxCandidates: nat := 50

  /** A page of the AWS site. */
  function SiteLink(path: string): (r: string)
    ensures StartsWith(r, BaseOrigin + "/")
    ensures |r| == |BaseOrigin| + 1 + |path| && r[|BaseOrigin| + 1..] == path
  {
    var prefix := BaseOrigin + "/";
    assert (prefix + path)[..|prefix|] == prefix;
    prefix + path
  }

  /** `_get_sample_announcements`: the three curated records. */
  function SampleAnnouncements(): (s: seq<Announcement>)
    ensures |s| == 3
  {
    [BedrockSample(), LambdaSample(), S3Sample()]
  }

  function BedrockSample(): Announcement {
    Announcement(
      "Amazon Bedrock " + "announces Claude " + "3.5 Sonnet v2",
      "Amazon Bedrock",
      "New version of " + "Claude 3.5 Sonnet " + "available on " + "Amazon Bedrock",
      SiteLink("about-aws/" + "whats-new/2024/10/" + "amazon-bedrock-" + "claude-3-5-sonnet-v2/"))
  }

  function LambdaSample(): Announcement {
    Announcement(
      "AWS Lambda now " + "supports Node.js 22",
      "AWS Lambda",
      "AWS Lambda adds " + "support for " + "Node.js 22 runtime",
      SiteLink("lambda/"))
  }

  function S3Sample(): Announcement {
    Announcement(
      "Amazon S3 Express " + "One Zone " + "storage class",
      "Amazon S3",
      "New S3 storage " + "class for high-" + "performance " + "applications",
      SiteLink("s3/storage-classes/" + "express-one-zone/"))
  }

  /** The samples have distinct titles and link to pages of the AWS site. */
  lemma SampleAnnouncementsWellFormed()
    ensures DistinctTitles(SampleAnnouncements())
    ensures forall a :: a in SampleAnnouncements() ==> StartsWith(a.link, BaseOrigin + "/")
  {
    assert |BedrockSample().title| == 45;
    assert |LambdaSample().title| == 34;
    assert |S3Sample().title| == 40;
  }

  /** What `extract_announcements` returns: the samples when fetching or
      parsing raised, otherwise the de-duplicated accepted records among the
      first fifty candidates (possibly none). */
  function Extracted(fetched: Option<seq<Candidate>>): seq<Announcement> {
    match fetched
    case None => SampleAnnouncements()
    case Some(cands) => Dedupe(Accepted(cands[..Min(MaxCandidates, |cands|)]))
  }

  /** `extract_announcements`, from the parser's candidates onward. */
  method ExtractAnnouncements(fetched: Option<seq<Candidate>>) returns (anns: seq<Announcement>)
    ensures anns == Extracted(fetched)
  {
    match fetched
    case None =>
      anns := SampleAnnouncements();
    case Some(cands) =>
      var accepted := CollectAnnouncements(cands[..Min(MaxCandidates, |cands|)]);
      anns := DedupeByTitle(accepted);
  }

  /** What the caller of `extract_announcements` can rely on. */
  lemma ExtractedProperties(fetched: Option<seq<Candidate>>)
    ensures var anns := Extracted(fetched);
      && |anns| <= MaxCandidates
      && DistinctTitles(anns)
      && (forall a :: a in anns ==> StartsWith(a.link, "http"))
      && (fetched.None? ==> anns == SampleAnnouncements())
  {
    var anns := Extracted(fetched);
    match fetched
    case None =>
      SampleAnnouncementsWellFormed();
      forall a | a in anns ensures StartsWith(a.link, "http") {
        assert a.link[..|BaseOrigin + "/"|] == BaseOrigin + "/";
        assert a.link[..4] == (BaseOrigin + "/")[..4] == "http";
      }
    case Some(cands) =>
      DedupeProperties(Accepted(cands[..Min(MaxCandidates, |cands|)]));
      AcceptedFrom(cands[..Min(MaxCandidates, |cands|)]);
  }

  /** A successful fetch yields only accepted titles, each with the service
      name inferred from it, and one record per distinct accepted title. */
  lemma ExtractedFromCandidates(cands: seq<Candidate>)
    ensures var anns, examined := Extracted(Some(cands)), cands[..Min(MaxCandidates, |cands|)];
      && Titles(anns) == AcceptedTitles(examined)
      && (forall a :: a in anns ==> exists c :: c in examined && IsAnnouncementTitle(c.title) && a == ToAnnouncement(c))
      && (forall a :: a in anns ==> a.serviceName == InferServiceName(a.title))
      && ((forall c :: c in examined ==> !IsAnnouncementTitle(c.title)) ==> anns == [])
  {
    var examined := cands[..Min(MaxCandidates, |cands|)];
    DedupeProperties(Accepted(examined));
    AcceptedFrom(examined);
    AcceptedTitlesExact(examined);
    if forall c :: c in examined ==> !IsAnnouncementTitle(c.title) {
      NothingAccepted(examined);
    }
  }

  /** The titles of the candidates that pass the filter. */
  function AcceptedTitles(cands: seq<Candidate>): set<string> {
    set c | c in cands && IsAnnouncementTitle(c.title) :: c.title
  }

  /** The records carry exactly the titles of the accepted candidates: none
      is lost and none is added. */
  lemma {:induction false} AcceptedTitlesExact(cands: seq<Candidate>)
    ensures Titles(Accepted(cands)) == AcceptedTitles(cands)
    decreases |cands|
  {
    if cands != [] {
      var init, last := cands[..|cands| - 1], cands[|cands| - 1];
      AcceptedTitlesExact(init);
      var tail := if IsAnnouncementTitle(last.title) then [ToAnnouncement(last)] else [];
      TitlesAppend(Accepted(init), tail);
      AcceptedTitlesSnoc(init, last);
      assert cands == init + [last];
    }
  }

  lemma TitlesAppend(x: seq<Announcement>, y: seq<Announcement>)
    ensures Titles(x + y) == Titles(x) + Titles(y)
  {
    forall t | t in Titles(x + y) ensures t in Titles(x) + Titles(y) {
      var a :| a in x + y && a.title == t;
    }
    forall t | t in Titles(x) + Titles(y) ensures t in Titles(x + y) {
      if t in Titles(x) {
        var a :| a in x && a.title == t;
        assert a in x + y;
      } else {
        var a :| a in y && a.title == t;
        assert a in x + y;
      }
    }
  }

  lemma AcceptedTitlesSnoc(init: seq<Candidate>, last: Candidate)
    ensures AcceptedTitles(init + [last])
         == AcceptedTitles(init) + (if IsAnnouncementTitle(last.title) then {last.title} else {})
  {
    var extra := if IsAnnouncementTitle(last.title) then {last.title} else {};
    forall t | t in AcceptedTitles(init + [last]) ensures t in AcceptedTitles(init) + extra {
      var c :| c in init + [last] && IsAnnouncementTitle(c.title) && c.title == t;
      if c != last {
        assert c in init;
      }
    }
    forall t | t in AcceptedTitles(init) + extra ensures t in AcceptedTitles(init + [last]) {
      if t in AcceptedTitles(init) {
        var c :| c in init && IsAnnouncementTitle(c.title) && c.title == t;
        assert c in init + [last];
      } else {
        assert last in init + [last];
      }
    }
  }

  lemma {:induction false} NothingAccepted(cands: seq<Candidate>)
    requires forall c :: c in cands ==> !IsAnnouncementTitle(c.title)
    ensures Accepted(cands) == []
    decreases |cands|
  {
    if cands != [] {
      var init := cands[..|cands| - 1];
      assert forall c :: c in init ==> c in cands;
      assert cands[|cands| - 1] in cands;
      NothingAccepted(init);
    }
  }
}
