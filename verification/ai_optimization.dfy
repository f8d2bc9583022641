/**
 * Controls aimed at AI crawlers and AI summaries: the robots.txt groups for
 * search and AI-training crawlers (RFC 9309 section 2.2 groups: a
 * User-agent line, then Allow/Disallow rules), the X-Robots-Tag header,
 * video clip and image schema.org objects, and the organisation's `sameAs`
 * links.
 */
module AiOptimization {
  import opened Common

  // ---------------------------------------------------------------------
  // robots.txt
  // ---------------------------------------------------------------------

  /** The AI-training crawlers, in the order their groups are written. */
  const TrainingBots: seq<string> := [
    "Google-Extended", "GPTBot", "ChatGPT-User", "ClaudeBot", "anthropic-ai",
    "PerplexityBot", "CCBot", "Omgilibot", "FacebookBot", "Diffbot"
  ]

  const SearchGroup: seq<string> := ["User-agent: Googlebot", "Allow: /", ""]

  /** A group that lets `bot` crawl, with a Crawl-delay line when the delay is truthy. */
  function AllowGroup(bot: string, delay: int): seq<string> {
    ["User-agent: " + bot, "Allow: /"] + (if delay != 0 then ["Crawl-delay: " + IntToString(delay)] else []) + [""]
  }

  /** A group that shuts `bot` out. */
  function DisallowGroup(bot: string): seq<string> {
    ["User-agent: " + bot, "Disallow: /", ""]
  }

  /** Allow groups for the bots not on the block list, in order. */
  function AllowGroups(bots: seq<string>, blocked: seq<string>, delay: int): seq<string> {
    if |bots| == 0 then []
    else
      var last := bots[|bots| - 1];
      AllowGroups(bots[..|bots| - 1], blocked, delay) + (if last in blocked then [] else AllowGroup(last, delay))
  }

  /** Disallow groups for every bot, in order. */
  function DisallowGroups(bots: seq<string>): seq<string> {
    if |bots| == 0 then [] else DisallowGroups(bots[..|bots| - 1]) + DisallowGroup(bots[|bots| - 1])
  }

  /**
   * The lines of the policy: the search group when search is allowed; the
   * training bots allowed (except blocked ones) or all disallowed; then a
   * disallow group per blocked bot. The delay defaults to 10 seconds, the
   * block list to empty.
   */
  function RobotsRules(allowSearch: bool, allowAITraining: bool, crawlDelay: Option<int>, blockList: Option<seq<string>>)
    : (r: seq<string>)
    ensures EndsGroup(r)
  {
    var delay := if crawlDelay.Some? then crawlDelay.value else 10;
    var blocked := if blockList.Some? then blockList.value else [];
    var search := if allowSearch then SearchGroup else [];
    var training := if allowAITraining then AllowGroups(TrainingBots, blocked, delay) else DisallowGroups(TrainingBots);
    AllowGroupsEndGroup(TrainingBots, blocked, delay);
    DisallowGroupsEndGroup(TrainingBots);
    DisallowGroupsEndGroup(blocked);
    EndsGroupAppend(search, training);
    EndsGroupAppend(search + training, DisallowGroups(blocked));
    search + training + DisallowGroups(blocked)
  }

  /** The lines are empty or end with the blank line that closes a group. */
  predicate EndsGroup(lines: seq<string>) {
    |lines| == 0 || lines[|lines| - 1] == ""
  }

  lemma EndsGroupAppend(a: seq<string>, b: seq<string>)
    requires EndsGroup(a) && EndsGroup(b)
    ensures EndsGroup(a + b)
  {
  }

  /** Allow groups end with a blank line. */
  lemma {:induction false} AllowGroupsEndGroup(bots: seq<string>, blocked: seq<string>, delay: int)
    ensures EndsGroup(AllowGroups(bots, blocked, delay))
  {
    if |bots| > 0 {
      var last := bots[|bots| - 1];
      AllowGroupsEndGroup(bots[..|bots| - 1], blocked, delay);
      EndsGroupAppend(AllowGroups(bots[..|bots| - 1], blocked, delay), if last in blocked then [] else AllowGroup(last, delay));
    }
  }

  /** Disallow groups end with a blank line. */
  lemma {:induction false} DisallowGroupsEndGroup(bots: seq<string>)
    ensures EndsGroup(DisallowGroups(bots))
  {
    if |bots| > 0 {
      DisallowGroupsEndGroup(bots[..|bots| - 1]);
      EndsGroupAppend(DisallowGroups(bots[..|bots| - 1]), DisallowGroup(bots[|bots| - 1]));
    }
  }

  /** `aiCrawlerPolicy.generateRobotsTxt`: the policy's lines joined by newlines. */
  method GenerateRobotsTxt(allowSearch: bool, allowAITraining: bool, crawlDelay: Option<int>, blockList: Option<seq<string>>)
    returns (txt: string)
    ensures txt == Join(RobotsRules(allowSearch, allowAITraining, crawlDelay, blockList), "\n")
  {
    var delay := if crawlDelay.Some? then crawlDelay.value else 10;
    var blocked := if blockList.Some? then blockList.value else [];
    var rules: seq<string> := [];

    if allowSearch {
      rules := rules + ["User-agent: Googlebot"];
      rules := rules + ["Allow: /"];
      rules := rules + [""];
    }
    assert rules == if allowSearch then SearchGroup else [];

    if allowAITraining {
      rules := AppendAllowGroups(rules, TrainingBots, blocked, delay);
    } else {
      rules := AppendDisallowGroups(rules, TrainingBots);
    }
    assert rules == (if allowSearch then SearchGroup else [])
                    + (if allowAITraining then AllowGroups(TrainingBots, blocked, delay) else DisallowGroups(TrainingBots));

    rules := AppendDisallowGroups(rules, blocked);
    txt := Join(rules, "\n");
  }

  /** The `for (const bot of trainingBots)` loop when AI training is allowed. */
  method AppendAllowGroups(rules: seq<string>, bots: seq<string>, blocked: seq<string>, delay: int)
    returns (out: seq<string>)
    ensures out == rules + AllowGroups(bots, blocked, delay)
  {
    out := rules;
    var i := 0;
    while i < |bots|
      invariant 0 <= i <= |bots|
      invariant out == rules + AllowGroups(bots[..i], blocked, delay)
    {
      out := AllowStep(rules, out, bots, blocked, delay, i);
      i := i + 1;
    }
    assert bots[..i] == bots;
  }

  /** One iteration of the allow loop: the group of `bots[i]` unless it is blocked. */
  method AllowStep(ghost rules: seq<string>, out: seq<string>, bots: seq<string>, blocked: seq<string>, delay: int, i: nat)
    returns (out': seq<string>)
    requires i < |bots| && out == rules + AllowGroups(bots[..i], blocked, delay)
    ensures out' == rules + AllowGroups(bots[..i + 1], blocked, delay)
  {
    AllowGroupsStep(bots, blocked, delay, i);
    ghost var prefix := AllowGroups(bots[..i], blocked, delay);
    if bots[i] in blocked {
      out' := out;
      assert prefix + [] == prefix;
    } else {
      out' := PushAllowGroup(out, bots[i], delay);
      assert out' == rules + (prefix + AllowGroup(bots[i], delay));
    }
  }

  /** The pushes of one allowed bot's group: User-agent, Allow, an optional Crawl-delay, a blank line. */
  method PushAllowGroup(rules: seq<string>, bot: string, delay: int) returns (out: seq<string>)
    ensures out == rules + AllowGroup(bot, delay)
  {
    out := rules + ["User-agent: " + bot];
    out := out + ["Allow: /"];
    if delay != 0 {
      out := out + ["Crawl-delay: " + IntToString(delay)];
    }
    out := out + [""];
  }

  /** A loop writing a Disallow group per bot: all training bots, or the block list. */
  method AppendDisallowGroups(rules: seq<string>, bots: seq<string>) returns (out: seq<string>)
    ensures out == rules + DisallowGroups(bots)
  {
    out := rules;
    var i := 0;
    while i < |bots|
      invariant 0 <= i <= |bots|
      invariant out == rules + DisallowGroups(bots[..i])
    {
      var bot := bots[i];
      ghost var before := out;
      out := out + ["User-agent: " + bot];
      out := out + ["Disallow: /"];
      out := out + [""];
      assert out == before + DisallowGroup(bot);
      assert bots[..i + 1][..i] == bots[..i];
      i := i + 1;
    }
    assert bots[..i] == bots;
  }

  lemma AllowGroupsStep(bots: seq<string>, blocked: seq<string>, delay: int, i: nat)
    requires i < |bots|
    ensures AllowGroups(bots[..i + 1], blocked, delay)
            == AllowGroups(bots[..i], blocked, delay) + (if bots[i] in blocked then [] else AllowGroup(bots[i], delay))
  {
    assert bots[..i + 1][..i] == bots[..i];
  }

  /** With search allowed, the policy opens with the Googlebot group. */
  lemma SearchGroupFirst(allowAITraining: bool, crawlDelay: Option<int>, blockList: Option<seq<string>>)
    ensures RobotsRules(true, allowAITraining, crawlDelay, blockList)[..3] == ["User-agent: Googlebot", "Allow: /", ""]
  {
  }

  /** Every disallow group is three lines. */
  lemma {:induction false} DisallowGroupsLength(bots: seq<string>)
    ensures |DisallowGroups(bots)| == 3 * |bots|
  {
    if |bots| > 0 {
      DisallowGroupsLength(bots[..|bots| - 1]);
    }
  }

  /**
   * Without AI training, all ten training bots are disallowed whatever the
   * block list says, and each blocked bot adds one more group of three lines.
   */
  lemma TrainingDisallowedLength(allowSearch: bool, crawlDelay: Option<int>, blockList: Option<seq<string>>)
    ensures |RobotsRules(allowSearch, false, crawlDelay, blockList)|
            == (if allowSearch then 3 else 0) + 30 + 3 * |if blockList.Some? then blockList.value else []|
  {
    DisallowGroupsLength(TrainingBots);
    DisallowGroupsLength(if blockList.Some? then blockList.value else []);
  }

  lemma UserAgentInjective(a: string, b: string)
    requires "User-agent: " + a == "User-agent: " + b
    ensures a == b
  {
    var p := "User-agent: ";
    assert a == ("User-agent: " + a)[|p|..];
    assert b == ("User-agent: " + b)[|p|..];
  }

  /** A blocked bot never gets an allow group: its User-agent line does not occur among the allow groups. */
  lemma {:induction false} BlockedNeverAllowed(bots: seq<string>, blocked: seq<string>, delay: int, b: string)
    requires b in blocked
    ensures "User-agent: " + b !in AllowGroups(bots, blocked, delay)
  {
    if |bots| > 0 {
      var last := bots[|bots| - 1];
      BlockedNeverAllowed(bots[..|bots| - 1], blocked, delay, b);
      if last !in blocked {
        var line := "User-agent: " + b;
        assert line[0] == 'U';
        if line == "User-agent: " + last {
          UserAgentInjective(b, last);
        }
        assert line != "Allow: /" && line != "";
        if delay != 0 {
          assert line != "Crawl-delay: " + IntToString(delay) by {
            assert ("Crawl-delay: " + IntToString(delay))[0] == 'C';
          }
        }
      }
    }
  }

  /** With a crawl delay of 0 no Crawl-delay line is written. */
  lemma {:induction false} NoDelayLineForZero(bots: seq<string>, blocked: seq<string>, d: int)
    ensures "Crawl-delay: " + IntToString(d) !in AllowGroups(bots, blocked, 0)
  {
    if |bots| > 0 {
      NoDelayLineForZero(bots[..|bots| - 1], blocked, d);
      var line := "Crawl-delay: " + IntToString(d);
      assert line[0] == 'C';
      assert ("User-agent: " + bots[|bots| - 1])[0] == 'U';
    }
  }

  /** The block list's own groups come last, one per entry in block-list order, so a bot may appear twice. */
  lemma BlockGroupsLast(allowSearch: bool, allowAITraining: bool, crawlDelay: Option<int>, blocked: seq<string>)
    ensures var rules := RobotsRules(allowSearch, allowAITraining, crawlDelay, Some(blocked));
      |rules| >= 3 * |blocked| && rules[|rules| - 3 * |blocked|..] == DisallowGroups(blocked)
  {
    DisallowGroupsLength(blocked);
  }

  /** `aiCrawlerPolicy.generateHTTPHeader`: the X-Robots-Tag value. */
  function GenerateHttpHeader(allow: bool): (r: map<string, string>)
    ensures r.Keys == {"X-Robots-Tag"}
    ensures r["X-Robots-Tag"] == if allow then "all" else "noai, noimageai"
  {
    map["X-Robots-Tag" := if allow then "all" else "noai, noimageai"]
  }

  // ---------------------------------------------------------------------
  // schema.org objects
  // ---------------------------------------------------------------------

  datatype ClipInput = ClipInput(name: string, startOffset: int, endOffset: int, url: string)

  datatype Clip = Clip(name: string, startOffset: int, endOffset: int, url: string, position: nat)

  /** `generateVideoClips`: the clips in order, numbered from 1. */
  function GenerateVideoClips(clips: seq<ClipInput>): (r: seq<Clip>)
    ensures |r| == |clips|
    ensures forall i :: 0 <= i < |r| ==>
              r[i] == Clip(clips[i].name, clips[i].startOffset, clips[i].endOffset, clips[i].url, i + 1)
  {
    seq(|clips|, i requires 0 <= i < |clips| =>
      Clip(clips[i].name, clips[i].startOffset, clips[i].endOffset, clips[i].url, i + 1))
  }

  datatype ImageParams = ImageParams(
    url: string,
    width: int,
    height: int,
    caption: Option<string>,
    creator: Option<string>,
    creditText: Option<string>,
    copyrightNotice: Option<string>,
    license: Option<string>)

  datatype Person = Person(name: string)

  datatype ImageObject = ImageObject(
    url: string,
    width: int,
    height: int,
    caption: Option<string>,
    creator: Option<Person>,
    creditText: Option<string>,
    copyrightNotice: Option<string>,
    license: Option<string>)

  /** A field spread in only when the value is truthy. */
  function IfTruthy(o: Option<string>): (r: Option<string>)
    ensures r.Some? <==> OptTruthy(o)
    ensures r.Some? ==> r == o
  {
    if OptTruthy(o) then o else None
  }

  /** `generateImageObject`: each optional IPTC field is present exactly when it is given and non-empty. */
  function GenerateImageObject(p: ImageParams): (r: ImageObject)
    ensures r.url == p.url && r.width == p.width && r.height == p.height
    ensures r.caption.Some? <==> OptTruthy(p.caption)
    ensures r.creator.Some? <==> OptTruthy(p.creator)
    ensures r.creator.Some? ==> r.creator.value.name == p.creator.value
    ensures r.creditText.Some? <==> OptTruthy(p.creditText)
    ensures r.copyrightNotice.Some? <==> OptTruthy(p.copyrightNotice)
    ensures r.license.Some? <==> OptTruthy(p.license)
    ensures r.caption.Some? ==> r.caption == p.caption
    ensures r.creditText.Some? ==> r.creditText == p.creditText
    ensures r.copyrightNotice.Some? ==> r.copyrightNotice == p.copyrightNotice
    ensures r.license.Some? ==> r.license == p.license
  {
    ImageObject(p.url, p.width, p.height, IfTruthy(p.caption),
                if OptTruthy(p.creator) then Some(Person(p.creator.value)) else None,
                IfTruthy(p.creditText), IfTruthy(p.copyrightNotice), IfTruthy(p.license))
  }

  datatype SameAs = SameAs(
    wikidata: Option<string>,
    crunchbase: Option<string>,
    linkedin: Option<string>,
    twitter: Option<string>,
    youtube: Option<string>,
    facebook: Option<string>)

  /** The profiles in their fixed order. */
  function Profiles(s: SameAs): seq<Option<string>> {
    [s.wikidata, s.crunchbase, s.linkedin, s.twitter, s.youtube, s.facebook]
  }

  /** The given, non-empty profiles, in order. */
  function PresentUrls(profiles: seq<Option<string>>): (r: seq<string>)
    ensures |r| <= |profiles|
    ensures forall u :: u in r ==> u != ""
  {
    if |profiles| == 0 then []
    else PresentUrls(profiles[..|profiles| - 1]) + Keep(profiles[|profiles| - 1])
  }

  function JsonStrings(xs: seq<string>): (r: seq<Json>)
    ensures |r| == |xs|
    ensures forall i :: 0 <= i < |r| ==> r[i] == JStr(xs[i])
  {
    seq(|xs|, i requires 0 <= i < |xs| => JStr(xs[i]))
  }

  /**
   * `enhanceOrganizationSchema`: the base schema with `sameAs` set to the
   * present profile URLs in the fixed order wikidata, crunchbase, linkedin,
   * twitter, youtube, facebook; any earlier `sameAs` is replaced and every
   * other key kept.
   */
  method EnhanceOrganizationSchema(base: map<string, Json>, sameAs: SameAs) returns (r: map<string, Json>)
    ensures r.Keys == base.Keys + {"sameAs"}
    ensures r["sameAs"] == JArr(JsonStrings(PresentUrls(Profiles(sameAs))))
    ensures forall k :: k in base && k != "sameAs" ==> r[k] == base[k]
  {
    var urls: seq<string> := [];
    if OptTruthy(sameAs.wikidata) { urls := urls + [sameAs.wikidata.value]; }
    assert urls == Keep(sameAs.wikidata);
    if OptTruthy(sameAs.crunchbase) { urls := urls + [sameAs.crunchbase.value]; }
    assert urls == Keep(sameAs.wikidata) + Keep(sameAs.crunchbase);
    if OptTruthy(sameAs.linkedin) { urls := urls + [sameAs.linkedin.value]; }
    assert urls == Keep(sameAs.wikidata) + Keep(sameAs.crunchbase) + Keep(sameAs.linkedin);
    if OptTruthy(sameAs.twitter) { urls := urls + [sameAs.twitter.value]; }
    assert urls == Keep(sameAs.wikidata) + Keep(sameAs.crunchbase) + Keep(sameAs.linkedin) + Keep(sameAs.twitter);
    if OptTruthy(sameAs.youtube) { urls := urls + [sameAs.youtube.value]; }
    assert urls == Keep(sameAs.wikidata) + Keep(sameAs.crunchbase) + Keep(sameAs.linkedin) + Keep(sameAs.twitter)
                   + Keep(sameAs.youtube);
    if OptTruthy(sameAs.facebook) { urls := urls + [sameAs.facebook.value]; }
    PresentUrlsOfProfiles(sameAs);
    r := base["sameAs" := JArr(JsonStrings(urls))];
  }

  /** One profile's contribution: its URL when it is given and non-empty. */
  function Keep(o: Option<string>): seq<string> {
    if OptTruthy(o) then [o.value] else []
  }

  /** `PresentUrls` over the six profiles, written out. */
  lemma PresentUrlsOfProfiles(s: SameAs)
    ensures PresentUrls(Profiles(s))
            == Keep(s.wikidata) + Keep(s.crunchbase) + Keep(s.linkedin) + Keep(s.twitter) + Keep(s.youtube) + Keep(s.facebook)
  {
    var q1 := [s.wikidata];
    var q2 := q1 + [s.crunchbase];
    var q3 := q2 + [s.linkedin];
    var q4 := q3 + [s.twitter];
    var q5 := q4 + [s.youtube];
    var q6 := q5 + [s.facebook];
    assert q1[..0] == [] && q2[..1] == q1 && q3[..2] == q2 && q4[..3] == q3 && q5[..4] == q4 && q6[..5] == q5;
    assert PresentUrls(q1) == Keep(s.wikidata);
    assert PresentUrls(q2) == Keep(s.wikidata) + Keep(s.crunchbase);
    assert PresentUrls(q3) == Keep(s.wikidata) + Keep(s.crunchbase) + Keep(s.linkedin);
    assert PresentUrls(q4) == Keep(s.wikidata) + Keep(s.crunchbase) + Keep(s.linkedin) + Keep(s.twitter);
    assert PresentUrls(q5) == Keep(s.wikidata) + Keep(s.crunchbase) + Keep(s.linkedin) + Keep(s.twitter) + Keep(s.youtube);
    assert q6 == Profiles(s);
  }

  /** A URL is listed exactly when some profile gives it and it is non-empty. */
  lemma {:induction false} PresentUrlsExactly(profiles: seq<Option<string>>, u: string)
    ensures u in PresentUrls(profiles) <==> exists i :: 0 <= i < |profiles| && OptTruthy(profiles[i]) && profiles[i].value == u
  {
    if |profiles| > 0 {
      var init := profiles[..|profiles| - 1];
      PresentUrlsExactly(init, u);
      if exists i :: 0 <= i < |profiles| && OptTruthy(profiles[i]) && profiles[i].value == u {
        var i :| 0 <= i < |profiles| && OptTruthy(profiles[i]) && profiles[i].value == u;
        if i < |init| {
          assert init[i] == profiles[i];
        }
      }
      if exists i :: 0 <= i < |init| && OptTruthy(init[i]) && init[i].value == u {
        var i :| 0 <= i < |init| && OptTruthy(init[i]) && init[i].value == u;
        assert profiles[i] == init[i];
      }
    }
  }

  /** With no profile given, `sameAs` is the empty list. */
  lemma {:induction false} NoProfilesEmptySameAs(profiles: seq<Option<string>>)
    requires forall i :: 0 <= i < |profiles| ==> !OptTruthy(profiles[i])
    ensures PresentUrls(profiles) == []
  {
    if |profiles| > 0 {
      NoProfilesEmptySameAs(profiles[..|profiles| - 1]);
    }
  }
}
