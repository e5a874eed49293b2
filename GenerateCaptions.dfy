/** The mock route src/app/api/ai/generate-captions/route.ts: after checking the
    five required fields it fills three caption templates, four hashtag lists built
    on the niche, and a fixed list of engagement tips.

    JavaScript template strings become concatenations. `keyPoints[0]` of an empty
    array is `undefined`, which a template string writes as "undefined". */
module GenerateCaptions {
  import opened Wrappers
  import opened Js
  import opened Http

  /** The request body; `None` for an absent or falsy field. Any array is truthy, so
      an empty `keyPoints` is still `Some([])`. */
  datatype CaptionRequest = CaptionRequest(
    contentSummary: Option<string>,
    keyPoints: Option<seq<string>>,
    captionStyle: Option<string>,
    ctaType: Option<string>,
    contentNiche: Option<string>)

  predicate Valid(req: CaptionRequest)
  {
    && Present(req.contentSummary)
    && req.keyPoints.Some?
    && Present(req.captionStyle)
    && Present(req.ctaType)
    && Present(req.contentNiche)
  }

  const Sparkles: string := "\U{2728}"
  const PointDown: string := "\U{1F447}"
  const Shush: string := "\U{1F92B}"
  const Eyes: string := "\U{1F440}"

  /** The call to action closing the first caption. */
  function FirstCta(ctaType: string): (r: string)
    ensures ctaType == "comment" ==> r == "Comment your thoughts below!"
    ensures ctaType == "follow" ==> r == "Follow for more tips!"
    ensures ctaType != "comment" && ctaType != "follow" ==> r == "Save this for later!"
  {
    if ctaType == "comment" then "Comment your thoughts below!"
    else if ctaType == "follow" then "Follow for more tips!"
    else "Save this for later!"
  }

  /** The call to action closing the second caption: it reacts to "share" and
      "link" rather than to "comment" and "follow". */
  function SecondCta(ctaType: string): (r: string)
    ensures ctaType == "share" ==> r == "Share with someone who needs to see this!"
    ensures ctaType == "link" ==> r == "Link in bio for more!"
    ensures ctaType != "share" && ctaType != "link" ==> r == "Save this to reference later!"
  {
    if ctaType == "share" then "Share with someone who needs to see this!"
    else if ctaType == "link" then "Link in bio for more!"
    else "Save this to reference later!"
  }

  /** The call to action closing the third caption. */
  function ThirdCta(ctaType: string): (r: string)
    ensures ctaType == "comment" ==> r == "Drop your thoughts " + PointDown
    ensures ctaType == "follow" ==> r == "Follow for more secret tips " + Sparkles
    ensures ctaType != "comment" && ctaType != "follow" ==> r == "Tag a friend who needs to see this " + Eyes
  {
    if ctaType == "comment" then "Drop your thoughts " + PointDown
    else if ctaType == "follow" then "Follow for more secret tips " + Sparkles
    else "Tag a friend who needs to see this " + Eyes
  }

  /** A "comment" or "follow" CTA type is one the second caption does not know, so it
      falls back to its save prompt; and "share"/"link" get the fallbacks of the
      other two. */
  lemma CtaFallbacks(ctaType: string)
    ensures ctaType == "comment" || ctaType == "follow" ==> SecondCta(ctaType) == "Save this to reference later!"
    ensures ctaType == "share" || ctaType == "link" ==>
              FirstCta(ctaType) == "Save this for later!"
              && ThirdCta(ctaType) == "Tag a friend who needs to see this " + Eyes
  {
  }

  /** `${keyPoints[0]}`. */
  function PointText(keyPoints: seq<string>, i: nat): (r: string)
    ensures i < |keyPoints| ==> r == keyPoints[i]
    ensures i >= |keyPoints| ==> r == "undefined"
  {
    if i < |keyPoints| then keyPoints[i] else "undefined"
  }

  /** The first caption: the summary, the first key point and, only when there are
      more than one, the second. */
  function FirstCaption(summary: string, keyPoints: seq<string>, ctaType: string): string
  {
    FirstCaptionHead(summary) + PointText(keyPoints, 0) + FirstCaptionTail(keyPoints, ctaType)
  }

  /** The text before the first key point. */
  function FirstCaptionHead(summary: string): string
  {
    Sparkles + " " + summary + "\n\n"
  }

  /** The text after the first key point: the second one, if any, and the call to action. */
  function FirstCaptionTail(keyPoints: seq<string>, ctaType: string): string
  {
    "\n" + (if |keyPoints| > 1 then keyPoints[1] else "") + "\n\n" + PointDown + " " + FirstCta(ctaType)
  }

  /** The first caption reads only the first two key points. */
  lemma FirstCaptionUsesTwoPoints(summary: string, keyPoints: seq<string>, ctaType: string)
    requires |keyPoints| > 2
    ensures FirstCaption(summary, keyPoints, ctaType) == FirstCaption(summary, keyPoints[..2], ctaType)
  {
    assert PointText(keyPoints[..2], 0) == keyPoints[0];
    assert keyPoints[..2][1] == keyPoints[1];
  }

  /** With a single key point the slot of the second one stays empty. */
  lemma FirstCaptionSinglePoint(summary: string, point: string, ctaType: string)
    ensures FirstCaption(summary, [point], ctaType)
            == Sparkles + " " + summary + "\n\n" + point + "\n" + "\n\n" + PointDown + " " + FirstCta(ctaType)
  {
  }

  function SecondCaption(niche: string, keyPoints: seq<string>, ctaType: string): string
  {
    "I discovered something game-changing about " + niche + "...\n\n" + Join(keyPoints, "\n")
    + "\n\n" + SecondCta(ctaType)
  }

  function ThirdCaption(niche: string, keyPoints: seq<string>, ctaType: string): string
  {
    "The " + niche + " hack nobody is talking about " + Shush + "\n\n" + Join(keyPoints, "\n\n")
    + "\n\nAgree or disagree? " + ThirdCta(ctaType)
  }

  /** The second and third captions list every key point. */
  lemma LaterCaptionsListAllPoints(niche: string, keyPoints: seq<string>, ctaType: string, i: nat)
    requires i < |keyPoints|
    ensures Contains(SecondCaption(niche, keyPoints, ctaType), keyPoints[i])
    ensures Contains(ThirdCaption(niche, keyPoints, ctaType), keyPoints[i])
  {
    JoinContains(keyPoints, "\n", i);
    var p2 := "I discovered something game-changing about " + niche + "...\n\n";
    ContainsWrap(p2, Join(keyPoints, "\n"), "\n\n" + SecondCta(ctaType), keyPoints[i]);
    assert p2 + Join(keyPoints, "\n") + ("\n\n" + SecondCta(ctaType)) == SecondCaption(niche, keyPoints, ctaType);
    JoinContains(keyPoints, "\n\n", i);
    var p3 := "The " + niche + " hack nobody is talking about " + Shush + "\n\n";
    var q3 := "\n\nAgree or disagree? " + ThirdCta(ctaType);
    ContainsWrap(p3, Join(keyPoints, "\n\n"), q3, keyPoints[i]);
    assert p3 + Join(keyPoints, "\n\n") + q3 == ThirdCaption(niche, keyPoints, ctaType);
  }

  /** The first caption holds the first key point when there is one. */
  lemma FirstCaptionHasFirstPoint(summary: string, keyPoints: seq<string>, ctaType: string)
    requires |keyPoints| > 0
    ensures Contains(FirstCaption(summary, keyPoints, ctaType), keyPoints[0])
  {
    assert ContainsAt(keyPoints[0], keyPoints[0], 0);
    ContainsAtWrap(FirstCaptionHead(summary), keyPoints[0], FirstCaptionTail(keyPoints, ctaType), keyPoints[0], 0);
  }

  datatype Caption = Caption(text: string, explanation: string)

  datatype Hashtags = Hashtags(
    highReach: seq<string>,
    nicheFocused: seq<string>,
    trending: seq<string>,
    lowCompetition: seq<string>)

  /** `#${niche}` followed by `suffix`. */
  function Tag(niche: string, suffix: string): string
  {
    "#" + niche + suffix
  }

  function BuildHashtags(niche: string): (h: Hashtags)
    ensures |h.highReach| == 6 && |h.nicheFocused| == 4 && |h.trending| == 3 && |h.lowCompetition| == 4
    ensures h.highReach[0] == "#" + niche
  {
    Hashtags(
      [Tag(niche, ""), Tag(niche, "Tips"), Tag(niche, "Hack"), "#Viral", "#ForYou", "#FYP"],
      [Tag(niche, "Advice"), Tag(niche, "Creator"), Tag(niche, "Community"), Tag(niche, "Growth")],
      [Tag(niche, "2024"), "#Trending" + niche, Tag(niche, "Challenge")],
      [Tag(niche, "Secrets"), Tag(niche, "ForBeginners"), "#Daily" + niche, Tag(niche, "LifeHack")])
  }

  /** A tag is well formed for a niche: it starts with '#' and names the niche. */
  predicate NicheTag(t: string, niche: string)
  {
    |t| > 0 && t[0] == '#' && Contains(t, niche)
  }

  lemma PrefixedNicheTag(prefix: string, niche: string, suffix: string)
    requires |prefix| > 0 && prefix[0] == '#'
    ensures NicheTag(prefix + niche + suffix, niche)
  {
    assert ContainsAt(niche, niche, 0) by {
      assert niche[0..|niche|] == niche;
    }
    ContainsAtWrap(prefix, niche, suffix, niche, 0);
  }

  /** Every hashtag starts with '#', and all but the three generic high-reach tags
      name the niche. */
  lemma HashtagsShape(niche: string)
    ensures var h := BuildHashtags(niche);
            forall i :: 0 <= i < |h.highReach| ==> |h.highReach[i]| > 0 && h.highReach[i][0] == '#'
    ensures var h := BuildHashtags(niche); forall i :: 0 <= i < 3 ==> NicheTag(h.highReach[i], niche)
    ensures var h := BuildHashtags(niche); forall i :: 0 <= i < |h.nicheFocused| ==> NicheTag(h.nicheFocused[i], niche)
    ensures var h := BuildHashtags(niche); forall i :: 0 <= i < |h.trending| ==> NicheTag(h.trending[i], niche)
    ensures var h := BuildHashtags(niche);
            forall i :: 0 <= i < |h.lowCompetition| ==> NicheTag(h.lowCompetition[i], niche)
  {
    PrefixedNicheTag("#", niche, "");
    PrefixedNicheTag("#", niche, "Tips");
    PrefixedNicheTag("#", niche, "Hack");
    PrefixedNicheTag("#", niche, "Advice");
    PrefixedNicheTag("#", niche, "Creator");
    PrefixedNicheTag("#", niche, "Community");
    PrefixedNicheTag("#", niche, "Growth");
    PrefixedNicheTag("#", niche, "2024");
    PrefixedNicheTag("#Trending", niche, "");
    assert "#Trending" + niche + "" == "#Trending" + niche;
    PrefixedNicheTag("#", niche, "Challenge");
    PrefixedNicheTag("#", niche, "Secrets");
    PrefixedNicheTag("#", niche, "ForBeginners");
    PrefixedNicheTag("#Daily", niche, "");
    assert "#Daily" + niche + "" == "#Daily" + niche;
    PrefixedNicheTag("#", niche, "LifeHack");
  }

  const EngagementTips: seq<string> := [
    "Respond to comments within the first hour for maximum algorithm boost",
    "Pin your best comment to encourage more engagement",
    "Ask a question in your first comment to start a conversation",
    "Post when your audience is most active (check your analytics)"
  ]

  const FirstExplanation: string :=
    "This caption is concise, uses emojis effectively, and has a clear call-to-action."
  const SecondExplanation: string :=
    "This caption creates curiosity with an intriguing opening and clearly lists all key points."
  const ThirdExplanation: string :=
    "This caption uses exclusivity to create interest and ends with an engaging question."

  datatype CaptionSet = CaptionSet(captions: seq<Caption>, hashtags: Hashtags, engagementTips: seq<string>)

  function BuildCaptions(summary: string, keyPoints: seq<string>, ctaType: string, niche: string): (c: CaptionSet)
    ensures |c.captions| == 3 && |c.engagementTips| == 4
    ensures c.captions[0].text == FirstCaption(summary, keyPoints, ctaType)
    ensures c.captions[1].text == SecondCaption(niche, keyPoints, ctaType)
    ensures c.captions[2].text == ThirdCaption(niche, keyPoints, ctaType)
    ensures c.hashtags == BuildHashtags(niche)
  {
    CaptionSet(
      [Caption(FirstCaption(summary, keyPoints, ctaType), FirstExplanation),
       Caption(SecondCaption(niche, keyPoints, ctaType), SecondExplanation),
       Caption(ThirdCaption(niche, keyPoints, ctaType), ThirdExplanation)],
      BuildHashtags(niche),
      EngagementTips)
  }

  const GenerateFailed: string := "Failed to generate captions"

  /** `POST`: `body` is `None` when `request.json()` throws or yields `null`, whose
      destructuring throws inside the same `try`. */
  function Generate(body: Option<CaptionRequest>): (r: Response<CaptionSet>)
    ensures r == Failure(500, GenerateFailed) <==> body.None?
    ensures r == Failure(400, MissingFields) <==> body.Some? && !Valid(body.value)
    ensures r.Success? <==> body.Some? && Valid(body.value)
    ensures r.Success? ==>
              var b := body.value;
              r.body == BuildCaptions(b.contentSummary.value, b.keyPoints.value, b.ctaType.value, b.contentNiche.value)
  {
    if body.None? then Failure(500, GenerateFailed)
    else if !Valid(body.value) then Failure(400, MissingFields)
    else
      var b := body.value;
      Success(BuildCaptions(b.contentSummary.value, b.keyPoints.value, b.ctaType.value, b.contentNiche.value))
  }

  /** An empty key-point list passes validation; the first caption then shows
      "undefined" for the missing point. */
  lemma EmptyKeyPointsAccepted(summary: string, style: string, cta: string, niche: string)
    requires summary != "" && style != "" && cta != "" && niche != ""
    ensures Generate(Some(CaptionRequest(Some(summary), Some([]), Some(style), Some(cta), Some(niche)))).Success?
    ensures PointText([], 0) == "undefined"
  {
  }

  /** The caption style is required but never read. */
  lemma StyleIgnored(a: CaptionRequest, b: CaptionRequest)
    requires Valid(a) && Valid(b)
    requires a.contentSummary == b.contentSummary && a.keyPoints == b.keyPoints
    requires a.ctaType == b.ctaType && a.contentNiche == b.contentNiche
    ensures Generate(Some(a)) == Generate(Some(b))
  {
  }
}
