/** The length rules of the client: truncation to a platform's limit
    (`formatForPlatform`, script.js:739-748), the character-count class a card shows
    (script.js:670-676 and 801-806) and the idempotent hashtag append to the selected
    cards (`addHashtagToSelectedVariations`, script.js:784-809). */
module Formatting {
  import opened Wrappers
  import opened Text
  import opened Platforms

  /** `s.substring(0, end)`: the end is clamped into `[0, |s|]`. */
  function Prefix(s: string, end: int): (r: string)
    ensures |r| == if end < 0 then 0 else if end > |s| then |s| else end
    ensures r == s[..|r|]
  {
    if end < 0 then "" else if end > |s| then s else s[..end]
  }

  /** Cutting a post that is longer than `limit` to `limit - 3` characters and `...`. */
  function Truncate(post: string, limit: nat): string {
    if |post| > limit then Prefix(post, limit - 3) + "..." else post
  }

  /** `formatForPlatform(post, platform)`: a name outside the limit table gives an undefined
      limit, the comparison is false and the post comes back as it is. */
  function FormatForPlatform(post: string, platform: string): string {
    match LimitByName(platform)
    case Some(limit) => Truncate(post, limit)
    case None => post
  }

  /** Every limit in the table leaves room for the ellipsis. */
  lemma LimitsAboveEllipsis(p: Platform)
    ensures Limit(p) >= 150
  {
  }

  /** A post within the limit is kept; a longer one becomes its first `limit - 3`
      characters followed by `...`, exactly `limit` long; either way the result fits. */
  lemma FormatSpec(post: string, p: Platform)
    ensures var r := FormatForPlatform(post, Name(p));
      && |r| <= Limit(p)
      && (|post| <= Limit(p) ==> r == post)
      && (|post| > Limit(p) ==> (|r| == Limit(p) && r[..Limit(p) - 3] == post[..Limit(p) - 3]
                                 && r[Limit(p) - 3..] == "..."))
  {
    LimitsAboveEllipsis(p);
    var limit := Limit(p);
    var r := FormatForPlatform(post, Name(p));
    assert LimitByName(Name(p)) == Some(limit);
    if |post| > limit {
      var head := post[..limit - 3];
      assert r == head + "...";
      assert (head + "...")[..limit - 3] == head;
      assert (head + "...")[limit - 3..] == "...";
    }
  }

  /** A name outside the table leaves every post unchanged. */
  lemma FormatUnknownPlatform(post: string, platform: string)
    requires forall p :: platform != Name(p)
    ensures FormatForPlatform(post, platform) == post
  {
  }

  /** Formatting a formatted post changes nothing. */
  lemma FormatIdempotent(post: string, platform: string)
    ensures FormatForPlatform(FormatForPlatform(post, platform), platform)
      == FormatForPlatform(post, platform)
  {
    match PlatformByName(platform)
    case None =>
    case Some(p) =>
      FormatSpec(post, p);
  }

  /** The class of a card's character counter. */
  datatype CountClass = Normal | Warning | OverLimit

  /** `charCount > limit` gives over-limit, else `charCount > limit * 0.8` gives warning,
      with the threshold compared in integers as `5 * count > 4 * limit`. */
  function ClassifyCount(count: nat, limit: nat): CountClass {
    if count > limit then OverLimit
    else if 5 * count > 4 * limit then Warning
    else Normal
  }

  /** The integer comparison agrees with the source's comparison against eight tenths of
      the limit, taken in exact arithmetic: over-limit exactly above the limit, warning
      exactly above eight tenths of it and not above it, normal otherwise. */
  lemma ClassifyCountSpec(count: nat, limit: nat)
    ensures ClassifyCount(count, limit) == OverLimit <==> count > limit
    ensures ClassifyCount(count, limit) == Warning <==>
      count <= limit && count as real > limit as real * 0.8
    ensures ClassifyCount(count, limit) == Normal <==> count as real <= limit as real * 0.8
  {
    assert 5 * count > 4 * limit <==> count as real > limit as real * 0.8;
  }

  /** A post that went through `formatForPlatform` never shows as over the limit. */
  lemma FormattedNeverOver(post: string, p: Platform)
    ensures ClassifyCount(|FormatForPlatform(post, Name(p))|, Limit(p)) != OverLimit
  {
    FormatSpec(post, p);
  }

  /** The content after clicking a suggested hashtag: unchanged when it already includes
      the hashtag, otherwise the hashtag appended after one space (script.js:794-795). */
  function AppendHashtag(content: string, hashtag: string): string {
    if Contains(content, hashtag) then content else content + " " + hashtag
  }

  /** After the append the content includes the hashtag, starts with the old content and
      grows by nothing or by a space and the hashtag. */
  lemma AppendHashtagSpec(content: string, hashtag: string)
    ensures var r := AppendHashtag(content, hashtag);
      && Contains(r, hashtag)
      && |content| <= |r| && r[..|content|] == content
      && (Contains(content, hashtag) ==> r == content)
      && (!Contains(content, hashtag) ==> r[|content|..] == " " + hashtag)
  {
    var r := AppendHashtag(content, hashtag);
    if !Contains(content, hashtag) {
      ContainsAfter(content + " ", hashtag, "");
      assert content + " " + hashtag + "" == r;
      assert r[..|content|] == content;
      assert r[|content|..] == " " + hashtag;
    }
  }

  /** Clicking the same hashtag twice has the effect of clicking it once. */
  lemma AppendHashtagIdempotent(content: string, hashtag: string)
    ensures AppendHashtag(AppendHashtag(content, hashtag), hashtag) == AppendHashtag(content, hashtag)
  {
    AppendHashtagSpec(content, hashtag);
  }

  /** A displayed variation card: its text, the limit shown in its counter, the counter's
      class and whether the user has selected it. */
  class VariationCard {
    var content: string
    var limit: nat
    var countClass: CountClass
    var selected: bool

    /** `createVariationCard`: the counter starts with the class of the content's length. */
    constructor (variation: Variation)
      ensures content == variation.content && limit == Limit(variation.platform)
      ensures countClass == ClassifyCount(|variation.content|, Limit(variation.platform))
      ensures !selected
    {
      content := variation.content;
      limit := Limit(variation.platform);
      countClass := ClassifyCount(|variation.content|, Limit(variation.platform));
      selected := false;
    }

    /** The per-card body of script.js:790-807: the hashtag is appended when missing, and
        then the counter is recomputed; a card that already has it is left alone. */
    method AddHashtag(hashtag: string)
      modifies this
      ensures content == AppendHashtag(old(content), hashtag)
      ensures limit == old(limit) && selected == old(selected)
      ensures countClass == if Contains(old(content), hashtag) then old(countClass)
                            else ClassifyCount(|content|, limit)
    {
      if !Contains(content, hashtag) {
        content := content + " " + hashtag;
        countClass := ClassifyCount(|content|, limit);
      }
    }
  }

  const NoSelectionMessage: string := "Please select a variation first by clicking the \"Select\" button."

  /** The cards `querySelectorAll('.variation-card.selected')` returns, in document order. */
  function Selected(cards: seq<VariationCard>): (r: seq<VariationCard>)
    reads set c | c in cards
    ensures forall c :: c in r ==> c in cards && c.selected
    ensures forall c :: c in cards && c.selected ==> c in r
  {
    if cards == [] then []
    else (if cards[0].selected then [cards[0]] else []) + Selected(cards[1..])
  }

  /** What the per-card update leaves in a selected card with old content `content`
      and old counter class `countClass`. */
  predicate Updated(card: VariationCard, content: string, countClass: CountClass, hashtag: string)
    reads card
  {
    card.content == AppendHashtag(content, hashtag)
    && card.countClass == if Contains(content, hashtag) then countClass
                          else ClassifyCount(|card.content|, card.limit)
  }

  /** The `forEach` over the selected cards (script.js:789-808), written over all cards
      with the selection test inside. */
  method AddHashtagToCards(cards: seq<VariationCard>, hashtag: string)
    requires forall i, j :: 0 <= i < j < |cards| ==> cards[i] != cards[j]
    modifies set c | c in cards
    ensures forall j :: 0 <= j < |cards| ==>
      cards[j].selected == old(cards[j].selected) && cards[j].limit == old(cards[j].limit)
    ensures forall j :: 0 <= j < |cards| && old(cards[j].selected) ==>
      Updated(cards[j], old(cards[j].content), old(cards[j].countClass), hashtag)
    ensures forall j :: 0 <= j < |cards| && !old(cards[j].selected) ==>
      cards[j].content == old(cards[j].content) && cards[j].countClass == old(cards[j].countClass)
  {
    var i := 0;
    while i < |cards|
      invariant 0 <= i <= |cards|
      invariant forall j :: 0 <= j < |cards| ==>
        cards[j].selected == old(cards[j].selected) && cards[j].limit == old(cards[j].limit)
      invariant forall j :: 0 <= j < i && old(cards[j].selected) ==>
        Updated(cards[j], old(cards[j].content), old(cards[j].countClass), hashtag)
      invariant forall j :: 0 <= j < |cards| && (i <= j || !old(cards[j].selected)) ==>
        cards[j].content == old(cards[j].content) && cards[j].countClass == old(cards[j].countClass)
    {
      if cards[i].selected {
        cards[i].AddHashtag(hashtag);
      }
      i := i + 1;
    }
  }

  /** `addHashtagToSelectedVariations`: with no selected card the user is told to select
      one and nothing changes; otherwise every selected card gets the hashtag and its
      counter recomputed, and the other cards are left as they were. */
  method AddHashtagToSelectedVariations(cards: seq<VariationCard>, hashtag: string)
    returns (result: Result<(), string>)
    requires forall i, j :: 0 <= i < j < |cards| ==> cards[i] != cards[j]
    modifies set c | c in cards
    ensures result.Err? <==> forall j :: 0 <= j < |cards| ==> !old(cards[j].selected)
    ensures result.Err? ==> result.error == NoSelectionMessage && unchanged(set c | c in cards)
    ensures forall j :: 0 <= j < |cards| ==>
      cards[j].selected == old(cards[j].selected) && cards[j].limit == old(cards[j].limit)
    ensures forall j :: 0 <= j < |cards| && old(cards[j].selected) ==>
      Updated(cards[j], old(cards[j].content), old(cards[j].countClass), hashtag)
    ensures forall j :: 0 <= j < |cards| && !old(cards[j].selected) ==>
      cards[j].content == old(cards[j].content) && cards[j].countClass == old(cards[j].countClass)
  {
    var chosen := Selected(cards);
    if chosen == [] {
      return Err(NoSelectionMessage);
    }
    ghost var picked := chosen[0];
    assert picked in cards && picked.selected;
    AddHashtagToCards(cards, hashtag);
    result := Ok(());
  }
}
