/** The prompt sent to every provider, `buildMultiPlatformPrompt` (script.js:523-572): a
    fixed introduction, the optional requirement lines in a fixed order, and a format
    block that lists one `LABEL: [...]` line per platform in the order the parser's
    pattern names them. */
module PromptBuilder {
  import opened Wrappers
  import opened Text
  import opened Lists
  import opened Platforms
  import opened ResponseParser

  /** The fields of `options` the prompt reads. */
  datatype PromptOptions = PromptOptions(
    topic: string,
    tone: string,
    keywords: seq<string>,
    includeHashtags: bool,
    includeEmojis: bool,
    includeCallToAction: bool)

  /** The opening text with the tone and the topic filled in (script.js:526-540). */
  function Intro(tone: string, topic: string): string {
    IntroOpening + tone + IntroAbout + topic + IntroBody
  }

  const IntroOpening: string := "Create highly engaging, viral-worthy "
  const IntroAbout: string := " social media posts about \""
  const IntroBody: string :=
    "\" for ALL these platforms in ONE response. Each post must drive maximum user interaction and engagement.\n"
    + "\n"
    + "PLATFORMS TO CREATE POSTS FOR:\n"
    + "1. Twitter/X (280 characters max) - Conversation-starting, retweet-worthy\n"
    + "2. Instagram (2200 characters max) - Lifestyle, save-worthy, visually descriptive\n"
    + "3. Facebook (63206 characters max) - Community-building, shareable in groups\n"
    + "4. Threads (500 characters max) - Deep conversation, authentic sharing\n"
    + "5. Bluesky (300 characters max) - Thoughtful dialogue, community-focused\n"
    + "6. TikTok (150 characters max) - Viral hooks, trend-worthy\n"
    + "7. Generic (500 characters max) - Universal appeal, cross-platform\n"
    + "\n"
    + "REQUIREMENTS:\n"
    + "- Each post must be uniquely optimized for its platform's audience and culture\n"
    + "- Use psychological triggers: curiosity gaps, FOMO, social proof, emotional resonance\n"
    + "- Make content impossible to scroll past without engaging"

  /** The optional requirement lines (script.js:542-556). */
  datatype Requirement = KeywordsReq(keywords: seq<string>) | EmojiReq | CallToActionReq | HashtagReq

  function KeywordsLine(keywords: seq<string>): string {
    "\n- Naturally incorporate these keywords: " + Join(keywords, ", ")
  }

  const EmojiLine: string := "\n- Use strategic emojis appropriate for each platform"
  const CallToActionLine: string := "\n- Include compelling call-to-actions suited for each platform"
  const HashtagLine: string := "\n- Include trending, relevant hashtags for discoverability"

  /** The text a requirement adds to the prompt. */
  function RequirementLine(r: Requirement): string {
    match r
    case KeywordsReq(keywords) => KeywordsLine(keywords)
    case EmojiReq => EmojiLine
    case CallToActionReq => CallToActionLine
    case HashtagReq => HashtagLine
  }

  /** `[r]` when the option is on, nothing otherwise. */
  function When(on: bool, r: Requirement): seq<Requirement> {
    if on then [r] else []
  }

  /** The requirements the options switch on, in the order the source appends them. */
  function Requirements(options: PromptOptions): seq<Requirement> {
    When(|options.keywords| > 0, KeywordsReq(options.keywords))
    + When(options.includeEmojis, EmojiReq)
    + When(options.includeCallToAction, CallToActionReq)
    + When(options.includeHashtags, HashtagReq)
  }

  /** The texts of a list of requirements, one after the other. */
  function Lines(rs: seq<Requirement>): string {
    if rs == [] then "" else RequirementLine(rs[0]) + Lines(rs[1..])
  }

  /** `s` when the option is on, the empty string otherwise. */
  function Opt(on: bool, s: string): string {
    if on then s else ""
  }

  /** The text the switched-on requirement lines add to the prompt. */
  function OptionalLines(options: PromptOptions): string {
    Opt(|options.keywords| > 0, RequirementLine(KeywordsReq(options.keywords)))
    + Opt(options.includeEmojis, RequirementLine(EmojiReq))
    + Opt(options.includeCallToAction, RequirementLine(CallToActionReq))
    + Opt(options.includeHashtags, RequirementLine(HashtagReq))
  }

  /** The placeholder the format block shows after a label. */
  function Placeholder(p: Platform): string {
    "[your " + DisplayName(p) + " post here]"
  }

  /** One line of the format block: a label, a colon, a space and the placeholder. */
  function FormatLine(p: Platform): string {
    (Label(p) + ":") + (" " + Placeholder(p))
  }

  function FormatLineList(ps: seq<Platform>): (r: seq<string>)
    ensures |r| == |ps|
  {
    if ps == [] then [] else [FormatLine(ps[0])] + FormatLineList(ps[1..])
  }

  /** The format lines of `ps`, one per line. */
  function FormatLines(ps: seq<Platform>): string {
    Join(FormatLineList(ps), "\n")
  }

  const FormatHeading: string := "\n\nFORMAT YOUR RESPONSE EXACTLY LIKE THIS:\n"
  const FormatClosing: string := "\n\nMake each post conversation-starting, share-worthy, and impossible to ignore!"

  /** The closing block (script.js:558-569): a heading, the format lines of all seven
      platforms in label order, and a closing sentence. */
  function FormatBlock(): string {
    FormatHeading + FormatLines(LabelOrder) + FormatClosing
  }

  /** One conditional `prompt += s`: the prompt grows by `s` exactly when the option is on. */
  lemma AppendWhen(intro: string, added: string, on: bool, s: string)
    ensures (if on then intro + added + s else intro + added) == intro + (added + Opt(on, s))
  {
    AppendAssoc(intro, added, s);
    AppendNil(added);
  }

  /** The four conditional `prompt +=` of script.js:542-556, on any prompt so far. */
  method AppendRequirements(start: string, options: PromptOptions) returns (prompt: string)
    ensures prompt == start + OptionalLines(options)
  {
    prompt := start;
    ghost var added := Opt(|options.keywords| > 0, KeywordsLine(options.keywords));
    AppendNil(start);
    if |options.keywords| > 0 {
      prompt := prompt + KeywordsLine(options.keywords);
    }
    AppendWhen(start, added, options.includeEmojis, EmojiLine);
    if options.includeEmojis {
      prompt := prompt + EmojiLine;
    }
    added := added + Opt(options.includeEmojis, EmojiLine);
    AppendWhen(start, added, options.includeCallToAction, CallToActionLine);
    if options.includeCallToAction {
      prompt := prompt + CallToActionLine;
    }
    added := added + Opt(options.includeCallToAction, CallToActionLine);
    AppendWhen(start, added, options.includeHashtags, HashtagLine);
    if options.includeHashtags {
      prompt := prompt + HashtagLine;
    }
    added := added + Opt(options.includeHashtags, HashtagLine);
  }

  /** `buildMultiPlatformPrompt`: the introduction, the switched-on requirement lines,
      then the format block. */
  method BuildMultiPlatformPrompt(options: PromptOptions) returns (prompt: string)
    ensures prompt == Intro(options.tone, options.topic) + OptionalLines(options) + FormatBlock()
  {
    prompt := Intro(options.tone, options.topic);
    prompt := AppendRequirements(prompt, options);
    prompt := prompt + FormatBlock();
  }

  // ---------------------------------------------------------------------------
  // The requirement lines.

  /** Each requirement is present exactly when its option is set; for keywords, exactly
      when the list is non-empty. */
  lemma RequirementsPresent(options: PromptOptions)
    ensures KeywordsReq(options.keywords) in Requirements(options) <==> |options.keywords| > 0
    ensures EmojiReq in Requirements(options) <==> options.includeEmojis
    ensures CallToActionReq in Requirements(options) <==> options.includeCallToAction
    ensures HashtagReq in Requirements(options) <==> options.includeHashtags
  {
  }

  /** The present requirements keep the order keywords, emojis, call-to-action, hashtags. */
  lemma RequirementsOrder(options: PromptOptions)
    ensures IsSubsequence(Requirements(options),
      [KeywordsReq(options.keywords), EmojiReq, CallToActionReq, HashtagReq])
  {
    var k := KeywordsReq(options.keywords);
    var w1 := When(|options.keywords| > 0, k);
    var w2 := When(options.includeEmojis, EmojiReq);
    var w3 := When(options.includeCallToAction, CallToActionReq);
    var w4 := When(options.includeHashtags, HashtagReq);
    WhenSubsequence(options.includeHashtags, HashtagReq, [], []);
    AppendNil(w4);
    WhenSubsequence(options.includeCallToAction, CallToActionReq, w4, [HashtagReq]);
    WhenSubsequence(options.includeEmojis, EmojiReq, w3 + w4, [CallToActionReq, HashtagReq]);
    WhenSubsequence(|options.keywords| > 0, k, w2 + (w3 + w4), [EmojiReq, CallToActionReq, HashtagReq]);
    AppendAssoc(w2, w3, w4);
    AppendAssoc(w1, w2 + w3, w4);
    AppendAssoc(w1, w2, w3);
  }

  /** The texts of the present requirements are what the prompt gains between the
      introduction and the format block. */
  lemma RequirementsText(options: PromptOptions)
    ensures Lines(Requirements(options)) == OptionalLines(options)
  {
    var k := KeywordsReq(options.keywords);
    var w1 := When(|options.keywords| > 0, k);
    var w2 := When(options.includeEmojis, EmojiReq);
    var w3 := When(options.includeCallToAction, CallToActionReq);
    LinesWhen(w1 + w2 + w3, options.includeHashtags, HashtagReq);
    LinesWhen(w1 + w2, options.includeCallToAction, CallToActionReq);
    LinesWhen(w1, options.includeEmojis, EmojiReq);
    LinesWhen([], |options.keywords| > 0, k);
    AppendNil(w1);
    AppendNil(Opt(|options.keywords| > 0, RequirementLine(k)));
  }

  /** Putting an optional element in front keeps a subsequence one. */
  lemma WhenSubsequence(on: bool, x: Requirement, a: seq<Requirement>, b: seq<Requirement>)
    requires IsSubsequence(a, b)
    ensures IsSubsequence(When(on, x) + a, [x] + b)
  {
    SubsequenceCons(x, a, b);
    if !on {
      assert When(on, x) + a == a;
    }
  }

  lemma {:induction false} LinesAppend(a: seq<Requirement>, b: seq<Requirement>)
    ensures Lines(a + b) == Lines(a) + Lines(b)
  {
    if a == [] {
      assert a + b == b;
    } else {
      assert (a + b)[1..] == a[1..] + b;
      LinesAppend(a[1..], b);
      AppendAssoc(RequirementLine(a[0]), Lines(a[1..]), Lines(b));
    }
  }

  lemma LinesWhen(done: seq<Requirement>, on: bool, r: Requirement)
    ensures Lines(done + When(on, r)) == Lines(done) + Opt(on, RequirementLine(r))
  {
    LinesAppend(done, When(on, r));
    if on {
      assert Lines([r]) == RequirementLine(r) + Lines([]);
    } else {
      AppendNil(Lines(done));
    }
  }

  // ---------------------------------------------------------------------------
  // The format block read back by the parser.

  predicate LineFree(s: string) {
    forall i :: 0 <= i < |s| ==> !IsLineTerminator(s[i])
  }

  lemma LineFreeAppend(a: string, b: string)
    requires LineFree(a) && LineFree(b)
    ensures LineFree(a + b)
  {
    assert forall i :: |a| <= i < |a + b| ==> (a + b)[i] == b[i - |a|];
  }

  lemma DisplayNameFree(p: Platform)
    ensures LineFree(DisplayName(p))
  {
    match p
    case Twitter =>
    case Threads =>
    case Bluesky =>
    case Instagram =>
    case Facebook =>
    case TikTok =>
    case Generic =>
  }

  lemma LabelShape(p: Platform)
    ensures LineFree(Label(p)) && Label(p) != [] && !IsSpace(Label(p)[0])
  {
    match p
    case Twitter =>
    case Threads =>
    case Bluesky =>
    case Instagram =>
    case Facebook =>
    case TikTok =>
    case Generic =>
  }

  /** A placeholder is one line, opened by `[` and closed by `]`. */
  lemma PlaceholderShape(p: Platform)
    ensures var x := Placeholder(p);
      x != [] && x[0] == '[' && x[|x| - 1] == ']' && LineFree(x)
  {
    var a := "[your ";
    var b := " post here]";
    assert LineFree(a) && LineFree(b);
    DisplayNameFree(p);
    LineFreeAppend(a, DisplayName(p));
    LineFreeAppend(a + DisplayName(p), b);
    var x := a + DisplayName(p) + b;
    assert x[0] == a[0] == '[';
    assert x[|x| - 1] == b[|b| - 1] == ']';
  }

  lemma FormatLineFree(p: Platform)
    ensures '\n' !in FormatLine(p)
  {
    PlaceholderShape(p);
    LabelShape(p);
    assert LineFree(":") && LineFree(" ");
    LineFreeAppend(Label(p), ":");
    LineFreeAppend(" ", Placeholder(p));
    LineFreeAppend(Label(p) + ":", " " + Placeholder(p));
  }

  lemma {:induction false} FormatLineListFree(ps: seq<Platform>)
    ensures forall i :: 0 <= i < |ps| ==> '\n' !in FormatLineList(ps)[i]
  {
    if ps != [] {
      FormatLineFree(ps[0]);
      FormatLineListFree(ps[1..]);
    }
  }

  /** What follows the label's colon: the space is skipped and the placeholder captured. */
  lemma RemainderOfPlaceholder(p: Platform)
    ensures Remainder(" " + Placeholder(p)) == Placeholder(p)
  {
    var x := Placeholder(p);
    PlaceholderShape(p);
    assert (" " + x)[0] == ' ';
    assert (" " + x)[1..] == x;
    TrimStartOfTrimmed(x);
  }

  /** The scanner reads a format line as the label of its platform with the placeholder. */
  lemma ClassifyFormatLine(p: Platform)
    ensures Classify(FormatLine(p)) == Labelled(p, Placeholder(p))
  {
    var head := Label(p) + ":";
    var tail := " " + Placeholder(p);
    var line := head + tail;
    PlaceholderShape(p);
    LabelShape(p);
    assert line[0] == head[0] == Label(p)[0];
    assert line[|line| - 1] == tail[|tail| - 1] == Placeholder(p)[|Placeholder(p)| - 1];
    TrimOfTrimmed(line);
    assert line[..|head|] == head;
    assert line[|Label(p)| + 1..] == tail;
    MatchLabelOpens(line, p);
    RemainderOfPlaceholder(p);
  }

  /** What a reply shaped like the format lines of `ps` is to the scanner. */
  function PlaceholderKinds(ps: seq<Platform>): (r: seq<LineKind>)
    ensures |r| == |ps|
  {
    if ps == [] then [] else [Labelled(ps[0], Placeholder(ps[0]))] + PlaceholderKinds(ps[1..])
  }

  function PlaceholderPosts(ps: seq<Platform>): (r: seq<Post>)
    ensures PlatformsOf(r) == ps
  {
    if ps == [] then [] else [Post(ps[0], Placeholder(ps[0]))] + PlaceholderPosts(ps[1..])
  }

  lemma {:induction false} ClassifyFormatLines(ps: seq<Platform>)
    ensures ClassifyAll(FormatLineList(ps)) == PlaceholderKinds(ps)
  {
    if ps != [] {
      ClassifyFormatLine(ps[0]);
      ClassifyFormatLines(ps[1..]);
      assert FormatLineList(ps)[1..] == FormatLineList(ps[1..]);
    }
  }

  lemma PlaceholderPending(p: Platform)
    ensures Pending(Some(p), Placeholder(p)) == [Post(p, Placeholder(p))]
  {
    var x := Placeholder(p);
    PlaceholderShape(p);
    TrimOfTrimmed(x);
  }

  /** Label lines whose captured text is trimmed and non-empty. */
  predicate FullLabels(kinds: seq<LineKind>) {
    kinds == [] || (kinds[0].Labelled? && kinds[0].rest != "" && IsTrimmed(kinds[0].rest)
      && FullLabels(kinds[1..]))
  }

  /** One post per label line, carrying its captured text. */
  function LabelPosts(kinds: seq<LineKind>): seq<Post>
    requires FullLabels(kinds)
  {
    if kinds == [] then [] else [Post(kinds[0].platform, kinds[0].rest)] + LabelPosts(kinds[1..])
  }

  /** Over label lines with non-blank captures, each line closes the buffer before it and
      opens its own, which the next line (or the end) closes with the capture as content. */
  lemma {:induction false} ScanFullLabels(open: Option<Platform>, buffer: string, posts: seq<Post>,
                                          kinds: seq<LineKind>)
    requires kinds != [] && FullLabels(kinds)
    ensures Finish(Run(ScanState(open, buffer, posts), kinds))
      == posts + Pending(open, buffer) + LabelPosts(kinds)
    decreases |kinds|
  {
    if |kinds| == 1 {
      ScanLastLabel(open, buffer, posts, kinds);
    } else {
      ScanFullLabels(Some(kinds[0].platform), kinds[0].rest, posts + Pending(open, buffer), kinds[1..]);
      ScanNextLabel(open, buffer, posts, kinds);
    }
  }

  /** The last label line: its own post closes the scan. */
  lemma ScanLastLabel(open: Option<Platform>, buffer: string, posts: seq<Post>, kinds: seq<LineKind>)
    requires |kinds| == 1 && FullLabels(kinds)
    ensures Finish(Run(ScanState(open, buffer, posts), kinds))
      == posts + Pending(open, buffer) + LabelPosts(kinds)
  {
    var k := kinds[0];
    var last := [Post(k.platform, k.rest)];
    var st' := ScanState(Some(k.platform), k.rest, posts + Pending(open, buffer));
    assert Run(ScanState(open, buffer, posts), kinds) == st'
        && Pending(st'.open, st'.buffer) == last && LabelPosts(kinds) == last by {
      OpenFullLabel(ScanState(open, buffer, posts), kinds);
      assert LabelPosts(kinds[1..]) == [];
    }
  }

  /** A label line followed by more: the scan of the rest, started from the state the line
      leaves, gives the whole result. */
  lemma ScanNextLabel(open: Option<Platform>, buffer: string, posts: seq<Post>, kinds: seq<LineKind>)
    requires |kinds| > 1 && FullLabels(kinds)
    requires Finish(Run(ScanState(Some(kinds[0].platform), kinds[0].rest, posts + Pending(open, buffer)), kinds[1..]))
      == posts + Pending(open, buffer) + Pending(Some(kinds[0].platform), kinds[0].rest) + LabelPosts(kinds[1..])
    ensures Finish(Run(ScanState(open, buffer, posts), kinds))
      == posts + Pending(open, buffer) + LabelPosts(kinds)
  {
    var posts' := posts + Pending(open, buffer);
    var first := [Post(kinds[0].platform, kinds[0].rest)];
    OpenFullLabel(ScanState(open, buffer, posts), kinds);
    AppendAssoc(posts', first, LabelPosts(kinds[1..]));
  }

  /** The first label line of `kinds` closes the buffer and opens its own. */
  lemma OpenFullLabel(st: ScanState, kinds: seq<LineKind>)
    requires kinds != [] && FullLabels(kinds)
    ensures var st' := ScanState(Some(kinds[0].platform), kinds[0].rest, st.posts + Pending(st.open, st.buffer));
      && Run(st, kinds) == Run(st', kinds[1..])
      && Pending(st'.open, st'.buffer) == [Post(kinds[0].platform, kinds[0].rest)]
      && LabelPosts(kinds) == [Post(kinds[0].platform, kinds[0].rest)] + LabelPosts(kinds[1..])
      && (|kinds| == 1 ==> Run(st', kinds[1..]) == st' && LabelPosts(kinds[1..]) == [])
  {
    PendingTrimmed(kinds[0].platform, kinds[0].rest);
    RunCons(st, kinds);
  }

  /** Closing a buffer that is already trimmed and non-empty emits it unchanged. */
  lemma PendingTrimmed(p: Platform, x: string)
    requires x != "" && IsTrimmed(x)
    ensures Pending(Some(p), x) == [Post(p, x)]
  {
    TrimOfTrimmed(x);
  }

  lemma {:induction false} PlaceholdersFull(ps: seq<Platform>)
    ensures FullLabels(PlaceholderKinds(ps)) && LabelPosts(PlaceholderKinds(ps)) == PlaceholderPosts(ps)
  {
    if ps != [] {
      PlaceholderShape(ps[0]);
      PlaceholdersFull(ps[1..]);
      assert PlaceholderKinds(ps)[1..] == PlaceholderKinds(ps[1..]);
    }
  }

  /** A reply written exactly like the format lines of any non-empty list of platforms
      parses back to one post per line, with those platforms in that order and the
      placeholders as contents. */
  lemma FormatLinesParse(ps: seq<Platform>)
    requires ps != []
    ensures ParsePosts(FormatLines(ps)) == PlaceholderPosts(ps)
    ensures PlatformsOf(ParsePosts(FormatLines(ps))) == ps
  {
    FormatLineListFree(ps);
    SplitJoin(FormatLineList(ps), '\n');
    ClassifyFormatLines(ps);
    PlaceholdersFull(ps);
    ScanFullLabels(None, "", [], PlaceholderKinds(ps));
    AppendNil(PlaceholderPosts(ps));
  }

  /** The format block of every prompt lists the seven labels the parser recognises, in
      the parser's order: a reply copied from it yields one post per platform, each
      platform once, in `LabelOrder`. */
  lemma FormatBlockParses()
    ensures PlatformsOf(ParsePosts(FormatLines(LabelOrder))) == LabelOrder
    ensures forall p :: p in PlatformsOf(ParsePosts(FormatLines(LabelOrder)))
  {
    FormatLinesParse(LabelOrder);
    LabelOrderHasAll();
  }
}
