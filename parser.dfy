/** The label protocol's response parser, `parseMultiPlatformResponse` (script.js:574-631).

    The model text is split into lines. A trimmed line that starts with one of the
    upper-case labels followed directly by a colon opens a new buffer for that platform
    and closes the previous one; any other non-blank line is trimmed and appended to the
    open buffer; lines before the first label are dropped. A closed buffer yields a post
    when its trimmed text is non-empty.

    The scanner is modelled three times: as the imperative loop of the source
    (`ParseMultiPlatformResponse`), as the left fold it performs (`Step`, `Run`), and as
    an independent description by sections (`Sections`, `ReferencePosts`). The loop is
    proved to compute the fold and the fold to agree with the sections. */
module ResponseParser {
  import opened Wrappers
  import opened Text
  import opened Lists
  import opened Platforms

  /** `line` starts with the label of `p` immediately followed by a colon. */
  predicate HasLabel(line: string, p: Platform) {
    StartsWith(line, Label(p) + ":")
  }

  /** A successful match of `^(TWITTER|INSTAGRAM|...|GENERIC):\s*(.*)`: the platform of the
      label and the text captured by `(.*)`. */
  datatype LabelMatch = LabelMatch(platform: Platform, rest: string)

  /** `(.*)`: the longest prefix without a line terminator. */
  function TakeLine(s: string): (r: string)
    ensures |r| <= |s| && r == s[..|r|]
    ensures forall i :: 0 <= i < |r| ==> !IsLineTerminator(r[i])
    ensures |r| < |s| ==> IsLineTerminator(s[|r|])
  {
    if s == [] || IsLineTerminator(s[0]) then ""
    else
      var r := [s[0]] + TakeLine(s[1..]);
      assert s[1..][..|r| - 1] == s[1..|r|];
      r
  }

  /** What the pattern captures after the colon: `\s*` is skipped, then `(.*)`. */
  function Remainder(afterColon: string): string {
    TakeLine(TrimStart(afterColon))
  }

  function MatchFrom(line: string, alternatives: seq<Platform>): (m: Option<LabelMatch>)
    ensures m.Some? ==> (m.value.platform in alternatives && HasLabel(line, m.value.platform)
      && m.value.rest == Remainder(line[|Label(m.value.platform)| + 1..]))
    ensures m.None? ==> forall p :: p in alternatives ==> !HasLabel(line, p)
  {
    if alternatives == [] then None
    else if HasLabel(line, alternatives[0]) then
      Some(LabelMatch(alternatives[0], Remainder(line[|Label(alternatives[0])| + 1..])))
    else MatchFrom(line, alternatives[1..])
  }

  lemma LabelOrderHasAll()
    ensures forall p :: p in LabelOrder
  {
    forall p ensures p in LabelOrder {
      OrdersAreComplete(p);
    }
  }

  /** The pattern at script.js:595, tried on a trimmed line: it matches exactly when the
      line starts with a label and a colon, and then captures the remainder. */
  function MatchLabel(line: string): (m: Option<LabelMatch>)
    ensures m.Some? ==> (HasLabel(line, m.value.platform)
      && m.value.rest == Remainder(line[|Label(m.value.platform)| + 1..]))
    ensures m.None? <==> forall p :: !HasLabel(line, p)
  {
    LabelOrderHasAll();
    MatchFrom(line, LabelOrder)
  }

  /** No label with its colon is a prefix of another one, so at most one label matches. */
  lemma LabelUnique(line: string, p: Platform, q: Platform)
    requires HasLabel(line, p) && HasLabel(line, q)
    ensures p == q
  {
    assert line[0] == (Label(p) + ":")[0] == (Label(q) + ":")[0];
    assert line[1] == (Label(p) + ":")[1] == (Label(q) + ":")[1];
  }

  /** Which platform a matching line opens does not depend on the order of the alternatives. */
  lemma MatchLabelOpens(line: string, p: Platform)
    requires HasLabel(line, p)
    ensures MatchLabel(line) == Some(LabelMatch(p, Remainder(line[|Label(p)| + 1..])))
  {
    LabelUnique(line, p, MatchLabel(line).value.platform);
  }

  /** What one line of the response is to the scanner: a label line with its platform and
      captured remainder, or a text line given by its trimmed form (empty when blank). */
  datatype LineKind = Labelled(platform: Platform, rest: string) | Text(trimmed: string)

  /** `line.trim()` followed by the pattern of script.js:595. */
  function Classify(line: string): LineKind {
    var t := Trim(line);
    match MatchLabel(t)
    case Some(m) => Labelled(m.platform, m.rest)
    case None => Text(t)
  }

  /** A line is a label line exactly when its trimmed form starts with a label and a colon;
      otherwise it stands for its trimmed text. */
  lemma ClassifySpec(line: string)
    ensures Classify(line).Labelled? <==> exists p :: HasLabel(Trim(line), p)
    ensures Classify(line).Labelled? ==> (HasLabel(Trim(line), Classify(line).platform)
      && Classify(line).rest == Remainder(Trim(line)[|Label(Classify(line).platform)| + 1..]))
    ensures Classify(line).Text? ==> Classify(line).trimmed == Trim(line)
  {
  }

  function ClassifyAll(lines: seq<string>): (kinds: seq<LineKind>)
    ensures |kinds| == |lines|
  {
    if lines == [] then [] else [Classify(lines[0])] + ClassifyAll(lines[1..])
  }

  lemma {:induction false} ClassifyAllAt(lines: seq<string>, i: nat)
    requires i < |lines|
    ensures ClassifyAll(lines)[i] == Classify(lines[i])
  {
    if i > 0 {
      ClassifyAllAt(lines[1..], i - 1);
    }
  }

  /** A post cut out of the model text: the platform of its label and its content. */
  datatype Post = Post(platform: Platform, content: string)

  /** The scanner's state: the open label (`currentPlatform`), the buffer
      (`currentContent`) and the posts emitted so far. */
  datatype ScanState = ScanState(open: Option<Platform>, buffer: string, posts: seq<Post>)

  const Start: ScanState := ScanState(None, "", [])

  /** What closing the buffer emits: one post, unless no label is open or the buffer is blank. */
  function Pending(open: Option<Platform>, buffer: string): seq<Post> {
    if open.Some? && Trim(buffer) != "" then [Post(open.value, Trim(buffer))] else []
  }

  /** A continuation line joins the buffer after a newline, or alone when the buffer is empty. */
  function Append(buffer: string, t: string): string {
    if buffer != "" then buffer + "\n" + t else t
  }

  /** One iteration of the `forEach` over the lines (script.js:591-617). */
  function Step(st: ScanState, k: LineKind): ScanState {
    match k
    case Labelled(p, rest) => ScanState(Some(p), rest, st.posts + Pending(st.open, st.buffer))
    case Text(t) => if st.open.Some? && t != "" then st.(buffer := Append(st.buffer, t)) else st
  }

  function Run(st: ScanState, kinds: seq<LineKind>): ScanState
    decreases |kinds|
  {
    if kinds == [] then st else Run(Step(st, kinds[0]), kinds[1..])
  }

  /** The final close after the loop (script.js:619-628). */
  function Finish(st: ScanState): seq<Post> {
    st.posts + Pending(st.open, st.buffer)
  }

  function Scan(kinds: seq<LineKind>): seq<Post> {
    Finish(Run(Start, kinds))
  }

  /** The posts the parser cuts out of a whole response. */
  function ParsePosts(content: string): seq<Post> {
    Scan(ClassifyAll(Split(content, '\n')))
  }

  /** The record the parser returns for one post, tagged with the model and the provider. */
  function ToVariation(post: Post, modelName: string, provider: Provider): Variation {
    Variation(post.content, AIGenerated, post.platform, modelName, provider, false)
  }

  function ToVariations(posts: seq<Post>, modelName: string, provider: Provider): (vs: seq<Variation>)
    ensures |vs| == |posts|
  {
    if posts == [] then []
    else
      ToVariations(posts[..|posts| - 1], modelName, provider)
        + [ToVariation(posts[|posts| - 1], modelName, provider)]
  }

  lemma ToVariationsSnoc(posts: seq<Post>, post: Post, modelName: string, provider: Provider)
    ensures ToVariations(posts + [post], modelName, provider)
      == ToVariations(posts, modelName, provider) + [ToVariation(post, modelName, provider)]
  {
    assert (posts + [post])[..|posts|] == posts;
  }

  /** Each record carries its post's content and platform, marked as generated. */
  lemma {:induction false} ToVariationsSpec(posts: seq<Post>, modelName: string, provider: Provider)
    ensures forall i :: 0 <= i < |posts| ==>
      ToVariations(posts, modelName, provider)[i] == ToVariation(posts[i], modelName, provider)
  {
    if posts != [] {
      var init := posts[..|posts| - 1];
      ToVariationsSpec(init, modelName, provider);
      assert forall i :: 0 <= i < |init| ==> posts[i] == init[i];
    }
  }

  lemma {:induction false} RunFrom(st: ScanState, kinds: seq<LineKind>, i: nat)
    requires i < |kinds|
    ensures Run(st, kinds[i..]) == Run(Step(st, kinds[i]), kinds[i + 1..])
  {
    assert kinds[i..][0] == kinds[i] && kinds[i..][1..] == kinds[i + 1..];
  }

  /** The step the loop body takes on a line, in terms of the line's text and match. */
  lemma ClassifyByMatch(line: string)
    ensures MatchLabel(Trim(line)).Some? ==>
      Classify(line) == Labelled(MatchLabel(Trim(line)).value.platform, MatchLabel(Trim(line)).value.rest)
    ensures MatchLabel(Trim(line)).None? ==> Classify(line) == Text(Trim(line))
  {
  }

  lemma {:induction false} ToVariationsAppend(a: seq<Post>, b: seq<Post>, modelName: string, provider: Provider)
    ensures ToVariations(a + b, modelName, provider)
      == ToVariations(a, modelName, provider) + ToVariations(b, modelName, provider)
    decreases |b|
  {
    if b == [] {
      AppendNil(a);
      AppendNil(ToVariations(a, modelName, provider));
    } else {
      var init, last := b[..|b| - 1], b[|b| - 1];
      ToVariationsAppend(a, init, modelName, provider);
      assert b == init + [last];
      AppendAssoc(a, init, [last]);
      ToVariationsSnoc(a + init, last, modelName, provider);
      ToVariationsSnoc(init, last, modelName, provider);
      AppendAssoc(ToVariations(a, modelName, provider), ToVariations(init, modelName, provider),
        [ToVariation(last, modelName, provider)]);
    }
  }

  /** A step does not look at the posts already emitted. */
  lemma StepPosts(open: Option<Platform>, buffer: string, posts: seq<Post>, k: LineKind)
    ensures var s := Step(ScanState(open, buffer, []), k);
      Step(ScanState(open, buffer, posts), k) == ScanState(s.open, s.buffer, posts + s.posts)
  {
    AppendNil(posts);
    AppendNil(Pending(open, buffer));
  }

  lemma ToVariationsOne(post: Post, modelName: string, provider: Provider)
    ensures ToVariations([post], modelName, provider) == [ToVariation(post, modelName, provider)]
  {
    assert [post][..0] == [];
  }

  /** The body of the `forEach` callback (script.js:592-616): the new open label, the new
      buffer and the records emitted by closing the previous buffer, as one step of the scan. */
  method ScanLine(currentPlatform: Option<Platform>, currentContent: string, line: string,
                  modelName: string, provider: Provider)
    returns (platform: Option<Platform>, buffer: string, emitted: seq<Variation>)
    ensures var st := Step(ScanState(currentPlatform, currentContent, []), Classify(line));
      platform == st.open && buffer == st.buffer && emitted == ToVariations(st.posts, modelName, provider)
  {
    var trimmedLine := Trim(line);
    var platformMatch := MatchLabel(trimmedLine);
    ghost var st := Step(ScanState(currentPlatform, currentContent, []), Classify(line));
    platform, buffer, emitted := currentPlatform, currentContent, [];
    if platformMatch.Some? {
      assert st == ScanState(Some(platformMatch.value.platform), platformMatch.value.rest,
                             Pending(currentPlatform, currentContent)) by {
        ClassifyByMatch(line);
        AppendNil(Pending(currentPlatform, currentContent));
      }
      if currentPlatform.Some? && Trim(currentContent) != "" {
        var post := Post(currentPlatform.value, Trim(currentContent));
        emitted := [ToVariation(post, modelName, provider)];
        ToVariationsOne(post, modelName, provider);
      }
      platform := Some(platformMatch.value.platform);
      buffer := platformMatch.value.rest;
    } else {
      assert Classify(line) == Text(trimmedLine) by {
        ClassifyByMatch(line);
      }
      if currentPlatform.Some? && trimmedLine != "" {
        if buffer != "" {
          buffer := buffer + "\n";
        }
        buffer := buffer + trimmedLine;
      }
    }
  }

  /** The scan of `parseMultiPlatformResponse` over the lines of the response
      (script.js:591-628): the records are those of the posts cut out of the lines, in order. */
  method ParseLines(lines: seq<string>, modelName: string, provider: Provider)
    returns (variations: seq<Variation>)
    ensures variations == ToVariations(Scan(ClassifyAll(lines)), modelName, provider)
  {
    ghost var kinds := ClassifyAll(lines);
    var currentPlatform: Option<Platform> := None;
    var currentContent := "";
    ghost var posts: seq<Post> := [];
    variations := [];
    var i := 0;
    while i < |lines|
      invariant 0 <= i <= |lines|
      invariant Finish(Run(ScanState(currentPlatform, currentContent, posts), kinds[i..])) == Scan(kinds)
      invariant variations == ToVariations(posts, modelName, provider)
    {
      RunFrom(ScanState(currentPlatform, currentContent, posts), kinds, i);
      ClassifyAllAt(lines, i);
      ghost var step := Step(ScanState(currentPlatform, currentContent, []), kinds[i]);
      StepPosts(currentPlatform, currentContent, posts, kinds[i]);
      ToVariationsAppend(posts, step.posts, modelName, provider);
      var emitted;
      currentPlatform, currentContent, emitted := ScanLine(currentPlatform, currentContent, lines[i], modelName, provider);
      variations := variations + emitted;
      posts := posts + step.posts;
      i := i + 1;
    }
    assert kinds[i..] == [];
    ghost var last := Pending(currentPlatform, currentContent);
    if currentPlatform.Some? && Trim(currentContent) != "" {
      var post := Post(currentPlatform.value, Trim(currentContent));
      ToVariationsSnoc(posts, post, modelName, provider);
      variations := variations + [ToVariation(post, modelName, provider)];
      assert last == [post];
    } else {
      assert last == [];
      AppendNil(posts);
    }
  }

  /** `parseMultiPlatformResponse` (script.js:574-631): the response is split at line feeds
      and scanned; the records are those of the posts `ParsePosts` cuts out, in order. */
  method ParseMultiPlatformResponse(content: string, modelName: string, provider: Provider)
    returns (variations: seq<Variation>)
    ensures variations == ToVariations(ParsePosts(content), modelName, provider)
  {
    var lines := Split(content, '\n');
    variations := ParseLines(lines, modelName, provider);
  }

  // ---------------------------------------------------------------------------
  // The reference description: sections.

  /** Number of leading lines that are not label lines. */
  function UnlabelledPrefix(kinds: seq<LineKind>): (n: nat)
    ensures n <= |kinds|
    ensures n < |kinds| ==> kinds[n].Labelled?
  {
    if kinds == [] || kinds[0].Labelled? then 0 else 1 + UnlabelledPrefix(kinds[1..])
  }

  /** A label line with the text lines that follow it up to the next label line. */
  datatype Section = Section(platform: Platform, rest: string, body: seq<string>)

  /** The trimmed text lines among `kinds`, in order. */
  function Texts(kinds: seq<LineKind>): seq<string> {
    if kinds == [] then []
    else (match kinds[0] case Text(t) => [t] case Labelled(_, _) => []) + Texts(kinds[1..])
  }

  /** The response cut at its label lines; lines before the first label belong to no section. */
  function Sections(kinds: seq<LineKind>): seq<Section>
    decreases |kinds|
  {
    if kinds == [] then []
    else if kinds[0].Text? then Sections(kinds[1..])
    else
      var tail := kinds[1..];
      var n := UnlabelledPrefix(tail);
      [Section(kinds[0].platform, kinds[0].rest, Texts(tail[..n]))] + Sections(tail[n..])
  }

  function NonEmpty(pieces: seq<string>): (r: seq<string>)
    ensures forall i :: 0 <= i < |r| ==> r[i] != ""
  {
    if pieces == [] then []
    else (if pieces[0] == "" then [] else [pieces[0]]) + NonEmpty(pieces[1..])
  }

  /** A section's text: the captured remainder and the trimmed body lines, blank pieces
      left out, joined by newlines. */
  function SectionText(s: Section): string {
    Join(NonEmpty([s.rest] + s.body), "\n")
  }

  function PostsOf(sections: seq<Section>): (r: seq<Post>)
    ensures |r| <= |sections|
  {
    if sections == [] then []
    else Pending(Some(sections[0].platform), SectionText(sections[0])) + PostsOf(sections[1..])
  }

  /** One post per section whose trimmed text is non-empty, in section order. */
  function ReferencePosts(kinds: seq<LineKind>): seq<Post> {
    PostsOf(Sections(kinds))
  }

  /** The buffer after appending the non-blank lines of a body. */
  function Absorb(buffer: string, body: seq<string>): string
    decreases |body|
  {
    if body == [] then buffer
    else Absorb(if body[0] != "" then Append(buffer, body[0]) else buffer, body[1..])
  }

  lemma {:induction false} JoinCons(x: string, ys: seq<string>)
    ensures Join([x] + ys, "\n") == if ys == [] then x else x + "\n" + Join(ys, "\n")
  {
    assert ([x] + ys)[1..] == ys;
  }

  lemma {:induction false} NonEmptyCons(x: string, ys: seq<string>)
    ensures NonEmpty([x] + ys) == (if x == "" then [] else [x]) + NonEmpty(ys)
  {
    assert ([x] + ys)[1..] == ys;
  }

  /** Appending line by line builds the newline-joined list of non-blank pieces. */
  lemma {:induction false} AbsorbJoins(buffer: string, body: seq<string>)
    ensures Absorb(buffer, body) == Join(NonEmpty([buffer] + body), "\n")
    decreases |body|
  {
    if body == [] {
      NonEmptyCons(buffer, []);
      assert [buffer] + body == [buffer];
    } else {
      var t, rest := body[0], body[1..];
      assert body == [t] + rest;
      var after := if t != "" then Append(buffer, t) else buffer;
      assert Absorb(buffer, body) == Absorb(after, rest);
      AbsorbJoins(after, rest);
      if t == "" {
        NonEmptySkip(buffer, rest);
      } else if buffer == "" {
        NonEmptyFirst(t, rest);
      } else {
        NonEmptyJoined(buffer, t, rest);
      }
    }
  }

  lemma NonEmptySkip(buffer: string, rest: seq<string>)
    ensures NonEmpty([buffer] + ([""] + rest)) == NonEmpty([buffer] + rest)
  {
    NonEmptyCons(buffer, [""] + rest);
    NonEmptyCons("", rest);
    NonEmptyCons(buffer, rest);
  }

  lemma NonEmptyFirst(t: string, rest: seq<string>)
    requires t != ""
    ensures NonEmpty([""] + ([t] + rest)) == NonEmpty([t] + rest)
  {
    NonEmptyCons("", [t] + rest);
  }

  lemma NonEmptyJoined(buffer: string, t: string, rest: seq<string>)
    requires t != "" && buffer != ""
    ensures Join(NonEmpty([buffer + "\n" + t] + rest), "\n") == Join(NonEmpty([buffer] + ([t] + rest)), "\n")
  {
    NonEmptyCons(buffer, [t] + rest);
    NonEmptyCons(t, rest);
    NonEmptyCons(buffer + "\n" + t, rest);
    AppendAssoc([buffer], [t], NonEmpty(rest));
    JoinAppend(buffer, t, NonEmpty(rest));
  }

  /** Appending `t` to a non-empty buffer is what the join puts between the two. */
  lemma JoinAppend(buffer: string, t: string, tail: seq<string>)
    ensures Join([buffer + "\n" + t] + tail, "\n") == Join([buffer] + ([t] + tail), "\n")
  {
    JoinCons(buffer, [t] + tail);
    JoinCons(t, tail);
    JoinCons(buffer + "\n" + t, tail);
    if tail != [] {
      var j := Join(tail, "\n");
      AppendAssoc(buffer + "\n" + t, "\n", j);
      AppendAssoc(buffer + "\n", t, "\n" + j);
      AppendAssoc(t, "\n", j);
      AppendAssoc(buffer, "\n", t + "\n" + j);
    }
  }

  lemma {:induction false} RunCons(st: ScanState, kinds: seq<LineKind>)
    requires kinds != []
    ensures Run(st, kinds) == Run(Step(st, kinds[0]), kinds[1..])
  {
  }

  lemma {:induction false} PostsOfCons(s: Section, rest: seq<Section>)
    ensures PostsOf([s] + rest) == Pending(Some(s.platform), SectionText(s)) + PostsOf(rest)
  {
    assert ([s] + rest)[0] == s && ([s] + rest)[1..] == rest;
  }

  /** The posts of the sections that start at a label line. */
  lemma {:induction false} ReferenceAtLabel(kinds: seq<LineKind>)
    requires kinds != [] && kinds[0].Labelled?
    ensures var tail := kinds[1..];
      var n := UnlabelledPrefix(tail);
      ReferencePosts(kinds)
        == Pending(Some(kinds[0].platform), Absorb(kinds[0].rest, Texts(tail[..n]))) + ReferencePosts(tail[n..])
  {
    var tail := kinds[1..];
    var n := UnlabelledPrefix(tail);
    var sec := Section(kinds[0].platform, kinds[0].rest, Texts(tail[..n]));
    assert Sections(kinds) == [sec] + Sections(tail[n..]);
    PostsOfCons(sec, Sections(tail[n..]));
    AbsorbJoins(kinds[0].rest, Texts(tail[..n]));
  }

  /** A label line met while a label is open closes the open buffer as it stands. */
  lemma RunOpenAtLabel(p: Platform, buffer: string, posts: seq<Post>, kinds: seq<LineKind>)
    requires kinds != [] && kinds[0].Labelled?
    requires var q, tail := kinds[0].platform, kinds[1..];
      var k := UnlabelledPrefix(tail);
      Finish(Run(ScanState(Some(q), kinds[0].rest, posts + Pending(Some(p), buffer)), tail))
        == posts + Pending(Some(p), buffer) + Pending(Some(q), Absorb(kinds[0].rest, Texts(tail[..k])))
          + ReferencePosts(tail[k..])
    ensures var n := UnlabelledPrefix(kinds);
      Finish(Run(ScanState(Some(p), buffer, posts), kinds))
        == posts + Pending(Some(p), Absorb(buffer, Texts(kinds[..n]))) + ReferencePosts(kinds[n..])
  {
    var tail := kinds[1..];
    var k := UnlabelledPrefix(tail);
    RunCons(ScanState(Some(p), buffer, posts), kinds);
    ReferenceAtLabel(kinds);
    assert UnlabelledPrefix(kinds) == 0;
    assert kinds[..0] == [] && kinds[0..] == kinds;
    var a := posts + Pending(Some(p), buffer);
    var b := Pending(Some(kinds[0].platform), Absorb(kinds[0].rest, Texts(tail[..k])));
    AppendAssoc(a, b, ReferencePosts(tail[k..]));
  }

  /** The text lines at the head of `kinds` are what `Absorb` takes in. */
  lemma TextsAtText(kinds: seq<LineKind>)
    requires kinds != [] && kinds[0].Text?
    ensures var n := UnlabelledPrefix(kinds);
      n >= 1 && Texts(kinds[..n]) == [kinds[0].trimmed] + Texts(kinds[1..][..n - 1])
        && kinds[n..] == kinds[1..][n - 1..]
  {
    var n := UnlabelledPrefix(kinds);
    assert kinds[..n][0] == kinds[0] && kinds[..n][1..] == kinds[1..][..n - 1];
  }

  lemma AbsorbCons(buffer: string, t: string, body: seq<string>)
    ensures Absorb(buffer, [t] + body) == Absorb(if t != "" then Append(buffer, t) else buffer, body)
  {
    assert ([t] + body)[0] == t && ([t] + body)[1..] == body;
  }

  /** A text line met while a label is open joins the open buffer when it is not blank. */
  lemma RunOpenAtText(p: Platform, buffer: string, posts: seq<Post>, kinds: seq<LineKind>)
    requires kinds != [] && kinds[0].Text?
    requires var t := kinds[0].trimmed;
      var after := if t != "" then Append(buffer, t) else buffer;
      var tail := kinds[1..];
      var k := UnlabelledPrefix(tail);
      Finish(Run(ScanState(Some(p), after, posts), tail))
        == posts + Pending(Some(p), Absorb(after, Texts(tail[..k]))) + ReferencePosts(tail[k..])
    ensures var n := UnlabelledPrefix(kinds);
      Finish(Run(ScanState(Some(p), buffer, posts), kinds))
        == posts + Pending(Some(p), Absorb(buffer, Texts(kinds[..n]))) + ReferencePosts(kinds[n..])
  {
    var st := ScanState(Some(p), buffer, posts);
    var t := kinds[0].trimmed;
    RunCons(st, kinds);
    assert Step(st, kinds[0]) == ScanState(Some(p), if t != "" then Append(buffer, t) else buffer, posts);
    TextsAtText(kinds);
    AbsorbCons(buffer, t, Texts(kinds[1..][..UnlabelledPrefix(kinds[1..])]));
  }

  lemma {:induction false} RunOpen(p: Platform, buffer: string, posts: seq<Post>, kinds: seq<LineKind>)
    ensures var n := UnlabelledPrefix(kinds);
      Finish(Run(ScanState(Some(p), buffer, posts), kinds))
        == posts + Pending(Some(p), Absorb(buffer, Texts(kinds[..n]))) + ReferencePosts(kinds[n..])
    decreases |kinds|
  {
    if kinds == [] {
      assert kinds[..0] == [] && kinds[0..] == kinds;
      assert ReferencePosts(kinds) == [];
    } else if kinds[0].Labelled? {
      RunOpen(kinds[0].platform, kinds[0].rest, posts + Pending(Some(p), buffer), kinds[1..]);
      RunOpenAtLabel(p, buffer, posts, kinds);
    } else {
      var t := kinds[0].trimmed;
      RunOpen(p, if t != "" then Append(buffer, t) else buffer, posts, kinds[1..]);
      RunOpenAtText(p, buffer, posts, kinds);
    }
  }

  /** A label line met while no label is open: the same as opening from the start. */
  lemma RunClosedAtLabel(buffer: string, posts: seq<Post>, kinds: seq<LineKind>)
    requires kinds != [] && kinds[0].Labelled?
    ensures Finish(Run(ScanState(None, buffer, posts), kinds)) == posts + ReferencePosts(kinds)
  {
    var st := ScanState(None, buffer, posts);
    var q, rest, tail := kinds[0].platform, kinds[0].rest, kinds[1..];
    RunCons(st, kinds);
    assert Step(st, kinds[0]) == ScanState(Some(q), rest, posts) by {
      assert Pending(None, buffer) == [];
    }
    RunOpen(q, rest, posts, tail);
    ReferenceAtLabel(kinds);
    var n := UnlabelledPrefix(tail);
    AppendAssoc(posts, Pending(Some(q), Absorb(rest, Texts(tail[..n]))), ReferencePosts(tail[n..]));
  }

  lemma {:induction false} RunClosed(buffer: string, posts: seq<Post>, kinds: seq<LineKind>)
    ensures Finish(Run(ScanState(None, buffer, posts), kinds)) == posts + ReferencePosts(kinds)
    decreases |kinds|
  {
    if kinds == [] {
      assert ReferencePosts(kinds) == [];
    } else if kinds[0].Labelled? {
      RunClosedAtLabel(buffer, posts, kinds);
    } else {
      var st := ScanState(None, buffer, posts);
      RunCons(st, kinds);
      assert Step(st, kinds[0]) == st;
      RunClosed(buffer, posts, kinds[1..]);
      assert Sections(kinds) == Sections(kinds[1..]);
    }
  }

  /** The scanner and the section description agree on every input. */
  lemma ScanMatchesSections(kinds: seq<LineKind>)
    ensures Scan(kinds) == ReferencePosts(kinds)
  {
    RunClosed("", [], kinds);
  }

  // ---------------------------------------------------------------------------
  // Properties of the output.

  /** The platforms of the label lines, in the order the lines appear. */
  function LabelPlatforms(kinds: seq<LineKind>): seq<Platform> {
    if kinds == [] then []
    else (if kinds[0].Labelled? then [kinds[0].platform] else []) + LabelPlatforms(kinds[1..])
  }

  function PlatformsOfSections(sections: seq<Section>): (r: seq<Platform>)
    ensures |r| == |sections|
  {
    if sections == [] then [] else [sections[0].platform] + PlatformsOfSections(sections[1..])
  }

  function PlatformsOf(posts: seq<Post>): (r: seq<Platform>)
    ensures |r| == |posts|
  {
    if posts == [] then [] else [posts[0].platform] + PlatformsOf(posts[1..])
  }

  lemma {:induction false} SkipUnlabelled(kinds: seq<LineKind>)
    ensures var n := UnlabelledPrefix(kinds);
      LabelPlatforms(kinds) == LabelPlatforms(kinds[n..]) && Sections(kinds) == Sections(kinds[n..])
  {
    if kinds != [] && kinds[0].Text? {
      var n := UnlabelledPrefix(kinds);
      SkipUnlabelled(kinds[1..]);
      assert kinds[1..][n - 1..] == kinds[n..];
    }
  }

  /** There is one section per label line, carrying that line's platform. */
  lemma {:induction false} SectionsFollowLabels(kinds: seq<LineKind>)
    ensures PlatformsOfSections(Sections(kinds)) == LabelPlatforms(kinds)
    decreases |kinds|
  {
    if kinds != [] {
      var tail := kinds[1..];
      if kinds[0].Labelled? {
        var n := UnlabelledPrefix(tail);
        SkipUnlabelled(tail);
        SectionsFollowLabels(tail[n..]);
        var secs := Sections(tail[n..]);
        assert Sections(kinds) == [Section(kinds[0].platform, kinds[0].rest, Texts(tail[..n]))] + secs;
      } else {
        SectionsFollowLabels(tail);
      }
    }
  }

  /** The posts of a non-empty run of sections: those the first section closes with, then
      those of the rest. */
  lemma {:induction false} PostsOfCut(sections: seq<Section>)
    requires sections != []
    ensures PostsOf(sections)
      == Pending(Some(sections[0].platform), SectionText(sections[0])) + PostsOf(sections[1..])
  {
  }

  /** Every post has trimmed, non-empty content. */
  lemma {:induction false} PostsAreTrimmed(sections: seq<Section>)
    ensures forall i :: 0 <= i < |PostsOf(sections)| ==>
      PostsOf(sections)[i].content != "" && IsTrimmed(PostsOf(sections)[i].content)
  {
    if sections != [] {
      var head: seq<Post> := Pending(Some(sections[0].platform), SectionText(sections[0]));
      var rest: seq<Post> := PostsOf(sections[1..]);
      PostsAreTrimmed(sections[1..]);
      PostsOfCut(sections);
      forall i | 0 <= i < |head + rest|
        ensures (head + rest)[i].content != "" && IsTrimmed((head + rest)[i].content)
      {
        if i >= |head| {
          assert (head + rest)[i] == rest[i - |head|];
        }
      }
    }
  }

  /** The posts' platforms are the sections' platforms with some left out, order kept. */
  lemma {:induction false} PostsFollowSections(sections: seq<Section>)
    ensures IsSubsequence(PlatformsOf(PostsOf(sections)), PlatformsOfSections(sections))
  {
    if sections != [] {
      var p := sections[0].platform;
      var head: seq<Post> := Pending(Some(p), SectionText(sections[0]));
      var rest: seq<Post> := PostsOf(sections[1..]);
      PostsFollowSections(sections[1..]);
      PostsOfCut(sections);
      SubsequenceCons(p, PlatformsOf(rest), PlatformsOfSections(sections[1..]));
      if head == [] {
        assert head + rest == rest;
      } else {
        assert (head + rest)[0].platform == p && (head + rest)[1..] == rest;
      }
    }
  }

  /** The lines of a response, classified. */
  function LinesOf(content: string): seq<LineKind> {
    ClassifyAll(Split(content, '\n'))
  }

  /** What the parser returns for a whole response: never more posts than label lines,
      each with trimmed non-empty content, their platforms those of the label lines in
      the order the lines appear (a label whose text is blank emits nothing; a repeated
      label emits once more); and exactly the label lines' platforms when no section is
      blank. */
  lemma ParseSpec(content: string)
    ensures var posts := ParsePosts(content);
      var labels := LabelPlatforms(LinesOf(content));
      && |posts| <= |labels|
      && (forall i :: 0 <= i < |posts| ==> posts[i].content != "" && IsTrimmed(posts[i].content))
      && IsSubsequence(PlatformsOf(posts), labels)
      && (|posts| == |labels| ==> PlatformsOf(posts) == labels)
  {
    var kinds := LinesOf(content);
    ScanMatchesSections(kinds);
    SectionsFollowLabels(kinds);
    PostsAreTrimmed(Sections(kinds));
    PostsFollowSections(Sections(kinds));
    var posts := ParsePosts(content);
    var labels := LabelPlatforms(kinds);
    SubsequenceLength(PlatformsOf(posts), labels);
    if |posts| == |labels| {
      SubsequenceFull(PlatformsOf(posts), labels);
    }
  }

  /** A blank line is a text line with nothing in it. */
  lemma BlankIsEmptyText(line: string)
    requires IsBlank(line)
    ensures Classify(line) == Text("")
  {
    TrimEmpty(line);
    assert forall p :: !HasLabel("", p);
  }

  /** A blank line changes nothing, wherever it stands. */
  lemma {:induction false} BlankLineIgnored(st: ScanState, before: seq<LineKind>, after: seq<LineKind>)
    ensures Run(st, before + [Text("")] + after) == Run(st, before + after)
    decreases |before|
  {
    if before == [] {
      var ks := [Text("")] + after;
      assert ks[0] == Text("") && ks[1..] == after;
      assert before + [Text("")] + after == ks;
      RunCons(st, ks);
      assert Step(st, Text("")) == st;
      assert before + after == after;
    } else {
      assert (before + [Text("")] + after)[1..] == before[1..] + [Text("")] + after;
      assert (before + after)[1..] == before[1..] + after;
      BlankLineIgnored(Step(st, before[0]), before[1..], after);
    }
  }

  lemma {:induction false} SectionsSkipText(preamble: seq<LineKind>, kinds: seq<LineKind>)
    requires forall i :: 0 <= i < |preamble| ==> preamble[i].Text?
    ensures Sections(preamble + kinds) == Sections(kinds)
  {
    if preamble != [] {
      assert (preamble + kinds)[0] == preamble[0];
      assert (preamble + kinds)[1..] == preamble[1..] + kinds;
      SectionsSkipText(preamble[1..], kinds);
    } else {
      assert preamble + kinds == kinds;
    }
  }

  /** Lines before the first label line contribute nothing. */
  lemma PreambleIgnored(preamble: seq<LineKind>, kinds: seq<LineKind>)
    requires forall i :: 0 <= i < |preamble| ==> preamble[i].Text?
    ensures Scan(preamble + kinds) == Scan(kinds)
  {
    RunClosed("", [], preamble + kinds);
    RunClosed("", [], kinds);
    SectionsSkipText(preamble, kinds);
  }
}
