/** The hashtag suggestions shown after a run, `generateHashtagSuggestions`
    (script.js:751-771): one tag per long topic word, one per long keyword, three
    trending tags, duplicates dropped and at most eight kept. */
module Hashtags {
  import opened Text
  import opened Lists

  /** The trending tags the source lists; only the first three are used. */
  const Trending: seq<string> := ["#Trending", "#Viral", "#MustRead", "#Inspiration", "#Tips", "#Innovation"]

  const MaxSuggestions: nat := 8

  /** `'#' + word.charAt(0).toUpperCase() + word.slice(1)`. */
  function TopicTag(word: string): string
    requires word != []
  {
    "#" + [UpperChar(word[0])] + word[1..]
  }

  /** The tags of the topic words longer than three characters, in order. */
  function TopicTags(words: seq<string>): seq<string> {
    if words == [] then []
    else
      var w := words[|words| - 1];
      TopicTags(words[..|words| - 1]) + (if |w| > 3 then [TopicTag(w)] else [])
  }

  /** `'#' + keyword.replace(/\s+/g, '')`. */
  function KeywordTag(keyword: string): string {
    "#" + RemoveSpaces(keyword)
  }

  /** The tags of the keywords longer than two characters, in order. */
  function KeywordTags(keywords: seq<string>): seq<string> {
    if keywords == [] then []
    else
      var k := keywords[|keywords| - 1];
      KeywordTags(keywords[..|keywords| - 1]) + (if |k| > 2 then [KeywordTag(k)] else [])
  }

  /** The words of the topic: lower-cased and split at single spaces. */
  function TopicWords(topic: string): seq<string> {
    Split(ToLower(topic), ' ')
  }

  /** Every tag pushed, in push order: topic words, keywords, then three trending tags. */
  function Candidates(topic: string, keywords: seq<string>): seq<string> {
    TopicTags(TopicWords(topic)) + KeywordTags(keywords) + Trending[..3]
  }

  /** `xs.slice(0, n)`. */
  function Take<T>(xs: seq<T>, n: nat): (r: seq<T>)
    ensures |r| == (if |xs| <= n then |xs| else n) && r == xs[..|r|]
    ensures |xs| <= n ==> r == xs
  {
    if |xs| <= n then xs else xs[..n]
  }

  /** `[...new Set(suggestions)].slice(0, 8)`. */
  function Suggestions(topic: string, keywords: seq<string>): seq<string> {
    Take(Distinct(Candidates(topic, keywords)), MaxSuggestions)
  }

  /** The source's `forEach` loops pushing into `suggestions`, then the de-duplicated
      prefix of at most eight. */
  method GenerateHashtagSuggestions(topic: string, keywords: seq<string>) returns (hashtags: seq<string>)
    ensures hashtags == Suggestions(topic, keywords)
  {
    var suggestions: seq<string> := [];
    var words := Split(ToLower(topic), ' ');
    var i := 0;
    while i < |words|
      invariant 0 <= i <= |words|
      invariant suggestions == TopicTags(words[..i])
    {
      assert words[..i + 1][..i] == words[..i];
      if |words[i]| > 3 {
        suggestions := suggestions + [TopicTag(words[i])];
      }
      i := i + 1;
    }
    assert words[..|words|] == words;
    ghost var fromTopic := suggestions;
    var j := 0;
    while j < |keywords|
      invariant 0 <= j <= |keywords|
      invariant suggestions == fromTopic + KeywordTags(keywords[..j])
    {
      assert keywords[..j + 1][..j] == keywords[..j];
      if |keywords[j]| > 2 {
        suggestions := suggestions + [KeywordTag(keywords[j])];
      }
      j := j + 1;
    }
    assert keywords[..|keywords|] == keywords;
    suggestions := suggestions + Trending[..3];
    hashtags := Take(Distinct(suggestions), MaxSuggestions);
  }

  // ---------------------------------------------------------------------------
  // Properties.

  predicate IsTag(h: string) {
    h != [] && h[0] == '#'
  }

  lemma {:induction false} TopicTagsAreTags(words: seq<string>)
    ensures forall h :: h in TopicTags(words) ==> IsTag(h) && |h| >= 5
  {
    if words != [] {
      TopicTagsAreTags(words[..|words| - 1]);
    }
  }

  lemma {:induction false} KeywordTagsAreTags(keywords: seq<string>)
    ensures forall h :: h in KeywordTags(keywords) ==> IsTag(h)
  {
    if keywords != [] {
      KeywordTagsAreTags(keywords[..|keywords| - 1]);
    }
  }

  /** The three trending tags that are pushed. */
  lemma ShownTrending()
    ensures Trending[..3] == ["#Trending", "#Viral", "#MustRead"]
    ensures forall h :: h in Trending[..3] ==> IsTag(h)
  {
  }

  /** Every candidate is a tag starting with `#`. */
  lemma CandidatesAreTags(topic: string, keywords: seq<string>)
    ensures forall h :: h in Candidates(topic, keywords) ==> IsTag(h)
  {
    TopicTagsAreTags(TopicWords(topic));
    KeywordTagsAreTags(keywords);
    ShownTrending();
  }

  /** The suggestions are the first eight distinct candidates (all of them when there are
      no more than eight): they start with `#`, are pairwise distinct, are all candidates,
      and keep the order in which the candidates first occur. */
  lemma SuggestionsSpec(topic: string, keywords: seq<string>)
    ensures var r := Suggestions(topic, keywords);
      var d := Distinct(Candidates(topic, keywords));
      && r == d[..|r|]
      && |r| == (if |d| <= MaxSuggestions then |d| else MaxSuggestions)
      && (|d| <= MaxSuggestions ==> forall h :: h in Candidates(topic, keywords) ==> h in r)
      && NoDuplicates(r)
      && (forall h :: h in r ==> IsTag(h) && h in Candidates(topic, keywords))
      && (forall i, j :: 0 <= i < j < |r| ==>
            IndexOf(Candidates(topic, keywords), r[i]) < IndexOf(Candidates(topic, keywords), r[j]))
  {
    var c := Candidates(topic, keywords);
    var d := Distinct(c);
    var r := Suggestions(topic, keywords);
    DistinctSpec(c);
    CandidatesAreTags(topic, keywords);
    assert forall h :: h in r ==> h in d;
    assert forall i :: 0 <= i < |r| ==> r[i] == d[i];
  }

  /** Appending `b` adds at most `|b|` distinct elements. */
  lemma {:induction false} DistinctGrowth(a: seq<string>, b: seq<string>)
    ensures |Distinct(a + b)| <= |Distinct(a)| + |b|
    decreases |b|
  {
    if b != [] {
      var init := b[..|b| - 1];
      DistinctGrowth(a, init);
      assert a + b == (a + init) + [b[|b| - 1]];
      DistinctSnoc(a + b);
      assert (a + b)[..|a + b| - 1] == a + init;
    } else {
      assert a + b == a;
    }
  }

  /** With at most five distinct tags from the topic and the keywords, all three trending
      tags are suggested. */
  lemma TrendingShown(topic: string, keywords: seq<string>)
    requires |Distinct(TopicTags(TopicWords(topic)) + KeywordTags(keywords))| <= 5
    ensures "#Trending" in Suggestions(topic, keywords)
    ensures "#Viral" in Suggestions(topic, keywords)
    ensures "#MustRead" in Suggestions(topic, keywords)
  {
    var own := TopicTags(TopicWords(topic)) + KeywordTags(keywords);
    var t := Trending[..3];
    ShownTrending();
    var c := Candidates(topic, keywords);
    assert c == own + t;
    DistinctGrowth(own, t);
    DistinctMembers(c);
    assert Suggestions(topic, keywords) == Distinct(c);
  }

  /** The tag of a topic word is the word with its first letter capitalised. */
  lemma TopicTagShape(word: string)
    requires |word| > 3
    ensures var h := TopicTag(word);
      |h| == |word| + 1 && h[0] == '#' && h[1] == UpperChar(word[0]) && h[2..] == word[1..]
  {
  }

  /** A keyword tag has no whitespace after its `#`. */
  lemma KeywordTagShape(keyword: string)
    ensures var h := KeywordTag(keyword);
      h[0] == '#' && forall i :: 1 <= i < |h| ==> !IsSpace(h[i])
  {
    var h := KeywordTag(keyword);
    var r := RemoveSpaces(keyword);
    assert forall i :: 1 <= i < |h| ==> h[i] == r[i - 1];
  }
}
