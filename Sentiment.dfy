/** The keyword sentiment analysis of backend/internal/services/sentiment.go:
    cleanText, the counting loops and the label of AnalyzeText, and the event
    summary. Ratios are exact reals; the summary reads already decoded results. */
module Sentiment {
  import opened Wrappers
  import opened Strings

  const Positive: seq<string> := ["good", "great", "amazing", "awesome", "love", "excellent", "fantastic", "wonderful", "perfect", "best"]
  const Negative: seq<string> := ["bad", "terrible", "awful", "hate", "worst", "horrible", "disappointing", "poor", "useless", "boring"]

  // ---------------------------------------------------------------------------
  // cleanText

  /** The leading run of characters that are not `\s`: what `[^\s]+` consumes. */
  function TokenRun(s: string): (n: nat)
    ensures n <= |s|
    ensures forall i :: 0 <= i < n ==> !RegexSpace(s[i])
    ensures n < |s| ==> RegexSpace(s[n])
  {
    if s == [] || RegexSpace(s[0]) then 0 else 1 + TokenRun(s[1..])
  }

  datatype Token = Url | Mention | Hashtag

  /** The length of the literal prefix of the token's pattern that matches at the start
      of `s` when at least one non-`\s` character follows it, or 0. */
  function PrefixAt(s: string, t: Token): (p: nat)
    ensures p <= |s|
    ensures p > 0 ==> p < |s| && !RegexSpace(s[p])
  {
    match t
    case Url =>
      if StartsWith(s, "https://") && |s| > 8 && !RegexSpace(s[8]) then 8
      else if StartsWith(s, "http://") && |s| > 7 && !RegexSpace(s[7]) then 7
      else 0
    case Mention => if |s| > 1 && s[0] == '@' && !RegexSpace(s[1]) then 1 else 0
    case Hashtag => if |s| > 1 && s[0] == '#' && !RegexSpace(s[1]) then 1 else 0
  }

  /** `ReplaceAllString(s, "")` for `https?://[^\s]+`, `@[^\s]+` or `#[^\s]+`: leftmost
      matches, each running to the next `\s`, removed. */
  function Strip(s: string, t: Token): (r: string)
    ensures |r| <= |s|
    decreases |s|
  {
    if s == [] then []
    else
      var p := PrefixAt(s, t);
      if p > 0 then Strip(s[p + TokenRun(s[p..])..], t)
      else [s[0]] + Strip(s[1..], t)
  }

  /** The tag character of a mention or hashtag pattern. */
  function Tag(t: Token): char {
    match t
    case Url => 'h'
    case Mention => '@'
    case Hashtag => '#'
  }

  predicate TagFollowedBySpace(r: string, c: char) {
    forall i :: 0 <= i < |r| - 1 && r[i] == c ==> RegexSpace(r[i + 1])
  }

  lemma StripAtSpace(s: string, t: Token)
    requires s != [] && RegexSpace(s[0])
    ensures Strip(s, t) == [s[0]] + Strip(s[1..], t)
  {
    assert !StartsWith(s, "https://") by {
      if |s| >= 8 { assert s[..8][0] == s[0]; }
    }
    assert !StartsWith(s, "http://") by {
      if |s| >= 7 { assert s[..7][0] == s[0]; }
    }
    assert PrefixAt(s, t) == 0;
  }

  /** After removing mentions (or hashtags), every '@' (or '#') left is the last
      character or stands before whitespace: no match of the pattern remains. */
  lemma {:induction false} StripLeavesNoTag(s: string, t: Token)
    requires t != Url
    ensures TagFollowedBySpace(Strip(s, t), Tag(t))
    decreases |s|
  {
    if s != [] {
      var p := PrefixAt(s, t);
      if p > 0 {
        StripLeavesNoTag(s[p + TokenRun(s[p..])..], t);
        StripSkipsMatch(s, t);
      } else {
        StripLeavesNoTag(s[1..], t);
        StripKeptHead(s, t);
      }
    }
  }

  /** A match at the start is dropped whole. */
  lemma StripSkipsMatch(s: string, t: Token)
    requires s != [] && PrefixAt(s, t) > 0
    ensures Strip(s, t) == Strip(s[PrefixAt(s, t) + TokenRun(s[PrefixAt(s, t)..])..], t)
  {
  }

  /** A kept first character does not break the property. */
  lemma StripKeptHead(s: string, t: Token)
    requires t != Url && s != [] && PrefixAt(s, t) == 0
    requires TagFollowedBySpace(Strip(s[1..], t), Tag(t))
    ensures TagFollowedBySpace(Strip(s, t), Tag(t))
  {
    var r := Strip(s, t);
    var rest := Strip(s[1..], t);
    assert r == [s[0]] + rest;
    forall i | 0 <= i < |r| - 1 && r[i] == Tag(t) ensures RegexSpace(r[i + 1]) {
      if i == 0 {
        KeptTagBeforeSpace(s, t);
      } else {
        assert r[i] == rest[i - 1] && r[i + 1] == rest[i];
      }
    }
  }

  /** A kept tag character is followed by whitespace, which is kept too. */
  lemma KeptTagBeforeSpace(s: string, t: Token)
    requires t != Url && s != [] && PrefixAt(s, t) == 0 && s[0] == Tag(t) && |Strip(s, t)| > 1
    ensures RegexSpace(Strip(s, t)[1])
  {
    var rest := Strip(s[1..], t);
    assert Strip(s, t) == [s[0]] + rest;
    assert |s| > 1;
    assert RegexSpace(s[1]);
    StripAtSpace(s[1..], t);
    assert rest[0] == s[1];
  }

  /** `\s+` replaced by one space. */
  function Collapse(s: string): (r: string)
    ensures r != [] && s != [] ==> (RegexSpace(r[0]) <==> RegexSpace(s[0]))
    ensures forall i :: 0 <= i < |r| && RegexSpace(r[i]) ==> r[i] == ' '
    decreases |s|
  {
    if s == [] then []
    else if RegexSpace(s[0]) then [' '] + Collapse(s[SpaceRun(s)..])
    else [s[0]] + Collapse(s[1..])
  }

  function SpaceRun(s: string): (n: nat)
    ensures n <= |s|
    ensures s != [] && RegexSpace(s[0]) ==> n >= 1
    ensures n < |s| ==> !RegexSpace(s[n])
  {
    if s == [] || !RegexSpace(s[0]) then 0 else 1 + SpaceRun(s[1..])
  }

  predicate NoDoubleSpace(s: string) {
    forall i :: 0 <= i < |s| - 1 ==> !(RegexSpace(s[i]) && RegexSpace(s[i + 1]))
  }

  lemma {:induction false} CollapseNoDoubleSpace(s: string)
    ensures NoDoubleSpace(Collapse(s))
    decreases |s|
  {
    if s != [] {
      if RegexSpace(s[0]) {
        var rest := s[SpaceRun(s)..];
        CollapseNoDoubleSpace(rest);
        var r := Collapse(s);
        assert r[1..] == Collapse(rest);
        forall i | 0 <= i < |r| - 1 ensures !(RegexSpace(r[i]) && RegexSpace(r[i + 1])) {
          if i > 0 {
            assert r[i] == Collapse(rest)[i - 1] && r[i + 1] == Collapse(rest)[i];
          }
        }
      } else {
        CollapseNoDoubleSpace(s[1..]);
        var r := Collapse(s);
        assert r[1..] == Collapse(s[1..]);
        forall i | 0 <= i < |r| - 1 ensures !(RegexSpace(r[i]) && RegexSpace(r[i + 1])) {
          if i > 0 {
            assert r[i] == Collapse(s[1..])[i - 1] && r[i + 1] == Collapse(s[1..])[i];
          }
        }
      }
    }
  }

  /** cleanText: URLs, then mentions, then hashtags removed; whitespace runs collapsed and
      the ends trimmed. */
  function CleanText(text: string): (r: string)
    ensures r != [] ==> !GoSpace(r[0]) && !GoSpace(r[|r| - 1])
    ensures NoDoubleSpace(r)
    ensures forall i :: 0 <= i < |r| && RegexSpace(r[i]) ==> r[i] == ' '
  {
    var stripped := Strip(Strip(Strip(text, Url), Mention), Hashtag);
    CollapseNoDoubleSpace(stripped);
    TrimmedShape(Collapse(stripped));
    TrimRight(TrimLeft(Collapse(stripped), GoSpace), GoSpace)
  }

  /** A collapsed text: no two whitespace characters in a row, and every whitespace
      character a plain space. */
  predicate Collapsed(s: string) {
    NoDoubleSpace(s) && forall i :: 0 <= i < |s| && RegexSpace(s[i]) ==> s[i] == ' '
  }

  /** Trimming the ends keeps a collapsed text collapsed. */
  lemma {:induction false} TrimmedShape(c: string)
    requires Collapsed(c)
    ensures var r := TrimRight(TrimLeft(c, GoSpace), GoSpace);
      Collapsed(r) && (r != [] ==> !GoSpace(r[0]) && !GoSpace(r[|r| - 1]))
  {
    var l := TrimLeft(c, GoSpace);
    SuffixCollapsed(c, |c| - |l|);
    var r := TrimRight(l, GoSpace);
    PrefixCollapsed(l, |r|);
    if r != [] {
      assert r[0] == l[0];
    }
  }

  /** Any suffix of a collapsed text is collapsed. */
  lemma SuffixCollapsed(c: string, a: nat)
    requires a <= |c| && Collapsed(c)
    ensures Collapsed(c[a..])
  {
    var t := c[a..];
    forall i | 0 <= i < |t| - 1
      ensures !(RegexSpace(t[i]) && RegexSpace(t[i + 1]))
    {
      assert t[i] == c[a + i] && t[i + 1] == c[a + i + 1];
    }
  }

  /** Any prefix of a collapsed text is collapsed. */
  lemma PrefixCollapsed(c: string, n: nat)
    requires n <= |c| && Collapsed(c)
    ensures Collapsed(c[..n])
  {
    var t := c[..n];
    forall i | 0 <= i < |t| - 1
      ensures !(RegexSpace(t[i]) && RegexSpace(t[i + 1]))
    {
      assert t[i] == c[i] && t[i + 1] == c[i + 1];
    }
  }

  // ---------------------------------------------------------------------------
  // strings.Fields

  function NonSpaceRun(s: string): (n: nat)
    ensures n <= |s|
    ensures forall i :: 0 <= i < n ==> !GoSpace(s[i])
    ensures n < |s| ==> GoSpace(s[n])
  {
    if s == [] || GoSpace(s[0]) then 0 else 1 + NonSpaceRun(s[1..])
  }

  /** Go `strings.Fields`: the maximal runs of non-space characters. */
  function Fields(s: string): (words: seq<string>)
    ensures forall k :: 0 <= k < |words| ==> words[k] != [] && forall i :: 0 <= i < |words[k]| ==> !GoSpace(words[k][i])
    decreases |s|
  {
    if s == [] then []
    else if GoSpace(s[0]) then Fields(s[1..])
    else [s[..NonSpaceRun(s)]] + Fields(s[NonSpaceRun(s)..])
  }

  /** A text made only of whitespace has no words. */
  lemma {:induction false} BlankHasNoFields(s: string)
    requires forall i :: 0 <= i < |s| ==> GoSpace(s[i])
    ensures Fields(s) == []
    decreases |s|
  {
    if s != [] {
      BlankHasNoFields(s[1..]);
    }
  }

  // ---------------------------------------------------------------------------
  // AnalyzeText

  /** The number of keywords the word contains (each counted once). */
  function Hits(word: string, keywords: seq<string>): (n: nat)
    ensures n <= |keywords|
  {
    if keywords == [] then 0
    else Hits(word, keywords[..|keywords| - 1]) + (if Contains(word, keywords[|keywords| - 1]) then 1 else 0)
  }

  function Total(words: seq<string>, keywords: seq<string>): (n: nat)
    ensures n <= |words| * |keywords|
  {
    if words == [] then 0
    else Total(words[..|words| - 1], keywords) + Hits(words[|words| - 1], keywords)
  }

  /** A result; `magnitude` is None where Go computes 0/0 (a text with no words). */
  datatype SentimentResult = SentimentResult(score: real, magnitude: Option<real>, labelName: string)

  /** The score, magnitude and label for the counts. */
  function Classified(pos: nat, neg: nat, wordCount: nat): (r: SentimentResult)
    ensures pos + neg == 0 ==> r.score == 0.0 && r.labelName == "neutral"
    ensures pos + neg > 0 ==> r.score * (pos + neg) as real == (pos - neg) as real && -1.0 <= r.score <= 1.0
    ensures r.labelName == "positive" <==> 10 * (pos - neg) > pos + neg
    ensures r.labelName == "negative" <==> 10 * (pos - neg) < -(pos + neg)
    ensures r.labelName == "neutral" <==> -(pos + neg) <= 10 * (pos - neg) <= pos + neg
    ensures wordCount == 0 <==> r.magnitude.None?
    ensures r.magnitude.Some? ==> 0.0 <= r.magnitude.value <= 1.0
  {
    var total := pos + neg;
    var magnitude :=
      if wordCount == 0 then None
      else if total as real / wordCount as real > 1.0 then Some(1.0)
      else Some(total as real / wordCount as real);
    if total == 0 then SentimentResult(0.0, magnitude, "neutral")
    else
      var score := (pos as real - neg as real) / total as real;
      ScoreBounds(pos, neg);
      SentimentResult(score, magnitude, if score > 0.1 then "positive" else if score < -0.1 then "negative" else "neutral")
  }

  lemma ScoreBounds(pos: nat, neg: nat)
    requires pos + neg > 0
    ensures var score := (pos as real - neg as real) / (pos + neg) as real;
      -1.0 <= score <= 1.0
      && (score > 0.1 <==> 10 * (pos - neg) > pos + neg)
      && (score < -0.1 <==> 10 * (pos - neg) < -(pos + neg))
  {
    var t := (pos + neg) as real;
    var d := pos as real - neg as real;
    assert (10 * (pos - neg)) as real == 10.0 * d;
    DivCompare(d, t, 1.0);
    DivCompare(d, t, -1.0);
    DivCompare(d, t, 0.1);
    DivCompare(d, t, -0.1);
  }

  /** Comparing a quotient with a constant is comparing the dividend with the scaled
      constant. */
  lemma DivCompare(d: real, t: real, c: real)
    requires t > 0.0
    ensures d / t > c <==> d > c * t
    ensures d / t < c <==> d < c * t
  {
    var q := d / t;
    assert q * t == d;
    if q > c {
      assert (q - c) * t > 0.0;
    } else if q < c {
      assert (c - q) * t > 0.0;
    } else {
      assert q * t == c * t;
    }
  }

  /** The inner loop of AnalyzeText: how many keywords the word contains. */
  method CountHits(word: string, keywords: seq<string>) returns (n: nat)
    ensures n == Hits(word, keywords)
  {
    n := 0;
    var j := 0;
    while j < |keywords|
      invariant 0 <= j <= |keywords|
      invariant n == Hits(word, keywords[..j])
    {
      assert keywords[..j + 1][..j] == keywords[..j];
      if Contains(word, keywords[j]) {
        n := n + 1;
      }
      j := j + 1;
    }
    assert keywords[..j] == keywords;
  }

  /** AnalyzeText: the keyword counts over the words of the cleaned, lower-cased text. */
  method AnalyzeText(text: string) returns (r: SentimentResult)
    ensures var words := Fields(ToLower(CleanText(text)));
      r == Classified(Total(words, Positive), Total(words, Negative), |words|)
  {
    var words := Fields(ToLower(CleanText(text)));
    var positiveCount, negativeCount := CountWords(words);
    r := Classified(positiveCount, negativeCount, |words|);
  }

  /** The word loop of AnalyzeText: the positive and the negative hits over all words. */
  method CountWords(words: seq<string>) returns (positiveCount: nat, negativeCount: nat)
    ensures positiveCount == Total(words, Positive) && negativeCount == Total(words, Negative)
  {
    positiveCount := 0;
    negativeCount := 0;
    var i := 0;
    while i < |words|
      invariant 0 <= i <= |words|
      invariant positiveCount == Total(words[..i], Positive) && negativeCount == Total(words[..i], Negative)
    {
      assert words[..i + 1][..i] == words[..i];
      var word := words[i];
      var hits := CountHits(word, Positive);
      positiveCount := positiveCount + hits;
      hits := CountHits(word, Negative);
      negativeCount := negativeCount + hits;
      i := i + 1;
    }
    assert words[..i] == words;
  }

  /** A text with no keyword at all is neutral with score 0. */
  lemma NoHitsIsNeutral(words: seq<string>)
    requires Total(words, Positive) == 0 && Total(words, Negative) == 0
    ensures var r := Classified(Total(words, Positive), Total(words, Negative), |words|);
      r.score == 0.0 && r.labelName == "neutral"
  {
  }

  /** Words are counted independently: the totals of a concatenation add up. */
  lemma {:induction false} TotalSplit(a: seq<string>, b: seq<string>, keywords: seq<string>)
    ensures Total(a + b, keywords) == Total(a, keywords) + Total(b, keywords)
  {
    if b == [] {
      assert a + b == a;
    } else {
      TotalSplit(a, b[..|b| - 1], keywords);
      assert (a + b)[..|a + b| - 1] == a + b[..|b| - 1];
    }
  }

  // ---------------------------------------------------------------------------
  // GetEventSentimentSummary

  datatype Summary = Summary(totalAnalyses: nat, averageScore: real, distribution: map<string, nat>)

  const EmptyDistribution: map<string, nat> := map["positive" := 0, "negative" := 0, "neutral" := 0]

  function Decoded(rows: seq<Option<SentimentResult>>): (r: seq<SentimentResult>)
    ensures |r| <= |rows|
  {
    if rows == [] then []
    else Decoded(rows[..|rows| - 1]) + (if rows[|rows| - 1].Some? then [rows[|rows| - 1].value] else [])
  }

  function ScoreSum(results: seq<SentimentResult>): real {
    if results == [] then 0.0 else ScoreSum(results[..|results| - 1]) + results[|results| - 1].score
  }

  /** `distribution[label]++` for each result, from the three zero counts. A label outside
      the three adds a key of its own. */
  function Distribution(results: seq<SentimentResult>): (d: map<string, nat>)
    ensures "positive" in d && "negative" in d && "neutral" in d
  {
    if results == [] then EmptyDistribution
    else
      var d := Distribution(results[..|results| - 1]);
      var lab := results[|results| - 1].labelName;
      d[lab := (if lab in d then d[lab] else 0) + 1]
  }

  /** GetEventSentimentSummary over the rows the query returned; a row that fails to scan
      or decode is None and is skipped. */
  method GetEventSentimentSummary(query: Result<seq<Option<SentimentResult>>>) returns (r: Result<Summary>)
    ensures query.Err? ==> r == Err("failed to get event sentiment: " + query.error)
    ensures query.Ok? && Decoded(query.value) == [] ==> r == Ok(Summary(0, 0.0, EmptyDistribution))
    ensures query.Ok? && Decoded(query.value) != [] ==> (
      var results := Decoded(query.value);
      r.Ok? && r.value.totalAnalyses == |results|
      && r.value.averageScore == ScoreSum(results) / |results| as real
      && r.value.distribution == Distribution(results))
  {
    if query.Err? {
      return Err("failed to get event sentiment: " + query.error);
    }
    var results := DecodeRows(query.value);
    if |results| == 0 {
      return Ok(Summary(0, 0.0, EmptyDistribution));
    }
    var totalScore, distribution := Tally(results);
    return Ok(Summary(|results|, totalScore / |results| as real, distribution));
  }

  /** The scan loop: the rows that decoded, in order. */
  method DecodeRows(rows: seq<Option<SentimentResult>>) returns (results: seq<SentimentResult>)
    ensures results == Decoded(rows)
  {
    results := [];
    var i := 0;
    while i < |rows|
      invariant 0 <= i <= |rows|
      invariant results == Decoded(rows[..i])
    {
      assert rows[..i + 1][..i] == rows[..i];
      if rows[i].Some? {
        results := results + [rows[i].value];
      }
      i := i + 1;
    }
    assert rows[..i] == rows;
  }

  /** The summing loop: the score total and the label counts. */
  method Tally(results: seq<SentimentResult>) returns (totalScore: real, distribution: map<string, nat>)
    ensures totalScore == ScoreSum(results) && distribution == Distribution(results)
  {
    totalScore := 0.0;
    distribution := EmptyDistribution;
    var k := 0;
    while k < |results|
      invariant 0 <= k <= |results|
      invariant totalScore == ScoreSum(results[..k]) && distribution == Distribution(results[..k])
    {
      assert results[..k + 1][..k] == results[..k];
      var lab := results[k].labelName;
      totalScore := totalScore + results[k].score;
      distribution := distribution[lab := (if lab in distribution then distribution[lab] else 0) + 1];
      k := k + 1;
    }
    assert results[..k] == results;
  }

  predicate StandardLabels(results: seq<SentimentResult>) {
    forall k :: 0 <= k < |results| ==> results[k].labelName in {"positive", "negative", "neutral"}
  }

  /** With only the three labels, the distribution has exactly the three keys and its
      counts add up to the number of results. */
  lemma {:induction false} DistributionSums(results: seq<SentimentResult>)
    requires StandardLabels(results)
    ensures var d := Distribution(results);
      d.Keys == {"positive", "negative", "neutral"} && d["positive"] + d["negative"] + d["neutral"] == |results|
  {
    if results != [] {
      var init := results[..|results| - 1];
      assert StandardLabels(init) by {
        forall k | 0 <= k < |init| ensures init[k].labelName in {"positive", "negative", "neutral"} {
          assert init[k] == results[k];
        }
      }
      DistributionSums(init);
      assert results[|results| - 1].labelName in {"positive", "negative", "neutral"};
    }
  }

  /** Every analysis AnalyzeText produces carries one of the three labels. */
  lemma AnalyzedLabelsStandard(pos: nat, neg: nat, n: nat)
    ensures Classified(pos, neg, n).labelName in {"positive", "negative", "neutral"}
  {
  }
}
