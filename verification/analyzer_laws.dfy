/**
 * Properties of the analyzer: what the emotion finder reports and in which order, how the
 * classifier's priority works, the range of the heat score, how sentiment relates to the
 * emotion words, the paragraph count, and the shape of the generated tag list.
 */
module AnalyzerLaws {
  import opened Wrappers
  import opened Strings
  import opened Analyzer

  // ---------------------------------------------------------------- emotion words

  lemma {:induction false} FindInAppend(a: seq<(string, Category)>, b: seq<(string, Category)>, text: string)
    ensures FindIn(a + b, text) == FindIn(a, text) + FindIn(b, text)
    decreases |a|
  {
    if |a| == 0 {
      assert a + b == b;
    } else {
      assert (a + b)[1..] == a[1..] + b;
      FindInAppend(a[1..], b, text);
    }
  }

  /** The emotion words come positive first, then negative, then neutral, each in lexicon order. */
  lemma EmotionWordsByCategory(text: string)
    ensures FindEmotionWords(text)
         == FindIn(Entries(PositiveWords, Positive), text)
          + FindIn(Entries(NegativeWords, Negative), text)
          + FindIn(Entries(NeutralWords, Neutral), text)
  {
    var p := Entries(PositiveWords, Positive);
    var n := Entries(NegativeWords, Negative);
    var u := Entries(NeutralWords, Neutral);
    FindInAppend(p + n, u, text);
    FindInAppend(p, n, text);
  }

  /** Some entry of `entries` has word `w` in `text` and tagged form `t`. */
  predicate ReportedBy(entries: seq<(string, Category)>, text: string, t: string)
  {
    exists k :: 0 <= k < |entries| && t == Tagged(entries[k]) && Contains(text, entries[k].0)
  }

  /** Every reported word is the tagged form of a lexicon entry whose word occurs in the text. */
  lemma {:induction false} FindInSound(entries: seq<(string, Category)>, text: string)
    ensures forall t :: t in FindIn(entries, text) ==> ReportedBy(entries, text, t)
    decreases |entries|
  {
    if |entries| > 0 {
      FindInSound(entries[1..], text);
      var head := if Contains(text, entries[0].0) then [Tagged(entries[0])] else [];
      var rest := FindIn(entries[1..], text);
      assert FindIn(entries, text) == head + rest;
      forall t | t in FindIn(entries, text)
        ensures ReportedBy(entries, text, t)
      {
        if t in head {
          assert t == Tagged(entries[0]) && Contains(text, entries[0].0);
        } else {
          assert t in rest;
          var k :| 0 <= k < |entries[1..]| && t == Tagged(entries[1..][k]) && Contains(text, entries[1..][k].0);
          assert entries[1..][k] == entries[k + 1];
        }
      }
    }
  }

  /** Every lexicon entry whose word occurs in the text is reported. */
  lemma {:induction false} FindInComplete(entries: seq<(string, Category)>, text: string)
    ensures forall k :: 0 <= k < |entries| && Contains(text, entries[k].0) ==>
              Tagged(entries[k]) in FindIn(entries, text)
    decreases |entries|
  {
    if |entries| > 0 {
      FindInComplete(entries[1..], text);
      forall k | 0 <= k < |entries| && Contains(text, entries[k].0)
        ensures Tagged(entries[k]) in FindIn(entries, text)
      {
        if k > 0 {
          assert entries[k] == entries[1..][k - 1];
        }
      }
    }
  }

  /**
   * The emotion words found are exactly the tagged lexicon entries whose word occurs in the
   * text: a word is reported if and only if it occurs.
   */
  lemma EmotionWordsExact(text: string)
    ensures forall t :: t in FindEmotionWords(text) <==> ReportedBy(Lexicon(), text, t)
  {
    FindInSound(Lexicon(), text);
    FindInComplete(Lexicon(), text);
  }

  /** One category reports as many words as occur in the text. */
  lemma {:induction false} FindInCount(words: seq<string>, c: Category, text: string)
    ensures |FindIn(Entries(words, c), text)| == MatchCount(words, text)
    decreases |words|
  {
    if |words| > 0 {
      assert Entries(words, c)[1..] == Entries(words[1..], c);
      FindInCount(words[1..], c, text);
    }
  }

  /**
   * The sentiment's count is the number of emotion words found; the lexicon has 25 words,
   * so at most 25 are found.
   */
  lemma EmotionWordsCount(text: string)
    ensures |FindEmotionWords(text)| == AnalyzeSentiment(text).count
    ensures |FindEmotionWords(text)| <= |PositiveWords| + |NegativeWords| + |NeutralWords| == 25
  {
    EmotionWordsByCategory(text);
    FindInCount(PositiveWords, Positive, text);
    FindInCount(NegativeWords, Negative, text);
    FindInCount(NeutralWords, Neutral, text);
  }

  // ---------------------------------------------------------------- title type

  /**
   * First match: the result is the label of the earliest rule that holds, and `Plain` when
   * none holds.
   */
  lemma {:induction false} FirstMatchPicksEarliest(rules: seq<(bool, TitleType)>)
    ensures (forall k :: 0 <= k < |rules| ==> !rules[k].0) ==> FirstMatch(rules) == Plain
    ensures forall k :: 0 <= k < |rules| && rules[k].0 && (forall j :: 0 <= j < k ==> !rules[j].0) ==>
              FirstMatch(rules) == rules[k].1
    decreases |rules|
  {
    if |rules| > 0 {
      FirstMatchPicksEarliest(rules[1..]);
      forall k | 0 <= k < |rules| && rules[k].0 && (forall j :: 0 <= j < k ==> !rules[j].0)
        ensures FirstMatch(rules) == rules[k].1
      {
        if k > 0 {
          assert !rules[0].0;
          forall j | 0 <= j < k - 1
            ensures !rules[1..][j].0
          {
            assert rules[1..][j] == rules[j + 1];
          }
          assert rules[1..][k - 1] == rules[k];
        }
      }
    }
  }

  /** The classifier is the first-match classifier over its five rules in priority order. */
  lemma ClassifyIsFirstMatch(title: string)
    ensures ClassifyTitle(title) == FirstMatch(TitleRules(title))
  {
    var rs := TitleRules(title);
    FirstMatchPicksEarliest(rs);
    if !rs[0].0 && !rs[1].0 && !rs[2].0 && !rs[3].0 && !rs[4].0 {
      assert forall k :: 0 <= k < |rs| ==> !rs[k].0;
    }
  }

  /** The six labels are distinct, so the returned label names exactly one title type. */
  lemma TitleTypeNamesDistinct(a: TitleType, b: TitleType)
    requires TitleTypeName(a) == TitleTypeName(b)
    ensures a == b
  {
  }

  /** A digit with a counting word wins over every other rule, even a question word. */
  lemma NumberedBeatsQuestion()
    ensures ClassifyTitle("为什么3个方法") == Numbered
    ensures ClassifyTitle("为什么这样") == Question
  {
    assert IsDecimalDigit("为什么3个方法"[3]);
    assert StartsWith("为什么3个方法"[4..], "个");
    assert Contains("为什么3个方法", CountWords[0]) by {
      ContainsAt("为什么3个方法", "个", 4);
    }
    assert Contains("为什么这样", QuestionWords[0]) by {
      ContainsAt("为什么这样", "为什么", 0);
    }
    assert !HasDigit("为什么这样");
  }

  // ---------------------------------------------------------------- heat score

  /**
   * The unclamped score lies in [3, 11]: the lower clamp never applies, and the score is the
   * raw score capped at 10. The emotion contribution is the found count capped at 2.
   */
  lemma HeatBounds(title: string)
    ensures 3 <= RawHeat(title) <= 11
    ensures HeatScore(title) == (if RawHeat(title) > 10 then 10 else RawHeat(title))
    ensures 3 <= HeatScore(title)
  {
  }

  /** The length contribution, case by case. */
  lemma LengthBonusCases(n: nat)
    ensures LengthBonus(n) == 2 <==> 8 <= n <= 15
    ensures LengthBonus(n) == -1 <==> n < 8
    ensures LengthBonus(n) == -2 <==> n > 20
    ensures LengthBonus(n) == 0 <==> 16 <= n <= 20
  {
  }

  /**
   * Emotion words help the heat score but only up to two: between titles that agree on length,
   * digits and question words, more emotion words never score lower, and any two titles with
   * at least two emotion words each score the same.
   */
  lemma EmotionContributionCapped(a: string, b: string)
    requires |a| == |b| && HasDigit(a) == HasDigit(b)
    requires AnyIn(HeatQuestionWords, a) == AnyIn(HeatQuestionWords, b)
    ensures |FindEmotionWords(a)| <= |FindEmotionWords(b)| ==> HeatScore(a) <= HeatScore(b)
    ensures |FindEmotionWords(a)| >= 2 && |FindEmotionWords(b)| >= 2 ==> HeatScore(a) == HeatScore(b)
  {
  }

  // ---------------------------------------------------------------- sentiment

  /**
   * "不推荐" (not recommended) holds the positive word "推荐" as well as the negative
   * "不推荐": one of each, so the text is neutral with two emotion words.
   */
  lemma NotRecommendedIsNeutral()
    ensures AnalyzeSentiment("不推荐") == Sentiment(Neutral, 2)
  {
    NotRecommendedPositive();
    NotRecommendedNegative();
    NotRecommendedNoNeutral();
  }

  lemma NotRecommendedPositive()
    ensures MatchCount(PositiveWords, "不推荐") == 1
  {
    var s := "不推荐";
    forall k | 0 <= k < |PositiveWords| && k != 8
      ensures !Contains(s, PositiveWords[k])
    {
      NotContains(s, PositiveWords[k], 0);
    }
    ContainsAt(s, "推荐", 1);
    MatchCountExactly(PositiveWords, s, 8);
  }

  lemma NotRecommendedNegative()
    ensures MatchCount(NegativeWords, "不推荐") == 1
  {
    var s := "不推荐";
    forall k | 0 <= k < |NegativeWords| && k != 7
      ensures !Contains(s, NegativeWords[k])
    {
      if k == 2 {
        NotContains(s, NegativeWords[k], 1);
      } else {
        NotContains(s, NegativeWords[k], 0);
      }
    }
    ContainsAt(s, "不推荐", 0);
    MatchCountExactly(NegativeWords, s, 7);
  }

  lemma NotRecommendedNoNeutral()
    ensures MatchCount(NeutralWords, "不推荐") == 0
  {
    var s := "不推荐";
    forall k | 0 <= k < |NeutralWords|
      ensures !Contains(s, NeutralWords[k])
    {
      NotContains(s, NeutralWords[k], 0);
    }
    MatchCountNone(NeutralWords, s);
  }

  /**
   * The label `_analyze_sentiment` reports: "积极" (positive) exactly when positives beat both
   * other counts, "消极" (negative) exactly when negatives beat positives, "中性" (neutral)
   * otherwise; the three labels are distinct.
   */
  lemma SentimentLabels(content: string)
    ensures var p := MatchCount(PositiveWords, content);
      var n := MatchCount(NegativeWords, content);
      var u := MatchCount(NeutralWords, content);
      var name := TendencyName(AnalyzeSentiment(content).tendency);
      && (name == "积极" <==> p > n && p > u)
      && (name == "消极" <==> n > p)
      && (name == "中性" <==> !(p > n && p > u) && n <= p)
  {
  }

  lemma {:induction false} MatchCountNone(words: seq<string>, text: string)
    requires forall k :: 0 <= k < |words| ==> !Contains(text, words[k])
    ensures MatchCount(words, text) == 0
    decreases |words|
  {
    if |words| > 0 {
      MatchCountNone(words[1..], text);
    }
  }

  /** When exactly one word, at index `i`, occurs, the count is 1. */
  lemma {:induction false} MatchCountExactly(words: seq<string>, text: string, i: nat)
    requires i < |words| && Contains(text, words[i])
    requires forall k :: 0 <= k < |words| && k != i ==> !Contains(text, words[k])
    ensures MatchCount(words, text) == 1
    decreases |words|
  {
    if i == 0 {
      MatchCountNone(words[1..], text);
    } else {
      MatchCountExactly(words[1..], text, i - 1);
    }
  }

  // ---------------------------------------------------------------- paragraphs

  /** The paragraph count is the number of newline-separated pieces; the empty text has one. */
  lemma ParagraphsAreLines(content: string)
    ensures ParagraphCount(content) == |Split(content, '\n')|
    ensures ParagraphCount("") == 1
  {
    SplitCount(content, '\n');
  }

  // ---------------------------------------------------------------- tags

  predicate IsAsciiLetter(c: char)
  {
    'A' <= c <= 'Z' || 'a' <= c <= 'z'
  }

  /** Lower-casing the text does not change where a word without ASCII letters occurs. */
  lemma LowerKeepsWord(s: string, w: string)
    requires forall k :: 0 <= k < |w| ==> !IsAsciiLetter(w[k])
    ensures Contains(Lower(s), w) <==> Contains(s, w)
  {
    ContainsIff(Lower(s), w);
    ContainsIff(s, w);
    forall i | OccursAt(s, w, i)
      ensures OccursAt(Lower(s), w, i)
    {
      forall k | 0 <= k < |w|
        ensures Lower(s)[i + k] == w[k]
      {
        assert s[i + k] == s[i..i + |w|][k];
      }
      assert Lower(s)[i..i + |w|] == w;
    }
    forall i | OccursAt(Lower(s), w, i)
      ensures OccursAt(s, w, i)
    {
      forall k | 0 <= k < |w|
        ensures s[i + k] == w[k]
      {
        assert Lower(s)[i + k] == Lower(s)[i..i + |w|][k];
      }
      assert s[i..i + |w|] == w;
    }
  }

  /** The chosen group is the earliest group, in chain order, one of whose keywords occurs. */
  lemma {:induction false} FirstGroupSpec(gs: seq<Group>, text: string)
    ensures FirstGroup(gs, text).None? <==> forall k :: 0 <= k < |gs| ==> !AnyIn(GroupKeywords(gs[k]), text)
    ensures FirstGroup(gs, text).Some? ==>
              exists k :: 0 <= k < |gs| && gs[k] == FirstGroup(gs, text).value && AnyIn(GroupKeywords(gs[k]), text)
                          && forall j :: 0 <= j < k ==> !AnyIn(GroupKeywords(gs[j]), text)
    decreases |gs|
  {
    if |gs| > 0 {
      FirstGroupSpec(gs[1..], text);
      if !AnyIn(GroupKeywords(gs[0]), text) {
        if FirstGroup(gs, text).Some? {
          var k :| 0 <= k < |gs[1..]| && gs[1..][k] == FirstGroup(gs, text).value
                   && AnyIn(GroupKeywords(gs[1..][k]), text)
                   && forall j :: 0 <= j < k ==> !AnyIn(GroupKeywords(gs[1..][j]), text);
          forall j | 0 <= j < k + 1
            ensures !AnyIn(GroupKeywords(gs[j]), text)
          {
            if j > 0 {
              assert gs[j] == gs[1..][j - 1];
            }
          }
          assert gs[k + 1] == gs[1..][k];
        } else {
          forall k | 0 <= k < |gs|
            ensures !AnyIn(GroupKeywords(gs[k]), text)
          {
            if k > 0 {
              assert gs[k] == gs[1..][k - 1];
            }
          }
        }
      }
    }
  }

  /** No tag list is ever cut: there are at most 4 + 4 + 1 + 1 tags before the cap. */
  lemma TagsNeverTruncated(content: string, title: string, category: string)
    ensures |AllTags(content, title)| <= MaxTags
    ensures GenerateTags(content, title, category) == AllTags(content, title)
  {
  }

  /**
   * The tags are the four generic tags, then the four tags of at most one group, then the
   * digit tag exactly when the title has a digit, then the emotion tag exactly when the title
   * has an emotion word.
   */
  lemma TagsShape(content: string, title: string, category: string)
    ensures var r := GenerateTags(content, title, category);
      var g := FirstGroup(Groups, Lower(content + title));
      && r[..4] == GenericTags
      && (g.Some? ==> r[4..8] == GroupTags(g.value))
      && |r| == 4 + (if g.Some? then 4 else 0) + (if HasDigit(title) then 1 else 0)
                  + (if |FindEmotionWords(title)| > 0 then 1 else 0)
      && (HasDigit(title) <==> r[|r| - 1 - (if |FindEmotionWords(title)| > 0 then 1 else 0)] == DigitTag)
      && (|FindEmotionWords(title)| > 0 <==> r[|r| - 1] == EmotionTag)
  {
    TagsNeverTruncated(content, title, category);
    var g := FirstGroup(Groups, Lower(content + title));
    var grouped := if g.Some? then GroupTags(g.value) else [];
    var rest := (if HasDigit(title) then [DigitTag] else [])
      + (if |FindEmotionWords(title)| > 0 then [EmotionTag] else []);
    assert GenerateTags(content, title, category) == GenericTags + grouped + rest;
    if g.Some? {
      assert |GroupTags(g.value)| == 4;
      assert (GenericTags + grouped + rest)[4..8] == grouped;
    }
  }

  /** The group keywords hold no ASCII letter, so lower-casing the text never changes the group. */
  lemma GroupIgnoresCase(gs: seq<Group>, text: string)
    ensures FirstGroup(gs, Lower(text)) == FirstGroup(gs, text)
    decreases |gs|
  {
    if |gs| > 0 {
      var ws := GroupKeywords(gs[0]);
      forall k | 0 <= k < |ws|
        ensures Contains(Lower(text), ws[k]) <==> Contains(text, ws[k])
      {
        LowerKeepsWord(text, ws[k]);
      }
      GroupIgnoresCase(gs[1..], text);
    }
  }

  /**
   * The group tags follow the earliest group with a keyword in the content or title, exactly
   * as if the text had not been lower-cased; without such a group there are at most six tags.
   */
  lemma TagsGroup(content: string, title: string, category: string)
    ensures var r := GenerateTags(content, title, category);
      var g := FirstGroup(Groups, content + title);
      && (g.Some? ==> |r| >= 8 && r[4..8] == GroupTags(g.value))
      && (g.None? ==> |r| <= 6)
  {
    GroupIgnoresCase(Groups, content + title);
    TagsShape(content, title, category);
  }
}
