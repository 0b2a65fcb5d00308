/**
 * The RedNote title and content analyzer (`RedNoteAnalyzer`): the emotion lexicon, the
 * title classifier, the heat score, the sentiment count and the tag generator.
 *
 * `word in text` is `Contains`, and the regular expression `\d+` used with `re.search`
 * is `HasDigit`: some character is a Unicode decimal digit.
 */
module Analyzer {
  import opened Wrappers
  import opened Strings

  // ---------------------------------------------------------------- digits

  /** A character of Unicode category Nd (decimal digit), as of Unicode 15.0: what `\d` matches. */
  predicate IsDecimalDigit(c: char)
  {
    var n := c as int;
    || 0x30 <= n <= 0x39 || 0x660 <= n <= 0x669 || 0x6F0 <= n <= 0x6F9 || 0x7C0 <= n <= 0x7C9
    || 0x966 <= n <= 0x96F || 0x9E6 <= n <= 0x9EF || 0xA66 <= n <= 0xA6F || 0xAE6 <= n <= 0xAEF
    || 0xB66 <= n <= 0xB6F || 0xBE6 <= n <= 0xBEF || 0xC66 <= n <= 0xC6F || 0xCE6 <= n <= 0xCEF
    || 0xD66 <= n <= 0xD6F || 0xDE6 <= n <= 0xDEF || 0xE50 <= n <= 0xE59 || 0xED0 <= n <= 0xED9
    || 0xF20 <= n <= 0xF29 || 0x1040 <= n <= 0x1049 || 0x1090 <= n <= 0x1099 || 0x17E0 <= n <= 0x17E9
    || 0x1810 <= n <= 0x1819 || 0x1946 <= n <= 0x194F || 0x19D0 <= n <= 0x19D9 || 0x1A80 <= n <= 0x1A89
    || 0x1A90 <= n <= 0x1A99 || 0x1B50 <= n <= 0x1B59 || 0x1BB0 <= n <= 0x1BB9 || 0x1C40 <= n <= 0x1C49
    || 0x1C50 <= n <= 0x1C59 || 0xA620 <= n <= 0xA629 || 0xA8D0 <= n <= 0xA8D9 || 0xA900 <= n <= 0xA909
    || 0xA9D0 <= n <= 0xA9D9 || 0xA9F0 <= n <= 0xA9F9 || 0xAA50 <= n <= 0xAA59 || 0xABF0 <= n <= 0xABF9
    || 0xFF10 <= n <= 0xFF19 || 0x104A0 <= n <= 0x104A9 || 0x10D30 <= n <= 0x10D39 || 0x11066 <= n <= 0x1106F
    || 0x110F0 <= n <= 0x110F9 || 0x11136 <= n <= 0x1113F || 0x111D0 <= n <= 0x111D9 || 0x112F0 <= n <= 0x112F9
    || 0x11450 <= n <= 0x11459 || 0x114D0 <= n <= 0x114D9 || 0x11650 <= n <= 0x11659 || 0x116C0 <= n <= 0x116C9
    || 0x11730 <= n <= 0x11739 || 0x118E0 <= n <= 0x118E9 || 0x11950 <= n <= 0x11959 || 0x11C50 <= n <= 0x11C59
    || 0x11D50 <= n <= 0x11D59 || 0x11DA0 <= n <= 0x11DA9 || 0x11F50 <= n <= 0x11F59 || 0x16A60 <= n <= 0x16A69
    || 0x16AC0 <= n <= 0x16AC9 || 0x16B50 <= n <= 0x16B59 || 0x1D7CE <= n <= 0x1D7FF || 0x1E140 <= n <= 0x1E149
    || 0x1E2F0 <= n <= 0x1E2F9 || 0x1E4F0 <= n <= 0x1E4F9 || 0x1E950 <= n <= 0x1E959 || 0x1FBF0 <= n <= 0x1FBF9
  }

  /** `re.search(r'\d+', s)` finds a match. */
  predicate HasDigit(s: string)
  {
    exists i | 0 <= i < |s| :: IsDecimalDigit(s[i])
  }

  /** Python's `any(w in text for w in words)`. */
  predicate AnyIn(words: seq<string>, text: string)
  {
    exists k | 0 <= k < |words| :: Contains(text, words[k])
  }

  // ---------------------------------------------------------------- emotion lexicon

  datatype Category = Positive | Negative | Neutral

  function CategoryName(c: Category): string
  {
    match c
    case Positive => "positive"
    case Negative => "negative"
    case Neutral => "neutral"
  }

  const PositiveWords: seq<string> := ["太棒了", "绝了", "爱了", "超赞", "惊艳", "完美", "神器", "宝藏", "推荐", "种草", "好物"]
  const NegativeWords: seq<string> := ["踩雷", "失望", "不好", "垃圾", "后悔", "坑", "差评", "不推荐"]
  const NeutralWords: seq<string> := ["一般", "还行", "普通", "中等", "正常", "标准"]

  /** The words of one category, each paired with that category. */
  function Entries(words: seq<string>, c: Category): (es: seq<(string, Category)>)
    ensures |es| == |words|
    ensures forall k :: 0 <= k < |es| ==> es[k] == (words[k], c)
  {
    seq(|words|, k requires 0 <= k < |words| => (words[k], c))
  }

  /** The lexicon in the order `_find_emotion_words` walks it: by category, then word. */
  function Lexicon(): seq<(string, Category)>
  {
    Entries(PositiveWords, Positive) + Entries(NegativeWords, Negative) + Entries(NeutralWords, Neutral)
  }

  /** `f"{word}({category})"`. */
  function Tagged(e: (string, Category)): string
  {
    e.0 + "(" + CategoryName(e.1) + ")"
  }

  /** The tagged entries, in order, whose word occurs in `text`. */
  function FindIn(entries: seq<(string, Category)>, text: string): seq<string>
    decreases |entries|
  {
    if |entries| == 0 then []
    else (if Contains(text, entries[0].0) then [Tagged(entries[0])] else []) + FindIn(entries[1..], text)
  }

  /** `_find_emotion_words`. */
  function FindEmotionWords(text: string): seq<string>
  {
    FindIn(Lexicon(), text)
  }

  /** Python's `sum(1 for w in words if w in text)`. */
  function MatchCount(words: seq<string>, text: string): (n: nat)
    ensures n <= |words|
    decreases |words|
  {
    if |words| == 0 then 0 else (if Contains(text, words[0]) then 1 else 0) + MatchCount(words[1..], text)
  }

  // ---------------------------------------------------------------- title type

  datatype TitleType = Numbered | Question | Comparison | Recommendation | Review | Plain

  /** The label `_classify_title_type` returns. */
  function TitleTypeName(t: TitleType): string
  {
    match t
    case Numbered => "数字型"
    case Question => "疑问型"
    case Comparison => "对比型"
    case Recommendation => "种草型"
    case Review => "测评型"
    case Plain => "普通型"
  }

  const CountWords: seq<string> := ["个", "种", "方法"]
  const QuestionWords: seq<string> := ["为什么", "怎么", "如何"]
  const ComparisonWords: seq<string> := ["对比", "VS", "vs", "和", "与"]
  const RecommendWords: seq<string> := ["推荐", "种草", "好物"]
  const ReviewWords: seq<string> := ["测评", "测试", "体验"]

  /** `_classify_title_type`: the first rule that matches decides. */
  function ClassifyTitle(title: string): TitleType
  {
    if HasDigit(title) && AnyIn(CountWords, title) then Numbered
    else if AnyIn(QuestionWords, title) then Question
    else if AnyIn(ComparisonWords, title) then Comparison
    else if AnyIn(RecommendWords, title) then Recommendation
    else if AnyIn(ReviewWords, title) then Review
    else Plain
  }

  /** The classifier's rules in priority order, each with whether it matches `title`. */
  function TitleRules(title: string): seq<(bool, TitleType)>
  {
    [ (HasDigit(title) && AnyIn(CountWords, title), Numbered),
      (AnyIn(QuestionWords, title), Question),
      (AnyIn(ComparisonWords, title), Comparison),
      (AnyIn(RecommendWords, title), Recommendation),
      (AnyIn(ReviewWords, title), Review) ]
  }

  /** A generic first-match classifier: the label of the first rule that holds, else `Plain`. */
  function FirstMatch(rules: seq<(bool, TitleType)>): TitleType
    decreases |rules|
  {
    if |rules| == 0 then Plain else if rules[0].0 then rules[0].1 else FirstMatch(rules[1..])
  }

  // ---------------------------------------------------------------- heat score

  /** Length contribution: +2 for 8..15, -1 under 8, -2 over 20, 0 for 16..20. */
  function LengthBonus(n: nat): int
  {
    if 8 <= n <= 15 then 2 else if n < 8 then -1 else if n > 20 then -2 else 0
  }

  const HeatQuestionWords: seq<string> := ["?", "？", "怎么", "如何", "为什么"]

  /** The score before clamping. */
  function RawHeat(title: string): int
  {
    5 + LengthBonus(|title|)
    + (if HasDigit(title) then 1 else 0)
    + (if |FindEmotionWords(title)| < 2 then |FindEmotionWords(title)| else 2)
    + (if AnyIn(HeatQuestionWords, title) then 1 else 0)
  }

  /** `_calculate_heat_score`: `min(max(score, 1), 10)`. */
  function HeatScore(title: string): (r: int)
    ensures 1 <= r <= 10
  {
    var s := RawHeat(title);
    var lo := if s < 1 then 1 else s;
    if lo > 10 then 10 else lo
  }

  // ---------------------------------------------------------------- sentiment

  /** The tendency (`积极`, `消极` or `中性`) and the number of emotion words found. */
  datatype Sentiment = Sentiment(tendency: Category, count: nat)

  function TendencyName(c: Category): string
  {
    match c
    case Positive => "积极"
    case Negative => "消极"
    case Neutral => "中性"
  }

  /** `_analyze_sentiment`. */
  function AnalyzeSentiment(content: string): (r: Sentiment)
    ensures var p := MatchCount(PositiveWords, content);
      var n := MatchCount(NegativeWords, content);
      var u := MatchCount(NeutralWords, content);
      && r.count == p + n + u
      && (r.tendency == Positive <==> p > n && p > u)
      && (r.tendency == Negative <==> n > p)
      && (r.count == 0 ==> r.tendency == Neutral)
  {
    var p := MatchCount(PositiveWords, content);
    var n := MatchCount(NegativeWords, content);
    var u := MatchCount(NeutralWords, content);
    var total := p + n + u;
    if total == 0 then Sentiment(Neutral, 0)
    else if p > n && p > u then Sentiment(Positive, total)
    else if n > p then Sentiment(Negative, total)
    else Sentiment(Neutral, total)
  }

  // ---------------------------------------------------------------- paragraphs

  /** The paragraph count of `analyze_content`: `content.count('\n') + 1`. */
  function ParagraphCount(content: string): nat
  {
    CountChar(content, '\n') + 1
  }

  // ---------------------------------------------------------------- tags

  const GenericTags: seq<string> := ["#小红书", "#种草", "#分享", "#推荐"]
  const DigitTag: string := "#数字分享"
  const EmotionTag: string := "#真实分享"
  const MaxTags: nat := 10

  datatype Group = Beauty | Food | Fashion | Living | Learning

  /** The category groups in the order of the elif chain. */
  const Groups: seq<Group> := [Beauty, Food, Fashion, Living, Learning]

  function GroupKeywords(g: Group): seq<string>
  {
    match g
    case Beauty => ["美妆", "护肤", "化妆品", "面膜", "精华", "粉底", "口红"]
    case Food => ["美食", "吃", "菜谱", "做饭", "餐厅", "甜品"]
    case Fashion => ["穿搭", "衣服", "搭配", "时尚", "包包", "鞋子"]
    case Living => ["生活", "好物", "家居", "收纳", "幸福感"]
    case Learning => ["学习", "教育", "技能", "知识", "成长"]
  }

  function GroupTags(g: Group): (ts: seq<string>)
    ensures |ts| == 4
  {
    match g
    case Beauty => ["#美妆博主", "#护肤品推荐", "#化妆教程", "#美妆测评"]
    case Food => ["#美食分享", "#探店", "#家常菜", "#美食教程"]
    case Fashion => ["#穿搭分享", "#时尚博主", "#日常穿搭", "#ootd"]
    case Living => ["#生活好物", "#提升幸福感", "#生活品质", "#家居好物"]
    case Learning => ["#学习方法", "#技能分享", "#自我提升", "#成长笔记"]
  }

  /** The first group, in chain order from `gs`, one of whose keywords occurs in `text`. */
  function FirstGroup(gs: seq<Group>, text: string): Option<Group>
    decreases |gs|
  {
    if |gs| == 0 then None
    else if AnyIn(GroupKeywords(gs[0]), text) then Some(gs[0])
    else FirstGroup(gs[1..], text)
  }

  /** The tags before the cap. */
  function AllTags(content: string, title: string): seq<string>
  {
    var g := FirstGroup(Groups, Lower(content + title));
    GenericTags
    + (if g.Some? then GroupTags(g.value) else [])
    + (if HasDigit(title) then [DigitTag] else [])
    + (if |FindEmotionWords(title)| > 0 then [EmotionTag] else [])
  }

  /** `generate_tags`; the category argument is accepted and not used. */
  function GenerateTags(content: string, title: string, category: string): (r: seq<string>)
    ensures |r| <= MaxTags
    ensures |r| >= 4 && r[..4] == GenericTags
  {
    Take(AllTags(content, title), MaxTags)
  }
}
