/**
 * Title and message formatting shared, word for word, by
 * frontend/components/BeautifulAlert.tsx and frontend/components/CustomAlert.tsx:
 * a title gets the emoji of the first keyword rule it matches, and a message
 * without money in it gets a line break before each numbered-list marker.
 */
module AlertFormat {
  import opened Text

  /** One `if (title.includes(a) || title.includes(b) ...)` test and the emoji it prefixes. */
  datatype TitleRule = TitleRule(emoji: char, keywords: seq<string>)

  /** The tests of `formatTitle`, in the order they are tried. */
  const TitleRules: seq<TitleRule> := [
    TitleRule('❌', ["Lỗi", "Error"]),
    TitleRule('✅', ["Thành công", "Đã copy", "Success"]),
    TitleRule('🤔', ["Xác nhận", "Confirm"]),
    TitleRule('📋', ["Hướng dẫn", "Guide"]),
    TitleRule('💰', ["MoMo", "Thanh toán"]),
    TitleRule('📄', ["Copy", "Sao chép"]),
    TitleRule('🎯', ["Chọn", "Select"])
  ]

  /** The emoji of a title no rule matches. */
  const FallbackEmoji := '💬'

  predicate RuleMatches(rule: TitleRule, title: string) {
    exists k :: 0 <= k < |rule.keywords| && Contains(title, rule.keywords[k])
  }

  /** The `||` chain of one rule, left to right. */
  function AnyKeyword(title: string, keywords: seq<string>): (r: bool)
    ensures r <==> exists k :: 0 <= k < |keywords| && Contains(title, keywords[k])
  {
    if keywords == [] then false
    else
      var rest := AnyKeyword(title, keywords[1..]);
      assert forall k :: 1 <= k < |keywords| ==> keywords[k] == keywords[1..][k - 1];
      Contains(title, keywords[0]) || rest
  }

  /** The emoji of the first rule that matches, or the fallback. */
  function FirstMatch(title: string, rules: seq<TitleRule>): (e: char)
    ensures (forall k :: 0 <= k < |rules| ==> !RuleMatches(rules[k], title)) ==> e == FallbackEmoji
    ensures forall k ::
      (0 <= k < |rules| && RuleMatches(rules[k], title) && forall j :: 0 <= j < k ==> !RuleMatches(rules[j], title))
      ==> e == rules[k].emoji
  {
    if rules == [] then FallbackEmoji
    else if AnyKeyword(title, rules[0].keywords) then rules[0].emoji
    else
      var e := FirstMatch(title, rules[1..]);
      assert forall k :: 1 <= k < |rules| ==> rules[k] == rules[1..][k - 1];
      e
  }

  /** `formatTitle`: one emoji, a space, then the title unchanged. */
  function FormatTitle(title: string): (r: string)
    ensures |r| == |title| + 2 && r[1] == ' ' && r[2..] == title
    ensures r[0] == FallbackEmoji || exists k :: 0 <= k < |TitleRules| && r[0] == TitleRules[k].emoji
  {
    var e := FirstMatch(title, TitleRules);
    assert e == FallbackEmoji || exists k :: 0 <= k < |TitleRules| && e == TitleRules[k].emoji by {
      EmojiFromRules(title, TitleRules);
    }
    [e, ' '] + title
  }

  lemma {:induction false} EmojiFromRules(title: string, rules: seq<TitleRule>)
    ensures var e := FirstMatch(title, rules);
      e == FallbackEmoji || exists k :: 0 <= k < |rules| && e == rules[k].emoji
    decreases |rules|
  {
    if rules != [] && !AnyKeyword(title, rules[0].keywords) {
      EmojiFromRules(title, rules[1..]);
      if FirstMatch(title, rules) != FallbackEmoji {
        var k :| 0 <= k < |rules[1..]| && FirstMatch(title, rules) == rules[1..][k].emoji;
        assert rules[k + 1] == rules[1..][k];
      }
    }
  }

  /** A title mentioning an error is marked as one, whatever else it says: the error rule is tried first. */
  lemma ErrorRuleWins(title: string)
    requires Contains(title, "Lỗi") || Contains(title, "Error")
    ensures FormatTitle(title)[0] == '❌'
  {
    var rule := TitleRules[0];
    assert rule.keywords == ["Lỗi", "Error"];
    if Contains(title, "Lỗi") {
      assert Contains(title, rule.keywords[0]);
    } else {
      assert Contains(title, rule.keywords[1]);
    }
    assert RuleMatches(rule, title);
  }

  /** A title that is both an error and a success gets the error emoji. */
  lemma ErrorAndSuccessTitle()
    ensures FormatTitle("Thành công? Lỗi")[0] == '❌'
  {
    assert OccursAt("Thành công? Lỗi", "Lỗi", 12);
    ErrorRuleWins("Thành công? Lỗi");
  }

  // ----------------------------------------------------------------- messages

  /** `message.includes('VND') || message.includes('₫') || message.includes('Số tiền:')` */
  predicate MentionsMoney(message: string) {
    Contains(message, "VND") || Contains(message, "₫") || Contains(message, "Số tiền:")
  }

  /** The end of the run of digits starting at `i`. */
  function DigitRunEnd(s: string, i: nat): (j: nat)
    requires i <= |s|
    ensures i <= j <= |s|
    ensures forall k :: i <= k < j ==> IsDigit(s[k])
    ensures j == |s| || !IsDigit(s[j])
    decreases |s| - i
  {
    if i == |s| || !IsDigit(s[i]) then i else DigitRunEnd(s, i + 1)
  }

  /**
   * Where `/(\d+\.)(?=\s)/g` matches: a run of digits not preceded by a digit
   * (a match that fails at the start of a run fails inside it too, and a
   * match never ends inside one), then a dot, then whitespace.
   */
  predicate ListMarkerAt(s: string, i: nat)
    requires i < |s|
  {
    && IsDigit(s[i]) && (i == 0 || !IsDigit(s[i - 1]))
    && var j := DigitRunEnd(s, i);
       j + 1 < |s| && s[j] == '.' && IsSpace(s[j + 1])
  }

  /** The global replace `'\n$1'`, from position `i` on. */
  function BreakFrom(s: string, i: nat): string
    requires i <= |s|
    decreases |s| - i
  {
    if i == |s| then []
    else LineBreakAt(s, i) + [s[i]] + BreakFrom(s, i + 1)
  }

  /** What the replace inserts before position `i`. */
  function LineBreakAt(s: string, i: nat): (r: string)
    requires i < |s|
    ensures r == (if ListMarkerAt(s, i) then "\n" else "")
    ensures DropNewlines(r) == []
  {
    if ListMarkerAt(s, i) then "\n" else ""
  }

  /** The middle `replace` of `formatMessage`; the first and the last replace rewrite a match to itself. */
  function BreakBeforeNumbers(s: string): string {
    BreakFrom(s, 0)
  }

  /** The text without its line feeds. */
  function DropNewlines(s: string): (r: string)
    ensures forall k :: 0 <= k < |r| ==> r[k] != '\n'
  {
    if s == [] then [] else (if s[0] == '\n' then [] else [s[0]]) + DropNewlines(s[1..])
  }

  lemma {:induction false} DropNewlinesAppend(a: string, b: string)
    ensures DropNewlines(a + b) == DropNewlines(a) + DropNewlines(b)
    decreases |a|
  {
    if a == [] {
      assert a + b == b;
    } else {
      DropNewlinesAppend(a[1..], b);
      assert (a + b)[1..] == a[1..] + b;
    }
  }

  /** Dropping line feeds from a text with one more character in front. */
  lemma DropNewlinesCons(c: char, t: string)
    ensures DropNewlines([c] + t) == (if c == '\n' then [] else [c]) + DropNewlines(t)
  {
    assert ([c] + t)[1..] == t;
  }

  /** One step of the replace, with line feeds dropped: only the character at `i` is left. */
  lemma BreakFromStep(s: string, i: nat)
    requires i < |s|
    ensures DropNewlines(BreakFrom(s, i)) == (if s[i] == '\n' then [] else [s[i]]) + DropNewlines(BreakFrom(s, i + 1))
  {
    var c, rest, lead := s[i], BreakFrom(s, i + 1), LineBreakAt(s, i);
    assert BreakFrom(s, i) == lead + ([c] + rest);
    DropNewlinesAppend(lead, [c] + rest);
    DropNewlinesCons(c, rest);
  }

  /** The rewriting only adds line breaks: without them, the text is unchanged. */
  lemma {:induction false} BreakFromAddsOnlyNewlines(s: string, i: nat)
    requires i <= |s|
    ensures DropNewlines(BreakFrom(s, i)) == DropNewlines(s[i..])
    decreases |s| - i
  {
    if i < |s| {
      BreakFromStep(s, i);
      BreakFromAddsOnlyNewlines(s, i + 1);
      assert s[i..] == [s[i]] + s[i + 1..];
      DropNewlinesCons(s[i], s[i + 1..]);
    }
  }

  /** A message without numbered-list markers is not rewritten. */
  lemma {:induction false} NoMarkerNoBreak(s: string, i: nat)
    requires i <= |s|
    requires forall k :: i <= k < |s| ==> !ListMarkerAt(s, k)
    ensures BreakFrom(s, i) == s[i..]
    decreases |s| - i
  {
    if i < |s| {
      NoMarkerNoBreak(s, i + 1);
      assert s[i..] == [s[i]] + s[i + 1..];
    }
  }

  /** `formatMessage`: money messages pass through; others get list breaks and are trimmed. */
  function FormatMessage(message: string): (r: string)
    ensures MentionsMoney(message) ==> r == message
    ensures !MentionsMoney(message) && (forall k :: 0 <= k < |message| ==> !ListMarkerAt(message, k)) ==> r == Trim(message)
  {
    if MentionsMoney(message) then message
    else
      NoMarkerImpliesSame(message);
      Trim(BreakBeforeNumbers(message))
  }

  lemma NoMarkerImpliesSame(message: string)
    ensures (forall k :: 0 <= k < |message| ==> !ListMarkerAt(message, k)) ==> BreakBeforeNumbers(message) == message
  {
    if forall k :: 0 <= k < |message| ==> !ListMarkerAt(message, k) {
      NoMarkerNoBreak(message, 0);
    }
  }

  /** The text of a non-money message survives formatting, apart from line breaks and the outer whitespace. */
  lemma FormatMessageKeepsText(message: string)
    requires !MentionsMoney(message)
    ensures DropNewlines(BreakBeforeNumbers(message)) == DropNewlines(message)
  {
    BreakFromAddsOnlyNewlines(message, 0);
  }
}
