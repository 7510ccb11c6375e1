/** The input clean-up of the Gemini chat room: `text.replace(/<@[a-zA-Z0-9]+>/g, "").trim()`,
    which removes Slack user mentions such as `<@U0123ABC>` and then surrounding whitespace. */
module TextCleaning {
  import opened Wrappers

  /** The characters JavaScript's `String.prototype.trim` removes: WhiteSpace and LineTerminator. */
  predicate IsWhitespace(c: char)
  {
    ('\t' <= c <= '\r')  // tab, line feed, vertical tab, form feed, carriage return
    || c == ' ' || c == '\U{A0}' || c == '\U{1680}' || ('\U{2000}' <= c <= '\U{200A}')
    || c == '\U{2028}' || c == '\U{2029}' || c == '\U{202F}' || c == '\U{205F}'
    || c == '\U{3000}' || c == '\U{FEFF}'
  }

  /** The regex character class `[a-zA-Z0-9]`. */
  predicate IsAlnum(c: char)
  {
    ('a' <= c <= 'z') || ('A' <= c <= 'Z') || ('0' <= c <= '9')
  }

  /** `w` is a whole match of `<@[a-zA-Z0-9]+>`. */
  predicate IsMention(w: string)
  {
    |w| >= 4 && w[0] == '<' && w[1] == '@' && w[|w| - 1] == '>'
    && forall i :: 2 <= i < |w| - 1 ==> IsAlnum(w[i])
  }

  /** `s` contains the two characters `<@` next to each other, which every mention starts with. */
  predicate HasMentionOpener(s: string)
  {
    exists i :: 0 <= i < |s| - 1 && s[i] == '<' && s[i + 1] == '@'
  }

  /** Length of the longest prefix of `s` made of `[a-zA-Z0-9]` characters. */
  function AlnumRun(s: string): (k: nat)
    ensures k <= |s|
    ensures forall i :: 0 <= i < k ==> IsAlnum(s[i])
    ensures k == |s| || !IsAlnum(s[k])
  {
    if s != [] && IsAlnum(s[0]) then 1 + AlnumRun(s[1..]) else 0
  }

  /** The length of the regex match that starts at the first character of `s`, if there is one:
      `<@`, the longest run of `[a-zA-Z0-9]` after it, and `>` right after the run. */
  function MentionAt(s: string): (r: Option<nat>)
    ensures r.Some? ==> 4 <= r.value <= |s|
  {
    if |s| >= 2 && s[0] == '<' && s[1] == '@' then
      var k := AlnumRun(s[2..]);
      if k >= 1 && 2 + k < |s| && s[2 + k] == '>' then Some(3 + k) else None
    else
      None
  }

  /** MentionAt finds exactly the regex match at the front: the `+` is greedy, and since `>` is
      not alphanumeric at most one length can match. */
  lemma MentionAtMatches(s: string)
    ensures forall k :: 0 <= k <= |s| ==> (IsMention(s[..k]) <==> MentionAt(s) == Some(k))
  {
    if |s| >= 2 && s[0] == '<' && s[1] == '@' {
      var k := AlnumRun(s[2..]);
      if k >= 1 && 2 + k < |s| && s[2 + k] == '>' {
        assert IsMention(s[..3 + k]);
      }
    }
  }

  /** The global replace: scan left to right; where a match starts, drop it and resume after it;
      otherwise keep the character and move one position on. */
  function StripMentions(s: string): (r: string)
    ensures |r| <= |s|
    decreases |s|
  {
    if s == [] then []
    else
      match MentionAt(s)
      case Some(k) => StripMentions(s[k..])
      case None => [s[0]] + StripMentions(s[1..])
  }

  /** `String.prototype.trimStart`. */
  function TrimStart(s: string): (r: string)
    ensures |r| <= |s|
  {
    if s != [] && IsWhitespace(s[0]) then TrimStart(s[1..]) else s
  }

  /** `String.prototype.trimEnd`. */
  function TrimEnd(s: string): (r: string)
    ensures |r| <= |s|
  {
    if s != [] && IsWhitespace(s[|s| - 1]) then TrimEnd(s[..|s| - 1]) else s
  }

  /** `String.prototype.trim`. */
  function Trim(s: string): (r: string)
    ensures |r| <= |s|
  {
    TrimEnd(TrimStart(s))
  }

  /** trimStart drops the longest all-whitespace prefix and nothing else. */
  lemma {:induction false} TrimStartDropsLeadingWhitespace(s: string)
    ensures var r := TrimStart(s);
      |r| <= |s| && r == s[|s| - |r|..]
      && (forall i :: 0 <= i < |s| - |r| ==> IsWhitespace(s[i]))
      && (r == [] || !IsWhitespace(r[0]))
    decreases |s|
  {
    if s != [] && IsWhitespace(s[0]) {
      TrimStartDropsLeadingWhitespace(s[1..]);
    }
  }

  /** trimEnd drops the longest all-whitespace suffix and nothing else. */
  lemma {:induction false} TrimEndDropsTrailingWhitespace(s: string)
    ensures var r := TrimEnd(s);
      |r| <= |s| && r == s[..|r|]
      && (forall i :: |r| <= i < |s| ==> IsWhitespace(s[i]))
      && (r == [] || !IsWhitespace(r[|r| - 1]))
    decreases |s|
  {
    if s != [] && IsWhitespace(s[|s| - 1]) {
      TrimEndDropsTrailingWhitespace(s[..|s| - 1]);
    }
  }

  /** A prefix of a suffix is the slice between the two cuts. */
  lemma SliceOfSuffix(s: string, lead: nat, k: nat)
    requires lead + k <= |s|
    ensures s[lead..][..k] == s[lead..lead + k]
  {
  }

  /** trim leaves the slice of `s` between its leading and trailing whitespace: it neither begins
      nor ends with whitespace, and everything cut off on either side is whitespace. */
  lemma TrimIsInnerSlice(s: string)
    ensures var r, lead := Trim(s), |s| - |TrimStart(s)|;
      lead + |r| <= |s| && r == s[lead..lead + |r|]
      && (forall i :: 0 <= i < lead ==> IsWhitespace(s[i]))
      && (forall i :: lead + |r| <= i < |s| ==> IsWhitespace(s[i]))
      && (r == [] || (!IsWhitespace(r[0]) && !IsWhitespace(r[|r| - 1])))
  {
    var t := TrimStart(s);
    TrimStartDropsLeadingWhitespace(s);
    var lead := |s| - |t|;
    var r := TrimEnd(t);
    assert r == Trim(s);
    TrimEndDropsTrailingWhitespace(t);
    SliceOfSuffix(s, lead, |r|);
    forall i | lead + |r| <= i < |s| ensures IsWhitespace(s[i]) {
      assert s[i] == t[i - lead];
    }
    if r != [] {
      assert r[0] == t[0] && !IsWhitespace(t[0]);
      assert !IsWhitespace(r[|r| - 1]);
    }
  }

  /** The cleaned text the Gemini room stores and sends. */
  function CleanText(text: string): (r: string)
    ensures |r| <= |text|
  {
    Trim(StripMentions(text))
  }

  /** Cleaned text never begins or ends with whitespace. */
  lemma CleanTextTrimmed(text: string)
    ensures var r := CleanText(text);
      r == [] || (!IsWhitespace(r[0]) && !IsWhitespace(r[|r| - 1]))
  {
    TrimIsInnerSlice(StripMentions(text));
  }

  /** Text with no `<@` in it passes the mention pass unchanged. */
  lemma {:induction false} StripMentionsWithoutOpener(s: string)
    requires !HasMentionOpener(s)
    ensures StripMentions(s) == s
    decreases |s|
  {
    if s != [] {
      assert MentionAt(s) == None by {
        if |s| >= 2 {
          assert !(s[0] == '<' && s[1] == '@');
        }
      }
      assert !HasMentionOpener(s[1..]) by {
        forall i | 0 <= i < |s[1..]| - 1 ensures !(s[1..][i] == '<' && s[1..][i + 1] == '@') {
          assert s[1..][i] == s[i + 1] && s[1..][i + 1] == s[i + 2];
        }
      }
      StripMentionsWithoutOpener(s[1..]);
    }
  }

  /** Text with no `<@` in it is only trimmed. */
  lemma CleanTextWithoutOpener(text: string)
    requires !HasMentionOpener(text)
    ensures CleanText(text) == Trim(text)
  {
    StripMentionsWithoutOpener(text);
  }

  /** A mention at the front is removed whole, and the scan resumes right after it. */
  lemma StripLeadingMention(m: string, rest: string)
    requires IsMention(m)
    ensures StripMentions(m + rest) == StripMentions(rest)
  {
    MentionAtMatches(m + rest);
    assert (m + rest)[..|m|] == m;
    assert (m + rest)[|m|..] == rest;
  }

  /** A character where no mention starts is kept, in place. */
  lemma StripKeepsNonMention(c: char, rest: string)
    requires MentionAt([c] + rest).None?
    ensures StripMentions([c] + rest) == [c] + StripMentions(rest)
  {
    assert ([c] + rest)[1..] == rest;
  }

  /** An opener `<@` that starts no mention, as in `<@ x` or `<@>`, is kept: the `<` stays and the
      scan resumes at the `@`. */
  lemma StripKeepsBrokenOpener(rest: string)
    requires rest == [] || !IsAlnum(rest[0])
    ensures StripMentions(['<', '@'] + rest) == ['<'] + StripMentions(['@'] + rest)
  {
    assert ['<', '@'] + rest == ['<'] + (['@'] + rest);
    assert (['<'] + (['@'] + rest))[2..] == rest;
    StripKeepsNonMention('<', ['@'] + rest);
  }

  /** A `<` in front of a mention is kept, the mention goes, and the scan resumes after it. */
  lemma StripAfterStrayOpener(mention: string, rest: string)
    requires IsMention(mention) && !HasMentionOpener(rest)
    ensures StripMentions(['<'] + mention + rest) == ['<'] + rest
  {
    calc {
      StripMentions(['<'] + mention + rest);
      { assert ['<'] + mention + rest == ['<'] + (mention + rest); }
      StripMentions(['<'] + (mention + rest));
      { assert (['<'] + (mention + rest))[1] == '<'; StripKeepsNonMention('<', mention + rest); }
      ['<'] + StripMentions(mention + rest);
      { StripLeadingMention(mention, rest); StripMentionsWithoutOpener(rest); }
      ['<'] + rest;
    }
  }

  /** The pass is single, not repeated to a fixpoint: removing `<@a>` from `<<@a>@b>` leaves
      `<@b>`, itself a mention, which a second pass would remove (for any alphanumeric a and b). */
  lemma StripMentionsIsSinglePass(a: char, b: char)
    requires IsAlnum(a) && IsAlnum(b)
    ensures StripMentions(['<'] + ['<', '@', a, '>'] + ['@', b, '>']) == ['<', '@', b, '>']
    ensures StripMentions(StripMentions(['<'] + ['<', '@', a, '>'] + ['@', b, '>'])) == []
  {
    var first, second, tail := ['<', '@', a, '>'], ['<', '@', b, '>'], ['@', b, '>'];
    assert IsMention(first) && IsMention(second);
    assert !HasMentionOpener(tail);
    StripAfterStrayOpener(first, tail);
    assert ['<'] + tail == second;
    StripLeadingMention(second, []);
    assert second + [] == second;
  }
}
