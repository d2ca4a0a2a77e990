/** `extract_language_emotion_content`: the clean utterance text inside a SenseVoice
    transcription such as "<|zh|><|NEUTRAL|><|Speech|><|woitn|>你好".

    The program locates the language and emotion fields with `str.find` (whose
    results may be -1 and then feed further `find` calls as negative starts), slices
    the content after the next '>', and then strips any remaining leading `<|…>`
    tags in a `while` loop. That loop never ends when the content starts with "<|"
    and has no '>' from index 2 on: `find` returns -1, the slice start is 0 and the
    content stays the same. The model exposes that case as the `None` result. */
module SpeechTags {
  import opened Text

  const TagOpen: string := "<|"

  /** Where the content begins: one past the '>' found after the emotion field. */
  function ContentStart(text: string): (k: nat)
    ensures k <= |text|
  {
    var languageStart := FindChar(text, '|', 0) + 1;
    var languageEnd := FindChar(text, '|', languageStart);
    var emotionStart := FindChar(text, '|', languageEnd + 1) + 1;
    var emotionEnd := FindChar(text, '|', emotionStart);
    FindChar(text, '>', emotionEnd) + 1
  }

  /** The tag-stripping loop as a function: `Some` of what is left once no tag leads,
      `None` when the loop would spin forever. */
  function StripTags(content: string): (r: Option<string>)
    decreases |content|
    ensures r.Some? ==> !StartsWith(r.value, TagOpen)
    ensures r.Some? ==> |r.value| <= |content| && r.value == content[|content| - |r.value|..]
  {
    if StartsWith(content, TagOpen) then
      var endTag := FindChar(content, '>', 2) + 1;
      if endTag == 0 then None else StripTags(content[endTag..])
    else Some(content)
  }

  /** The whole extraction, as a value: `None` where the program does not return. */
  function ExtractContent(text: string): (r: Option<string>)
  {
    CleanContent(text[ContentStart(text)..])
  }

  /** The tail end of the extraction: leading tags dropped, whitespace stripped. */
  function CleanContent(content: string): (r: Option<string>)
    ensures r.Some? ==> |r.value| <= |content|
  {
    match StripTags(content)
    case Some(c) => Some(Strip(c))
    case None => None
  }

  /** The program's loop, run on a local that is reassigned in place. */
  method ExtractLanguageEmotionContent(text: string) returns (r: Option<string>)
    ensures r == ExtractContent(text)
    ensures r.Some? ==> |r.value| <= |text|
  {
    var content := text[ContentStart(text)..];
    while StartsWith(content, TagOpen)
      invariant StripTags(content) == StripTags(text[ContentStart(text)..])
      invariant |content| <= |text|
      decreases |content|
    {
      var endTag := FindChar(content, '>', 2) + 1;
      if endTag == 0 {
        return None;
      }
      content := content[endTag..];
    }
    r := Some(Strip(content));
  }

  /** Content that does not begin with a tag is left as it is. */
  lemma StripTagsUntagged(content: string)
    requires !StartsWith(content, TagOpen)
    ensures StripTags(content) == Some(content)
  {
  }

  /** The loop takes a step at index `j` of the content: a tag opens there and its '>'
      exists, and the next round starts at `k`, just past that '>'. */
  predicate Advances(content: string, j: nat, k: nat)
  {
    j <= |content| && StartsWith(content[j..], TagOpen)
    && FindChar(content[j..], '>', 2) >= 0 && k == j + FindChar(content[j..], '>', 2) + 1
  }

  /** The loop's rounds start at index `k` of the content: the first round starts at 0,
      and each step leads from one round's start to the next. */
  predicate Reaches(content: string, k: nat)
    decreases k
  {
    k == 0 || exists j | 0 <= j < k :: Reaches(content, j) && Advances(content, j, k)
  }

  /** Every round the loop reaches sees the same outcome as the whole content. */
  lemma {:induction false} ReachedRoundAgrees(content: string, k: nat)
    requires Reaches(content, k)
    decreases k
    ensures k <= |content| && StripTags(content[k..]) == StripTags(content)
  {
    if k == 0 {
      assert content[0..] == content;
    } else {
      var j :| 0 <= j < k && Reaches(content, j) && Advances(content, j, k);
      ReachedRoundAgrees(content, j);
      StepAgrees(content, j, k);
    }
  }

  /** One step of the loop leaves its outcome as it was. */
  lemma StepAgrees(content: string, j: nat, k: nat)
    requires Advances(content, j, k)
    ensures k <= |content| && StripTags(content[k..]) == StripTags(content[j..])
  {
    var e := FindChar(content[j..], '>', 2) + 1;
    assert content[j..][e..] == content[k..];
  }

  /** From a reached round whose outcome is a hang, the loop goes on to reach a stuck tag. */
  lemma {:induction false} HangReachesStuck(content: string, j: nat)
    requires Reaches(content, j) && j <= |content| && StripTags(content[j..]).None?
    decreases |content| - j
    ensures exists k | j <= k <= |content| :: Reaches(content, k) && StuckAt(content[k..])
  {
    if !StuckAt(content[j..]) {
      var k := j + FindChar(content[j..], '>', 2) + 1;
      assert Advances(content, j, k);
      StepAgrees(content, j, k);
      HangReachesStuck(content, k);
    }
  }

  /** The loop hangs exactly when one of the rounds it reaches starts at a leading "<|"
      with no '>' after it. */
  lemma StripTagsHangs(content: string)
    ensures StripTags(content).None? <==>
            exists k | 0 <= k <= |content| :: Reaches(content, k) && StuckAt(content[k..])
  {
    if StripTags(content).None? {
      assert content[0..] == content;
      HangReachesStuck(content, 0);
    }
    if k :| 0 <= k <= |content| && Reaches(content, k) && StuckAt(content[k..]) {
      ReachedRoundAgrees(content, k);
    }
  }

  /** A leading "<|" whose '>' is missing: the state the loop cannot leave. */
  predicate StuckAt(content: string)
  {
    StartsWith(content, TagOpen) && FindChar(content, '>', 2) == -1
  }

  /** A SenseVoice header "<|language|><|emotion|>" occupying `text[..b + 2]`, with the
      language field in `text[2..a]` and the emotion field in `text[a + 4..b]`. */
  predicate HeaderAt(text: string, a: nat, b: nat)
  {
    2 <= a && a + 4 <= b && b + 2 <= |text|
    && text[0] == '<' && text[1] == '|'
    && text[a] == '|' && text[a + 1] == '>' && text[a + 2] == '<' && text[a + 3] == '|'
    && text[b] == '|' && text[b + 1] == '>'
    && (forall k | 2 <= k < a :: text[k] != '|')
    && (forall k | a + 4 <= k < b :: text[k] != '|')
  }

  /** After a well-formed language and emotion header, the content starts right behind
      it, so the result depends on what follows the header alone. */
  lemma ContentAfterHeader(text: string, a: nat, b: nat)
    requires HeaderAt(text, a, b)
    ensures ContentStart(text) == b + 2
    ensures ExtractContent(text) == CleanContent(text[b + 2..])
  {
    LanguageFinds(text, a, b);
    EmotionFinds(text, a, b);
    var content := text[ContentStart(text)..];
    assert content == text[b + 2..];
    assert ExtractContent(text) == CleanContent(content);
  }

  /** The `find` calls that locate the language field of a well-formed header. */
  lemma LanguageFinds(text: string, a: nat, b: nat)
    requires HeaderAt(text, a, b)
    ensures FindChar(text, '|', 0) == 1 && FindChar(text, '|', 2) == a
  {
    FindAt(text, '|', 0, 1);
    FindAt(text, '|', 2, a);
  }

  /** The `find` calls that locate the emotion field and the closing '>'. */
  lemma EmotionFinds(text: string, a: nat, b: nat)
    requires HeaderAt(text, a, b)
    ensures FindChar(text, '|', a + 1) == a + 3 && FindChar(text, '|', a + 4) == b
    ensures FindChar(text, '>', b) == b + 1
  {
    FindAt(text, '|', a + 1, a + 3);
    FindAt(text, '|', a + 4, b);
    FindAt(text, '>', b, b + 1);
  }

  /** Content stuck on a tag makes the extraction hang; untagged content is only stripped;
      and a hang happens exactly when the loop reaches a stuck tag. */
  lemma CleanContentCases(content: string)
    ensures StuckAt(content) ==> CleanContent(content) == None
    ensures !StartsWith(content, TagOpen) ==> CleanContent(content) == Some(Strip(content))
    ensures CleanContent(content).None? <==>
            exists k | 0 <= k <= |content| :: Reaches(content, k) && StuckAt(content[k..])
  {
    StripTagsHangs(content);
  }

  /** `find` from a non-negative start stops at the first occurrence. */
  lemma FindAt(s: string, c: char, start: nat, p: nat)
    requires start <= p < |s| && s[p] == c
    requires forall k | start <= k < p :: s[k] != c
    ensures FindChar(s, c, start) == p
  {
  }
}
