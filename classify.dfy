/** The behaviour classifier shared by the assistant and the visualiser: free analysis
    text is mapped to a behaviour code and description over a closed vocabulary of
    seven keywords, with an explicit unclassified fallback.

    The first pass is the regular expression
      (\d+)\s*[.、:]?\s*(认真专注工作|吃东西|用杯子喝水|喝饮料|玩手机|睡觉|其他)
    searched leftmost-first. It is modelled literally: try each start position in
    order; at a position holding a digit take the whole digit run, then the glue
    (spaces, at most one separator, spaces), then the first alternative that
    matches there. Backtracking cannot produce any other match: a shorter digit run
    leaves a digit where the glue or a keyword would have to start, and no keyword
    begins with a space or a separator, so the glue always ends where the greedy
    scan ends. */
module Classify {
  import opened Text

  const Keywords: seq<string> := ["认真专注工作", "吃东西", "用杯子喝水", "喝饮料", "玩手机", "睡觉", "其他"]
  const Codes: seq<string> := ["1", "2", "3", "4", "5", "6", "7"]
  const UnclassifiedCode: string := "0"
  const UnclassifiedDesc: string := "未识别"

  predicate IsSeparator(c: char)
  {
    c == '.' || c == '、' || c == ':'
  }

  /** End of the run of digits starting at `i`. */
  function DigitRunEnd(s: string, i: nat): (j: nat)
    requires i <= |s|
    decreases |s| - i
    ensures i <= j <= |s|
    ensures forall k | i <= k < j :: IsDigit(s[k])
    ensures j == |s| || !IsDigit(s[j])
  {
    if i < |s| && IsDigit(s[i]) then DigitRunEnd(s, i + 1) else i
  }

  /** End of the run of whitespace starting at `i`. */
  function SpaceRunEnd(s: string, i: nat): (j: nat)
    requires i <= |s|
    decreases |s| - i
    ensures i <= j <= |s|
    ensures forall k | i <= k < j :: IsSpace(s[k])
    ensures j == |s| || !IsSpace(s[j])
  {
    if i < |s| && IsSpace(s[i]) then SpaceRunEnd(s, i + 1) else i
  }

  /** Where `\s*[.、:]?\s*` starting at `j` leaves off when a keyword follows it. */
  function GlueEnd(s: string, j: nat): (k: nat)
    requires j <= |s|
    ensures j <= k <= |s|
  {
    var a := SpaceRunEnd(s, j);
    var b := if a < |s| && IsSeparator(s[a]) then a + 1 else a;
    SpaceRunEnd(s, b)
  }

  /** The first alternative (in the pattern's order, from `t` on) that matches at `k`. */
  function KeywordAt(s: string, k: nat, t: nat): (r: Option<nat>)
    requires t <= |Keywords|
    decreases |Keywords| - t
    ensures r.Some? ==> t <= r.value < |Keywords| && OccursAt(s, Keywords[r.value], k)
    ensures r.None? ==> forall u | t <= u < |Keywords| :: !OccursAt(s, Keywords[u], k)
  {
    if t == |Keywords| then None
    else if OccursAt(s, Keywords[t], k) then Some(t)
    else KeywordAt(s, k, t + 1)
  }

  /** The numbered pattern tried at start position `i`: the digits and the keyword index. */
  function NumberedMatchAt(s: string, i: nat): (r: Option<(string, nat)>)
    requires i < |s|
    ensures r.Some? ==> r.value.1 < |Keywords| && Contains(s, Keywords[r.value.1])
    ensures r.Some? ==> r.value.0 != [] && forall k | 0 <= k < |r.value.0| :: IsDigit(r.value.0[k])
  {
    if !IsDigit(s[i]) then None
    else
      var j := DigitRunEnd(s, i);
      var k := GlueEnd(s, j);
      match KeywordAt(s, k, 0)
      case Some(t) =>
        assert OccursAt(s, Keywords[t], k);
        Some((s[i..j], t))
      case None => None
  }

  /** `re.search` of the numbered pattern from start position `i` on: the leftmost match. */
  function NumberedSearch(s: string, i: nat): (r: Option<(string, nat)>)
    decreases |s| - i
    ensures r.Some? ==> r.value.1 < |Keywords| && Contains(s, Keywords[r.value.1])
    ensures r.Some? ==> r.value.0 != [] && forall k | 0 <= k < |r.value.0| :: IsDigit(r.value.0[k])
    ensures r.None? <==> forall k | i <= k < |s| :: NumberedMatchAt(s, k).None?
    ensures r.Some? ==> exists k | i <= k < |s| :: NumberedMatchAt(s, k) == r
                          && forall k' | i <= k' < k :: NumberedMatchAt(s, k').None?
  {
    if i >= |s| then None
    else match NumberedMatchAt(s, i)
      case Some(m) => Some(m)
      case None => NumberedSearch(s, i + 1)
  }

  /** The fallback pass: the first keyword, in order 1..7 from `t` on, that occurs anywhere. */
  function KeywordScan(s: string, t: nat): (r: (string, string))
    requires t <= |Keywords|
    decreases |Keywords| - t
  {
    if t == |Keywords| then (UnclassifiedCode, UnclassifiedDesc)
    else if Contains(s, Keywords[t]) then (Codes[t], Keywords[t])
    else KeywordScan(s, t + 1)
  }

  /** `extract_behavior_type`: (code, description) of the behaviour the analysis text names. */
  function ExtractBehaviorType(text: string): (r: (string, string))
    ensures r == (UnclassifiedCode, UnclassifiedDesc) || r.1 in Keywords
  {
    match NumberedSearch(text, 0)
    case Some((num, t)) => (num, Keywords[t])
    case None => KeywordScanResult(text, 0)
  }

  /** `KeywordScan`, with its result kept in the vocabulary. */
  function KeywordScanResult(s: string, t: nat): (r: (string, string))
    requires t <= |Keywords|
    ensures r == (UnclassifiedCode, UnclassifiedDesc) || exists u | t <= u < |Keywords| :: r == (Codes[u], Keywords[u])
  {
    KeywordScanInVocabulary(s, t);
    KeywordScan(s, t)
  }

  lemma {:induction false} KeywordScanInVocabulary(s: string, t: nat)
    requires t <= |Keywords|
    decreases |Keywords| - t
    ensures KeywordScan(s, t) == (UnclassifiedCode, UnclassifiedDesc)
            || exists u | t <= u < |Keywords| :: KeywordScan(s, t) == (Codes[u], Keywords[u])
  {
    if t < |Keywords| && !Contains(s, Keywords[t]) {
      KeywordScanInVocabulary(s, t + 1);
    }
  }

  /** When a keyword from `t` on occurs, the keyword scan returns the first one that does. */
  lemma {:induction false} KeywordScanFirstHit(s: string, t: nat)
    requires t <= |Keywords|
    decreases |Keywords| - t
    ensures forall u | t <= u < |Keywords| ::
              Contains(s, Keywords[u]) && (forall v | t <= v < u :: !Contains(s, Keywords[v]))
              ==> KeywordScan(s, t) == (Codes[u], Keywords[u])
  {
    if t < |Keywords| {
      KeywordScanFirstHit(s, t + 1);
    }
  }

  /** The classifier returns ("0", "未识别") exactly when none of the seven keywords occurs. */
  lemma ExtractUnclassifiedIff(text: string)
    ensures ExtractBehaviorType(text) == (UnclassifiedCode, UnclassifiedDesc)
            <==> forall t | 0 <= t < |Keywords| :: !Contains(text, Keywords[t])
  {
    if NumberedSearch(text, 0).Some? {
      var t := NumberedClassified(text);
    } else {
      assert ExtractBehaviorType(text) == KeywordScan(text, 0);
      KeywordScanNoneIff(text, 0);
    }
  }

  /** A numbered match names a keyword that occurs, so it is never unclassified. */
  lemma NumberedClassified(text: string) returns (t: nat)
    requires NumberedSearch(text, 0).Some?
    ensures t < |Keywords| && Contains(text, Keywords[t])
    ensures ExtractBehaviorType(text) == (NumberedSearch(text, 0).value.0, Keywords[t])
    ensures ExtractBehaviorType(text) != (UnclassifiedCode, UnclassifiedDesc)
  {
    t := NumberedSearch(text, 0).value.1;
    assert Keywords[t] != UnclassifiedDesc;
  }

  /** The keyword scan falls through to the unclassified pair exactly when none of the
      keywords from `t` on occurs. */
  lemma {:induction false} KeywordScanNoneIff(s: string, t: nat)
    requires t <= |Keywords|
    decreases |Keywords| - t
    ensures KeywordScan(s, t) == (UnclassifiedCode, UnclassifiedDesc)
            <==> forall u | t <= u < |Keywords| :: !Contains(s, Keywords[u])
  {
    if t < |Keywords| {
      KeywordScanNoneIff(s, t + 1);
      if Contains(s, Keywords[t]) {
        assert Codes[t] != UnclassifiedCode;
      }
    }
  }

  /** A numbered match returns its digit string together with one of the seven keywords. */
  lemma ExtractNumbered(text: string)
    requires NumberedSearch(text, 0).Some?
    ensures var (num, desc) := ExtractBehaviorType(text);
            num != [] && (forall k | 0 <= k < |num| :: IsDigit(num[k]))
            && desc in Keywords && Contains(text, desc)
  {
  }

  /** Without a numbered match, the first keyword in the order 1..7 that occurs decides. */
  lemma ExtractFirstKeyword(text: string, t: nat)
    requires NumberedSearch(text, 0).None?
    requires t < |Keywords| && Contains(text, Keywords[t])
    requires forall u | 0 <= u < t :: !Contains(text, Keywords[u])
    ensures ExtractBehaviorType(text) == (Codes[t], Keywords[t])
  {
    KeywordScanFirstHit(text, 0);
  }
}
