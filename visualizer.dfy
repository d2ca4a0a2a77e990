/** The behaviour visualiser's bookkeeping: every classified observation is added to a
    sample history capped at 100 entries and to a per-code count that is never
    decremented, and the pie chart shows the counts of codes "1" to "7" (or a waiting
    placeholder while they are all zero). The visualiser app keeps its own observation
    history, capped at 100 as well, and the description of the current behaviour.

    Drawing, colours, the line chart and the refresh thread are not modelled. */
module Visualizer {
  import opened Text
  import Classify
  import Conversation

  const HistoryLimit: nat := 100

  /** An entry of `behavior_history`: `(timestamp, behavior_num)`. */
  datatype Sample = Sample(timestamp: real, behaviorNum: string)

  /** `h[-n:]`: the last `n` entries, or all of them. */
  function KeepLast<T>(h: seq<T>, n: nat): (r: seq<T>)
    ensures |r| == if |h| < n then |h| else n
    ensures r == h[|h| - |r|..]
  {
    if |h| > n then h[|h| - n..] else h
  }

  /** How often code `c` occurs in a sample history. */
  function Occurrences(h: seq<Sample>, c: string): (n: nat)
    ensures n <= |h|
  {
    if h == [] then 0
    else Occurrences(h[..|h| - 1], c) + (if h[|h| - 1].behaviorNum == c then 1 else 0)
  }

  datatype VisualizerState = VisualizerState(history: seq<Sample>, counts: map<string, nat>)

  /** The visualiser as constructed: no samples, a zero count for each of the seven codes. */
  function InitialVisualizer(): (v: VisualizerState)
    ensures v.history == [] && v.counts.Keys == set t | 0 <= t < 7 :: Classify.Codes[t]
    ensures forall c | c in v.counts :: v.counts[c] == 0
  {
    VisualizerState([], map c | c in Classify.Codes :: 0)
  }

  /** `BehaviorVisualizer.add_behavior_data(timestamp, num, desc)`. */
  function AddSampleSpec(v: VisualizerState, timestamp: real, num: string): VisualizerState
  {
    VisualizerState(KeepLast(v.history + [Sample(timestamp, num)], HistoryLimit),
                    v.counts[num := CountOf(v.counts, num) + 1])
  }

  /** What `update_pie_chart` draws. */
  datatype Pie = Waiting | Slices(sizes: seq<nat>)

  /** The count vector for codes "1" to "7", in that order. */
  function PieSizes(counts: map<string, nat>): (sizes: seq<nat>)
    ensures |sizes| == 7 && forall t | 0 <= t < 7 :: sizes[t] == CountOf(counts, Classify.Codes[t])
  {
    seq(7, t requires 0 <= t < 7 => CountOf(counts, Classify.Codes[t]))
  }

  function Total(sizes: seq<nat>): nat
  {
    if sizes == [] then 0 else Total(sizes[..|sizes| - 1]) + sizes[|sizes| - 1]
  }

  function PieChart(counts: map<string, nat>): Pie
  {
    var sizes := PieSizes(counts);
    if Total(sizes) == 0 then Waiting else Slices(sizes)
  }

  /** Exactly the sample's count goes up by one (starting from zero for a code not seen
      before, such as "0"), and no other count changes. */
  lemma AddSampleCounts(v: VisualizerState, timestamp: real, num: string)
    ensures var v' := AddSampleSpec(v, timestamp, num);
            num in v'.counts && v'.counts[num] == CountOf(v.counts, num) + 1
            && v'.counts.Keys == v.counts.Keys + {num}
            && (forall c | c in v.counts && c != num :: v'.counts[c] == v.counts[c])
  {
  }

  /** The history keeps the latest 100 samples in arrival order, the new one last. */
  lemma AddSampleHistory(v: VisualizerState, timestamp: real, num: string)
    ensures var h := AddSampleSpec(v, timestamp, num).history;
            |h| <= HistoryLimit && h != [] && h[|h| - 1] == Sample(timestamp, num)
            && (|v.history| < HistoryLimit ==> h == v.history + [Sample(timestamp, num)])
            && (|v.history| >= HistoryLimit ==>
                  |h| == HistoryLimit && h[..HistoryLimit - 1] == v.history[|v.history| - (HistoryLimit - 1)..])
  {
  }

  /** Occurrences in a suffix are at most those in the whole history. */
  lemma {:induction false} OccurrencesSuffix(h: seq<Sample>, k: nat, c: string)
    requires k <= |h|
    ensures Occurrences(h[k..], c) <= Occurrences(h, c)
    decreases |h|
  {
    if k < |h| {
      assert h[k..][..|h[k..]| - 1] == h[..|h| - 1][k..];
      OccurrencesSuffix(h[..|h| - 1], k, c);
    }
  }

  /** Truncation never takes anything off a count: each count is at least the number of
      samples with that code still in the history, and adding a sample keeps it so. */
  lemma {:induction false} CountsCoverHistory(v: VisualizerState, timestamp: real, num: string)
    requires forall c :: Occurrences(v.history, c) <= CountOf(v.counts, c)
    ensures var v' := AddSampleSpec(v, timestamp, num);
            (forall c :: Occurrences(v'.history, c) <= CountOf(v'.counts, c))
            && (forall c :: CountOf(v.counts, c) <= CountOf(v'.counts, c))
  {
    var h := v.history + [Sample(timestamp, num)];
    assert h[..|h| - 1] == v.history;
    var v' := AddSampleSpec(v, timestamp, num);
    forall c ensures Occurrences(v'.history, c) <= CountOf(v'.counts, c) {
      OccurrencesSuffix(h, |h| - |v'.history|, c);
    }
  }

  /** Without truncation the counts match the history exactly, starting from the
      constructor's zeros. */
  lemma {:induction false} CountsMatchShortHistory(v: VisualizerState, timestamp: real, num: string)
    requires |v.history| < HistoryLimit
    requires forall c :: Occurrences(v.history, c) == CountOf(v.counts, c)
    ensures var v' := AddSampleSpec(v, timestamp, num);
            forall c :: Occurrences(v'.history, c) == CountOf(v'.counts, c)
  {
    var h := v.history + [Sample(timestamp, num)];
    assert h[..|h| - 1] == v.history;
  }

  lemma InitialCountsMatch()
    ensures forall c :: Occurrences(InitialVisualizer().history, c) == CountOf(InitialVisualizer().counts, c)
  {
  }

  lemma {:induction false} TotalZero(sizes: seq<nat>)
    ensures Total(sizes) == 0 <==> forall t | 0 <= t < |sizes| :: sizes[t] == 0
  {
    if sizes != [] {
      TotalZero(sizes[..|sizes| - 1]);
      assert forall t | 0 <= t < |sizes| - 1 :: sizes[..|sizes| - 1][t] == sizes[t];
    }
  }

  /** The pie shows the placeholder exactly when none of codes "1" to "7" was counted;
      otherwise its slices are their counts. A sample outside those codes (such as the
      unclassified "0") never changes the pie. */
  lemma PieChartCases(counts: map<string, nat>, num: string)
    ensures PieChart(counts) == Waiting <==> forall t | 0 <= t < 7 :: CountOf(counts, Classify.Codes[t]) == 0
    ensures PieChart(counts).Slices? ==> PieChart(counts).sizes == PieSizes(counts)
    ensures num !in Classify.Codes ==> PieChart(counts[num := CountOf(counts, num) + 1]) == PieChart(counts)
  {
    TotalZero(PieSizes(counts));
    if num !in Classify.Codes {
      assert PieSizes(counts[num := CountOf(counts, num) + 1]) == PieSizes(counts);
    }
  }

  class BehaviorVisualizer {
    var behaviorHistory: seq<Sample>
    var behaviorCounts: map<string, nat>

    function State(): VisualizerState
      reads this
    {
      VisualizerState(behaviorHistory, behaviorCounts)
    }

    constructor ()
      ensures State() == InitialVisualizer()
    {
      behaviorHistory := [];
      behaviorCounts := map c | c in Classify.Codes :: 0;
    }

    method AddBehaviorData(timestamp: real, num: string, desc: string)
      modifies this
      ensures State() == AddSampleSpec(old(State()), timestamp, num)
    {
      behaviorHistory := behaviorHistory + [Sample(timestamp, num)];
      behaviorCounts := behaviorCounts[num := CountOf(behaviorCounts, num) + 1];
      if |behaviorHistory| > HistoryLimit {
        behaviorHistory := behaviorHistory[|behaviorHistory| - HistoryLimit..];
      }
    }

    /** What `update_pie_chart` draws from the current counts. */
    function UpdatePieChart(): (p: Pie)
      reads this
      ensures p.Slices? ==> |p.sizes| == 7 && p.sizes[0] + p.sizes[1] + p.sizes[2] + p.sizes[3]
                                               + p.sizes[4] + p.sizes[5] + p.sizes[6] > 0
    {
      var p := PieChart(behaviorCounts);
      TotalZero(PieSizes(behaviorCounts));
      p
    }
  }

  /** The visualiser app's own observation history and current behaviour. */
  datatype VisualizationAppState = VisualizationAppState(
    history: seq<Conversation.Observation>,
    currentBehavior: string,
    visualizer: VisualizerState)

  /** `BehaviorVisualizationApp.add_behavior_data`. */
  function AddBehaviorDataSpec(a: VisualizationAppState, timestamp: real, num: string, desc: string, analysis: string): VisualizationAppState
  {
    VisualizationAppState(KeepLast(a.history + [Conversation.Observation(timestamp, num, desc, analysis)], HistoryLimit),
                          desc, AddSampleSpec(a.visualizer, timestamp, num))
  }

  /** The app keeps the 100 latest observations in arrival order, the new one last, and
      shows its description as the current behaviour. */
  lemma AddBehaviorDataOutcome(a: VisualizationAppState, timestamp: real, num: string, desc: string, analysis: string)
    ensures var a' := AddBehaviorDataSpec(a, timestamp, num, desc, analysis);
            var o := Conversation.Observation(timestamp, num, desc, analysis);
            |a'.history| <= HistoryLimit && a'.history[|a'.history| - 1] == o
            && a'.history == (a.history + [o])[|a.history| + 1 - |a'.history|..]
            && (|a.history| < HistoryLimit ==> a'.history == a.history + [o])
            && a'.currentBehavior == desc
  {
  }

  /** The analysis thread's success branch: a non-empty analysis is classified and
      added. */
  function AnalysisReceivedSpec(a: VisualizationAppState, analysis: Option<string>, now: real): VisualizationAppState
  {
    if analysis.None? || analysis.value == [] then a
    else
      var (num, desc) := Classify.ExtractBehaviorType(analysis.value);
      AddBehaviorDataSpec(a, now, num, desc, analysis.value)
  }

  /** A classified analysis always shows one of the seven descriptions or the
      unclassified one, and counts under its own code. */
  lemma AnalysisReceivedOutcome(a: VisualizationAppState, analysis: string, now: real)
    requires analysis != []
    ensures var a' := AnalysisReceivedSpec(a, Some(analysis), now);
            var (num, desc) := Classify.ExtractBehaviorType(analysis);
            (a'.currentBehavior in Classify.Keywords || a'.currentBehavior == Classify.UnclassifiedDesc)
            && a'.visualizer.counts[num] == CountOf(a.visualizer.counts, num) + 1
  {
  }

  class BehaviorVisualizationApp {
    var observationHistory: seq<Conversation.Observation>
    var currentBehavior: string
    const behaviorVisualizer: BehaviorVisualizer

    function State(): VisualizationAppState
      reads this, behaviorVisualizer
    {
      VisualizationAppState(observationHistory, currentBehavior, behaviorVisualizer.State())
    }

    constructor ()
      ensures fresh(behaviorVisualizer)
      ensures State() == VisualizationAppState([], "未知", InitialVisualizer())
    {
      observationHistory := [];
      currentBehavior := "未知";
      behaviorVisualizer := new BehaviorVisualizer();
    }

    method AddBehaviorData(timestamp: real, num: string, desc: string, analysis: string)
      modifies this, behaviorVisualizer
      ensures State() == AddBehaviorDataSpec(old(State()), timestamp, num, desc, analysis)
    {
      observationHistory := observationHistory + [Conversation.Observation(timestamp, num, desc, analysis)];
      if |observationHistory| > HistoryLimit {
        observationHistory := observationHistory[|observationHistory| - HistoryLimit..];
      }
      behaviorVisualizer.AddBehaviorData(timestamp, num, desc);
      currentBehavior := desc;
    }

    method AnalysisReceived(analysis: Option<string>, now: real)
      modifies this, behaviorVisualizer
      ensures State() == AnalysisReceivedSpec(old(State()), analysis, now)
    {
      if analysis.None? || analysis.value == [] {
        return;
      }
      var (num, desc) := Classify.ExtractBehaviorType(analysis.value);
      AddBehaviorData(now, num, desc, analysis.value);
    }
  }
}
