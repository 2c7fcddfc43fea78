/** The restart window: a supervisor gives up when a child fails more than
    `maxRestarts` times within a period. Times count from the start of the clock. */
module RestartIntensity {

  datatype Intensity = Intensity(maxRestarts: nat, within: nat)

  /** The oldest time kept; a period longer than the clock has run keeps only the
      present instant. */
  function Cutoff(within: nat, now: nat): nat {
    if within <= now then now - within else now
  }

  function Keep(times: seq<nat>, cutoff: nat): seq<nat> {
    if times == [] then []
    else (if times[0] >= cutoff then [times[0]] else []) + Keep(times[1..], cutoff)
  }

  /** The times remembered after a report. */
  function Report(times: seq<nat>, within: nat, now: nat): seq<nat> {
    Keep(times, Cutoff(within, now)) + [now]
  }

  predicate Exceeded(intensity: Intensity, times: seq<nat>) {
    |times| > intensity.maxRestarts
  }

  class Stats {
    var times: seq<nat>

    constructor ()
      ensures times == []
    {
      times := [];
    }

    method ReportExit(intensity: Intensity, now: nat) returns (ok: bool)
      modifies this
      ensures times == Report(old(times), intensity.within, now)
      ensures ok <==> !Exceeded(intensity, times)
    {
      var cutoff := Cutoff(intensity.within, now);
      var kept: seq<nat> := [];
      for i := 0 to |times|
        invariant Keep(times, cutoff) == kept + Keep(times[i..], cutoff)
      {
        if times[i] >= cutoff { kept := kept + [times[i]]; }
      }
      times := kept + [now];
      ok := |times| <= intensity.maxRestarts;
    }
  }

  // ---------------------------------------------------------------------------
  // The whole history
  // ---------------------------------------------------------------------------

  /** The times remembered after all reports of a history. */
  function Remembered(history: seq<nat>, within: nat): seq<nat>
    decreases |history|
  {
    if history == [] then []
    else
      var n := |history| - 1;
      Report(Remembered(history[..n], within), within, history[n])
  }

  /** The reports of a history in the closed window of length `within` before `now`;
      the window begins with the clock if it is longer than the clock has run. */
  function Window(history: seq<nat>, within: nat, now: nat): seq<nat> {
    Keep(history, if within <= now then now - within else 0)
  }

  predicate Ordered(history: seq<nat>) {
    forall i, j :: 0 <= i < j < |history| ==> history[i] <= history[j]
  }

  /** How many of the times are before the cutoff. */
  function Before(times: seq<nat>, cutoff: nat): (p: nat)
    ensures p <= |times|
  {
    if times == [] || times[0] >= cutoff then 0 else 1 + Before(times[1..], cutoff)
  }

  lemma OrderedTail(times: seq<nat>)
    requires Ordered(times) && times != []
    ensures Ordered(times[1..])
    ensures forall i :: 0 <= i < |times| ==> times[0] <= times[i]
  {
  }

  lemma {:induction false} BeforeCutoff(times: seq<nat>, cutoff: nat, i: nat)
    requires Ordered(times) && i < |times|
    ensures times[i] >= cutoff <==> i >= Before(times, cutoff)
    decreases |times|
  {
    OrderedTail(times);
    if times[0] < cutoff && i > 0 {
      BeforeCutoff(times[1..], cutoff, i - 1);
    }
  }

  lemma {:induction false} KeepAll(times: seq<nat>, cutoff: nat)
    requires forall i :: 0 <= i < |times| ==> times[i] >= cutoff
    ensures Keep(times, cutoff) == times
    decreases |times|
  {
    if times != [] { KeepAll(times[1..], cutoff); }
  }

  lemma {:induction false} KeepFrom(times: seq<nat>, cutoff: nat)
    requires Ordered(times)
    ensures Keep(times, cutoff) == times[Before(times, cutoff)..]
    decreases |times|
  {
    if times != [] {
      OrderedTail(times);
      if times[0] >= cutoff {
        KeepAll(times, cutoff);
      } else {
        KeepFrom(times[1..], cutoff);
        assert times[1..][Before(times[1..], cutoff)..] == times[Before(times, cutoff)..];
      }
    }
  }

  /** What is kept of an ordered sequence is a suffix. */
  lemma KeepIsSuffix(times: seq<nat>, cutoff: nat) returns (p: nat)
    requires Ordered(times)
    ensures p <= |times| && Keep(times, cutoff) == times[p..]
    ensures forall i :: 0 <= i < |times| ==> (times[i] >= cutoff <==> i >= p)
  {
    p := Before(times, cutoff);
    KeepFrom(times, cutoff);
    forall i | 0 <= i < |times| ensures times[i] >= cutoff <==> i >= p { BeforeCutoff(times, cutoff, i); }
  }

  /** A report is still remembered if no later one has cut it off. */
  predicate Survives(history: seq<nat>, within: nat, i: nat)
    requires i < |history|
  {
    forall j :: i < j < |history| ==> history[i] >= Cutoff(within, history[j])
  }

  /** A suffix of the history loses its first `r` reports and gains one. */
  lemma SuffixStep(history: seq<nat>, q: nat, r: nat)
    requires history != [] && q + r <= |history| - 1
    ensures history[..|history| - 1][q..][r..] + [history[|history| - 1]] == history[q + r..]
  {
  }

  ghost predicate KeepsFrom(history: seq<nat>, within: nat, p: nat) {
    && p <= |history|
    && Remembered(history, within) == history[p..]
    && forall i :: 0 <= i < |history| ==> (Survives(history, within, i) <==> i >= p)
  }

  lemma SurvivesOneMore(history: seq<nat>, within: nat, i: nat, q: nat, r: nat)
    requires i < |history| - 1
    requires var before := history[..|history| - 1];
      && q <= |before| && (Survives(before, within, i) <==> i >= q)
      && r <= |before[q..]|
      && (forall x :: 0 <= x < |before[q..]| ==> (before[q..][x] >= Cutoff(within, history[|history| - 1]) <==> x >= r))
    ensures Survives(history, within, i) <==> i >= q + r
  {
    var n := |history| - 1;
    var before := history[..n];
    assert forall j :: 0 <= j < n ==> before[j] == history[j];
    assert Survives(history, within, i) <==> Survives(before, within, i) && history[i] >= Cutoff(within, history[n]);
    if i >= q { assert before[q..][i - q] == history[i]; }
  }

  lemma RememberedStep(history: seq<nat>, within: nat, q: nat) returns (p: nat)
    requires Ordered(history) && history != [] && KeepsFrom(history[..|history| - 1], within, q)
    ensures KeepsFrom(history, within, p)
  {
    var n := |history| - 1;
    var before := history[..n];
    var r := KeepIsSuffix(before[q..], Cutoff(within, history[n]));
    p := q + r;
    SuffixStep(history, q, r);
    forall i | 0 <= i < |history| ensures Survives(history, within, i) <==> i >= p {
      if i < n { SurvivesOneMore(history, within, i, q, r); }
    }
  }

  lemma {:induction false} RememberedIsSuffix(history: seq<nat>, within: nat) returns (p: nat)
    requires Ordered(history)
    ensures KeepsFrom(history, within, p)
    decreases |history|
  {
    if history == [] {
      p := 0;
    } else {
      var q := RememberedIsSuffix(history[..|history| - 1], within);
      p := RememberedStep(history, within, q);
    }
  }

  /** Two different times before the clock had run for a whole period, the earlier
      of which still belongs to the window ending at `now`. */
  predicate CutTooEarly(history: seq<nat>, within: nat, now: nat) {
    exists i, j :: 0 <= i < j < |history| && history[i] < history[j] < within && history[i] + within >= now
  }

  /** Some report of the window is forgotten exactly if one was cut off too early. */
  lemma Forgotten(history: seq<nat>, within: nat, now: nat, i: nat)
    requires Ordered(history) && history != [] && now == history[|history| - 1] && i < |history|
    ensures Survives(history, within, i) ==> history[i] + within >= now
    ensures history[i] + within >= now && !Survives(history, within, i) ==> CutTooEarly(history, within, now)
  {
    var n := |history| - 1;
    assert history[i] <= history[n];
    if Survives(history, within, i) {
      assert i < n ==> history[i] >= Cutoff(within, history[n]);
    } else if history[i] + within >= now {
      var j :| i < j < |history| && history[i] < Cutoff(within, history[j]);
      assert history[j] <= history[n];
      assert history[i] < history[j] < within;
    }
  }

  lemma CutIsForgotten(history: seq<nat>, within: nat, now: nat) returns (i: nat)
    requires CutTooEarly(history, within, now)
    ensures i < |history| && history[i] + within >= now && !Survives(history, within, i)
  {
    var a, j :| 0 <= a < j < |history| && history[a] < history[j] < within && history[a] + within >= now;
    i := a;
    assert history[i] < Cutoff(within, history[j]);
  }

  /** Something is cut too early exactly if less is remembered than the window holds. */
  lemma CutExactly(history: seq<nat>, within: nat, now: nat, p: nat, q: nat)
    requires Ordered(history) && history != [] && now == history[|history| - 1] && p <= |history| && q <= |history|
    requires forall i :: 0 <= i < |history| ==> (Survives(history, within, i) <==> i >= p)
    requires forall i :: 0 <= i < |history| ==> (history[i] + within >= now <==> i >= q)
    ensures q <= p && (q < p <==> CutTooEarly(history, within, now))
  {
    if p < |history| { Forgotten(history, within, now, p); }
    if q < p { Forgotten(history, within, now, q); }
    if CutTooEarly(history, within, now) { var i := CutIsForgotten(history, within, now); }
  }

  /** What is remembered is the whole window exactly if no report came so early that
      the period reached back beyond the start of the clock and cut off an older one
      that still counts. */
  lemma RememberedIsWindow(history: seq<nat>, within: nat)
    requires Ordered(history) && history != []
    ensures var now := history[|history| - 1];
      |Remembered(history, within)| == |Window(history, within, now)| <==> !CutTooEarly(history, within, now)
    ensures var now := history[|history| - 1];
      !CutTooEarly(history, within, now) ==> Remembered(history, within) == Window(history, within, now)
  {
    var now := history[|history| - 1];
    var p := RememberedIsSuffix(history, within);
    var q := KeepIsSuffix(history, if within <= now then now - within else 0);
    CutExactly(history, within, now, p, q);
  }

  /** The supervisor gives up exactly if the whole history of reports has more than
      the permitted number in the window, whatever that number is, if and only if no
      report that still counts was cut off early. */
  lemma GivesUpExactly(history: seq<nat>, within: nat)
    requires Ordered(history) && history != []
    ensures var now := history[|history| - 1];
      (forall max: nat :: Exceeded(Intensity(max, within), Remembered(history, within)) <==> |Window(history, within, now)| > max)
      <==> !CutTooEarly(history, within, now)
  {
    var now := history[|history| - 1];
    var r, w := |Remembered(history, within)|, |Window(history, within, now)|;
    RememberedIsWindow(history, within);
    if r != w {
      var max := if r < w then r else w;
      assert Exceeded(Intensity(max, within), Remembered(history, within)) != (w > max);
    }
  }

  /** Once the clock has run for a whole period before the first report, the window
      is always exact. */
  lemma ExactAfterOnePeriod(history: seq<nat>, intensity: Intensity)
    requires Ordered(history) && history != [] && forall i :: 0 <= i < |history| ==> history[i] >= intensity.within
    ensures Exceeded(intensity, Remembered(history, intensity.within))
      <==> |Window(history, intensity.within, history[|history| - 1])| > intensity.maxRestarts
  {
    RememberedIsWindow(history, intensity.within);
  }

  /** Early reports do get lost: failures at 1, 2 and 3 within a period of 10 are
      three in the window, but one is remembered. */
  lemma EarlyReportsAreLost()
    ensures Remembered([1, 2, 3], 10) == [3] && Window([1, 2, 3], 10, 3) == [1, 2, 3]
  {
    assert Remembered([], 10) == [];
    assert [1][..0] == [] && Remembered([1], 10) == [1];
    assert [1, 2][..1] == [1] && Keep([1], 2) == [] && Remembered([1, 2], 10) == [2];
    assert [1, 2, 3][..2] == [1, 2] && Keep([2], 3) == [];
    assert [1, 2, 3][1..] == [2, 3] && [2, 3][1..] == [3];
    assert Window([3], 10, 3) == [3] && Window([2, 3], 10, 3) == [2, 3];
  }
}
