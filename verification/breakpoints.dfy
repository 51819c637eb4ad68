/**
 The breakpoint classifier of utils.js (`getFactor`): it maps a value to the
 index of the first threshold in an ordered list that the value "reaches".

 In the default mode a threshold matches when `value >= threshold`; in the
 opposite mode it matches when `value < threshold`. When no threshold
 matches, the result is the length of the list (the overflow bucket).
 */
module Breakpoints {
  import opened Wrappers

  /** Whether `value` matches `threshold` in the given mode. */
  predicate Matches(threshold: real, value: real, opposite: bool) {
    if opposite then value < threshold else value >= threshold
  }

  /** `k` is the index of the first matching threshold, or the length of the
      list when there is none. */
  predicate IsFirstMatch(breakpoints: seq<real>, value: real, opposite: bool, k: nat) {
    && k <= |breakpoints|
    && (k < |breakpoints| ==> Matches(breakpoints[k], value, opposite))
    && forall j :: 0 <= j < k ==> !Matches(breakpoints[j], value, opposite)
  }

  /** The thresholds decrease strictly from left to right. */
  predicate StrictlyDescending(breakpoints: seq<real>) {
    forall j, k :: 0 <= j < k < |breakpoints| ==> breakpoints[j] > breakpoints[k]
  }

  /** The thresholds increase strictly from left to right. */
  predicate StrictlyAscending(breakpoints: seq<real>) {
    forall j, k :: 0 <= j < k < |breakpoints| ==> breakpoints[j] < breakpoints[k]
  }

  /** Reference definition of the classifier. Leaving `opposite` out is the
      same as passing `false`, as in the source's default parameter. */
  function Factor(breakpoints: seq<real>, value: real, opposite: bool := false): (r: nat)
    ensures r <= |breakpoints|
    ensures r < |breakpoints| ==> Matches(breakpoints[r], value, opposite)
    ensures forall j :: 0 <= j < r ==> !Matches(breakpoints[j], value, opposite)
    decreases |breakpoints|
  {
    if |breakpoints| == 0 then 0
    else if Matches(breakpoints[0], value, opposite) then 0
    else 1 + Factor(breakpoints[1..], value, opposite)
  }

  /** The loop of the source: scan left to right, stop at the first match,
      and fall back to the list length when the scan found nothing. */
  method GetFactor(breakpoints: seq<real>, value: real, opposite: bool := false) returns (factor: nat)
    ensures factor == Factor(breakpoints, value, opposite)
    ensures factor <= |breakpoints|
    ensures factor == |breakpoints| <==> forall j :: 0 <= j < |breakpoints| ==> !Matches(breakpoints[j], value, opposite)
  {
    var found: Option<nat> := None;
    var i := 0;
    while i < |breakpoints|
      invariant 0 <= i <= |breakpoints|
      invariant found == None
      invariant forall j :: 0 <= j < i ==> !Matches(breakpoints[j], value, opposite)
    {
      if opposite {
        if value < breakpoints[i] {
          found := Some(i);
          break;
        }
      } else {
        if value >= breakpoints[i] {
          found := Some(i);
          break;
        }
      }
      i := i + 1;
    }
    factor := if found.None? then |breakpoints| else found.value;
    assert IsFirstMatch(breakpoints, value, opposite, factor);
    FirstMatchIsUnique(breakpoints, value, opposite, factor);
  }

  /** The first-match property pins the classifier's result down exactly. */
  lemma FirstMatchIsUnique(breakpoints: seq<real>, value: real, opposite: bool, k: nat)
    ensures IsFirstMatch(breakpoints, value, opposite, k) <==> k == Factor(breakpoints, value, opposite)
  {
  }

  /** The overflow bucket is chosen exactly when no threshold matches; in
      particular an empty list yields 0 in either mode. */
  lemma OverflowIffNoMatch(breakpoints: seq<real>, value: real, opposite: bool)
    ensures Factor(breakpoints, value, opposite) == |breakpoints|
        <==> forall j :: 0 <= j < |breakpoints| ==> !Matches(breakpoints[j], value, opposite)
    ensures |breakpoints| == 0 ==> Factor(breakpoints, value, opposite) == 0
  {
  }

  /** Default mode: a larger value never lands in a later bucket. This holds
      for every list, sorted or not, since a threshold that the smaller value
      reaches is reached by the larger one too. */
  lemma DefaultModeAntitone(breakpoints: seq<real>, lo: real, hi: real)
    requires lo <= hi
    ensures Factor(breakpoints, hi) <= Factor(breakpoints, lo)
  {
  }

  /** Opposite mode: a larger value never lands in an earlier bucket. */
  lemma OppositeModeMonotone(breakpoints: seq<real>, lo: real, hi: real)
    requires lo <= hi
    ensures Factor(breakpoints, lo, true) <= Factor(breakpoints, hi, true)
  {
  }

  /** With strictly descending thresholds, default-mode bucket `i` is the
      half-open interval `[breakpoints[i], breakpoints[i-1])`, with no lower
      bound for the overflow bucket and no upper bound for bucket 0. */
  lemma DescendingBucketIsInterval(breakpoints: seq<real>, value: real, i: nat)
    requires StrictlyDescending(breakpoints)
    requires i <= |breakpoints|
    ensures Factor(breakpoints, value) == i
        <==> (i < |breakpoints| ==> value >= breakpoints[i]) && (0 < i ==> value < breakpoints[i - 1])
  {
  }

  /** With strictly ascending thresholds, opposite-mode bucket `i` is the
      half-open interval `[breakpoints[i-1], breakpoints[i])`. */
  lemma AscendingBucketIsInterval(breakpoints: seq<real>, value: real, i: nat)
    requires StrictlyAscending(breakpoints)
    requires i <= |breakpoints|
    ensures Factor(breakpoints, value, true) == i
        <==> (i < |breakpoints| ==> value < breakpoints[i]) && (0 < i ==> value >= breakpoints[i - 1])
  {
  }
}
