/** The two summary fields: the peak hour (route.ts, lines 118-119) and the busiest day (line 127). */
module Peaks {
  import opened Outcomes

  /** `Math.max(...s)`. */
  function MaxOf(s: seq<nat>): (m: nat)
    requires |s| > 0
    ensures m in s
    ensures forall i :: 0 <= i < |s| ==> s[i] <= m
  {
    if |s| == 1 then s[0]
    else
      var m := MaxOf(s[..|s| - 1]);
      if s[|s| - 1] > m then s[|s| - 1] else m
  }

  /** `s.indexOf(x)`: the first index holding x, or -1. */
  function IndexOf(s: seq<nat>, x: nat): (k: int)
    ensures -1 <= k < |s|
    ensures k == -1 <==> x !in s
    ensures k >= 0 ==> s[k] == x && forall j :: 0 <= j < k ==> s[j] != x
  {
    if s == [] then -1
    else if s[0] == x then 0
    else
      var k := IndexOf(s[1..], x);
      if k == -1 then -1 else k + 1
  }

  /** The hour reported as the peak: the first slot holding the largest count. */
  function PeakHour(hist: seq<nat>): (p: nat)
    requires |hist| > 0
    ensures p < |hist|
    ensures forall h :: 0 <= h < |hist| ==> hist[h] <= hist[p]
    ensures forall h :: 0 <= h < p ==> hist[h] < hist[p]
  {
    IndexOf(hist, MaxOf(hist))
  }

  /** `days[0]?.date || "N/A"`: the first entry's date, unless there is none or it is empty. */
  function BusiestDay(days: seq<DayCount>): string {
    if |days| > 0 && days[0].date != "" then days[0].date else "N/A"
  }
}
