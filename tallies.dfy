/**
 * The per-record pass of the venue-insights endpoint: choosing each record's
 * timestamp, turning it into an instant, and counting records per hour of
 * day and per calendar day (route.ts, lines 94-114).
 */
module Tallies {
  import opened Inputs
  import opened Outcomes

  // ---------------------------------------------------------------------
  // Counting

  /** The number of occurrences of x in s. */
  function Count<T(==)>(s: seq<T>, x: T): nat {
    if s == [] then 0 else Count(s[..|s| - 1], x) + (if s[|s| - 1] == x then 1 else 0)
  }

  lemma CountAppend<T>(s: seq<T>, y: T, x: T)
    ensures Count(s + [y], x) == Count(s, x) + (if y == x then 1 else 0)
  {
    assert (s + [y])[..|s|] == s;
  }

  lemma {:induction false} CountPositive<T>(s: seq<T>, x: T)
    ensures Count(s, x) > 0 <==> x in s
  {
    if s != [] {
      CountPositive(s[..|s| - 1], x);
      assert s == s[..|s| - 1] + [s[|s| - 1]];
    }
  }

  function Sum(s: seq<nat>): nat {
    if s == [] then 0 else Sum(s[..|s| - 1]) + s[|s| - 1]
  }

  lemma {:induction false} SumZero(s: seq<nat>)
    requires forall i :: 0 <= i < |s| ==> s[i] == 0
    ensures Sum(s) == 0
  {
    if s != [] {
      SumZero(s[..|s| - 1]);
    }
  }

  lemma {:induction false} SumBump(s: seq<nat>, k: nat)
    requires k < |s|
    ensures Sum(s[k := s[k] + 1]) == Sum(s) + 1
  {
    var t := s[k := s[k] + 1];
    if k == |s| - 1 {
      assert t[..|t| - 1] == s[..|s| - 1];
    } else {
      assert t[..|t| - 1] == s[..|s| - 1][k := s[k] + 1];
      SumBump(s[..|s| - 1], k);
    }
  }

  // ---------------------------------------------------------------------
  // Timestamps

  /** The timestamp a record is read by: `created_at` when truthy, otherwise `created`. */
  function Stamp(c: Connection): Option<string> {
    if Truthy(c.createdAt) then c.createdAt else c.created
  }

  /**
   * The instants of all records, in order, or None when some record's
   * timestamp makes an Invalid Date (whose `toISOString()` throws).
   */
  function Resolve(lib: DateLib, rows: seq<Connection>): (r: Option<seq<Instant>>)
    ensures r.Some? <==> forall i :: 0 <= i < |rows| ==> lib.parse(Stamp(rows[i])).Some?
    ensures r.Some? ==> |r.value| == |rows|
    ensures r.Some? ==> forall i :: 0 <= i < |rows| ==> lib.parse(Stamp(rows[i])) == Some(r.value[i])
  {
    if rows == [] then Some([])
    else
      match Resolve(lib, rows[..|rows| - 1])
      case None => None
      case Some(ts) =>
        match lib.parse(Stamp(rows[|rows| - 1]))
        case None => None
        case Some(t) => Some(ts + [t])
  }

  function HoursOf(lib: DateLib, ts: seq<Instant>): seq<Hour> {
    seq<Hour>(|ts|, i requires 0 <= i < |ts| => lib.hourOf(ts[i]))
  }

  function DayKeysOf(lib: DateLib, ts: seq<Instant>): seq<DayKey> {
    seq<DayKey>(|ts|, i requires 0 <= i < |ts| => lib.dayKeyOf(ts[i]))
  }

  // ---------------------------------------------------------------------
  // The hour histogram

  /** The 24 hour slots: slot h counts the hours equal to h. */
  function Histogram(hours: seq<Hour>): (hist: seq<nat>)
    ensures |hist| == 24
  {
    seq(24, h requires 0 <= h < 24 => Count<Hour>(hours, h))
  }

  /** One more record in hour h adds one to slot h and to no other. */
  lemma HistogramStep(hours: seq<Hour>, h: Hour)
    ensures Histogram(hours + [h]) == Histogram(hours)[h := Histogram(hours)[h] + 1]
  {
    forall g: Hour
      ensures Histogram(hours + [h])[g] == Histogram(hours)[h := Histogram(hours)[h] + 1][g]
    {
      CountAppend(hours, h, g);
    }
  }

  /** Every hour lands in exactly one slot, so the slots add up to the number of hours. */
  lemma {:induction false} HistogramSum(hours: seq<Hour>)
    ensures Sum(Histogram(hours)) == |hours|
  {
    if hours == [] {
      SumZero(Histogram(hours));
    } else {
      var p, h := hours[..|hours| - 1], hours[|hours| - 1];
      assert hours == p + [h];
      HistogramStep(p, h);
      HistogramSum(p);
      SumBump(Histogram(p), h);
    }
  }

  // ---------------------------------------------------------------------
  // The per-day counts

  /** The `dailyDistribution` object after counting keys in order. */
  function DayTally(keys: seq<string>): map<string, nat> {
    if keys == [] then map[]
    else
      var m := DayTally(keys[..|keys| - 1]);
      var k := keys[|keys| - 1];
      m[k := (if k in m then m[k] else 0) + 1]
  }

  /** The order in which a JavaScript object lists those keys: first insertion first. */
  function FirstSeen(keys: seq<string>): seq<string> {
    if keys == [] then []
    else
      var o := FirstSeen(keys[..|keys| - 1]);
      var k := keys[|keys| - 1];
      if k in o then o else o + [k]
  }

  /** The tally has exactly the keys seen, each mapped to its number of occurrences. */
  lemma {:induction false} DayTallyCounts(keys: seq<string>)
    ensures forall k :: k in DayTally(keys) <==> k in keys
    ensures forall k :: k in DayTally(keys) ==> DayTally(keys)[k] == Count(keys, k)
  {
    if keys != [] {
      var p, x := keys[..|keys| - 1], keys[|keys| - 1];
      assert keys == p + [x];
      DayTallyCounts(p);
      CountPositive(p, x);
      forall k ensures Count(keys, k) == Count(p, k) + (if x == k then 1 else 0) {
        CountAppend(p, x, k);
      }
    }
  }

  /** The insertion order lists every key seen, once. */
  lemma {:induction false} FirstSeenFacts(keys: seq<string>)
    ensures forall k :: k in FirstSeen(keys) <==> k in keys
    ensures forall i, j :: 0 <= i < j < |FirstSeen(keys)| ==> FirstSeen(keys)[i] != FirstSeen(keys)[j]
  {
    if keys != [] {
      var p := keys[..|keys| - 1];
      assert keys == p + [keys[|keys| - 1]];
      FirstSeenFacts(p);
    }
  }

  /** `Object.entries(m).map(([date, count]) => ({ date, count }))` for keys listed in `order`. */
  function Entries(m: map<string, nat>, order: seq<string>): seq<DayCount>
    requires forall i :: 0 <= i < |order| ==> order[i] in m
  {
    seq(|order|, i requires 0 <= i < |order| => DayCount(order[i], m[order[i]]))
  }

  function TotalCount(ds: seq<DayCount>): nat {
    if ds == [] then 0 else TotalCount(ds[..|ds| - 1]) + ds[|ds| - 1].count
  }

  lemma TotalAppend(ds: seq<DayCount>, d: DayCount)
    ensures TotalCount(ds + [d]) == TotalCount(ds) + d.count
  {
    assert (ds + [d])[..|ds|] == ds;
  }

  lemma {:induction false} TotalBump(ds: seq<DayCount>, k: nat)
    requires k < |ds|
    ensures TotalCount(ds[k := DayCount(ds[k].date, ds[k].count + 1)]) == TotalCount(ds) + 1
  {
    var t := ds[k := DayCount(ds[k].date, ds[k].count + 1)];
    if k == |ds| - 1 {
      assert t[..|t| - 1] == ds[..|ds| - 1];
    } else {
      assert t[..|t| - 1] == ds[..|ds| - 1][k := DayCount(ds[k].date, ds[k].count + 1)];
      TotalBump(ds[..|ds| - 1], k);
    }
  }

  /** Counting a key not seen before appends an entry with count one. */
  lemma EntriesNewKey(m: map<string, nat>, o: seq<string>, x: string)
    requires forall i :: 0 <= i < |o| ==> o[i] in m
    requires x !in o
    ensures Entries(m[x := 1], o + [x]) == Entries(m, o) + [DayCount(x, 1)]
  {
  }

  /** Counting a key seen before adds one to its entry and changes no other. */
  lemma EntriesOldKey(m: map<string, nat>, o: seq<string>, j: nat)
    requires forall i :: 0 <= i < |o| ==> o[i] in m
    requires forall i, k :: 0 <= i < k < |o| ==> o[i] != o[k]
    requires j < |o|
    ensures Entries(m[o[j] := m[o[j]] + 1], o) == Entries(m, o)[j := DayCount(o[j], m[o[j]] + 1)]
  {
  }

  /** Counting one more key: the map entry for it goes up by one, and a new key joins the order at the end. */
  lemma TallyStep(keys: seq<string>, x: string)
    ensures DayTally(keys + [x]) == DayTally(keys)[x := (if x in DayTally(keys) then DayTally(keys)[x] else 0) + 1]
    ensures FirstSeen(keys + [x]) == if x in DayTally(keys) then FirstSeen(keys) else FirstSeen(keys) + [x]
  {
    assert (keys + [x])[..|keys|] == keys;
    DayTallyCounts(keys);
    FirstSeenFacts(keys);
  }

  /** The insertion order lists exactly the keys of the tally. */
  lemma OrderListsTally(keys: seq<string>)
    ensures forall k :: k in FirstSeen(keys) <==> k in DayTally(keys)
  {
    DayTallyCounts(keys);
    FirstSeenFacts(keys);
  }

  /** Counting a key already listed keeps the order complete and adds one to the total. */
  lemma TotalOldKey(m: map<string, nat>, o: seq<string>, j: nat)
    requires forall i :: 0 <= i < |o| ==> o[i] in m
    requires forall i, k :: 0 <= i < k < |o| ==> o[i] != o[k]
    requires j < |o|
    ensures TotalCount(Entries(m[o[j] := m[o[j]] + 1], o)) == TotalCount(Entries(m, o)) + 1
  {
    EntriesOldKey(m, o, j);
    TotalBump(Entries(m, o), j);
  }

  /** Counting a new key appends it to the order and adds one to the total. */
  lemma TotalNewKey(m: map<string, nat>, o: seq<string>, x: string)
    requires forall i :: 0 <= i < |o| ==> o[i] in m
    requires x !in o
    ensures forall i :: 0 <= i < |o + [x]| ==> (o + [x])[i] in m[x := 1]
    ensures TotalCount(Entries(m[x := 1], o + [x])) == TotalCount(Entries(m, o)) + 1
  {
    EntriesNewKey(m, o, x);
    TotalAppend(Entries(m, o), DayCount(x, 1));
  }

  /** The day counts add up to the number of keys counted. */
  lemma {:induction false} DaySum(keys: seq<string>)
    ensures var m, o := DayTally(keys), FirstSeen(keys);
      && (forall i :: 0 <= i < |o| ==> o[i] in m)
      && TotalCount(Entries(m, o)) == |keys|
  {
    if keys != [] {
      var p, x := keys[..|keys| - 1], keys[|keys| - 1];
      DaySum(p);
      var m, o := DayTally(p), FirstSeen(p);
      if x in m {
        assert x in o by { OrderListsTally(p); }
        assert forall i, k :: 0 <= i < k < |o| ==> o[i] != o[k] by { FirstSeenFacts(p); }
        var j :| 0 <= j < |o| && o[j] == x;
        TotalOldKey(m, o, j);
      } else {
        assert x !in o by { OrderListsTally(p); }
        TotalNewKey(m, o, x);
      }
    }
  }

  /** The hour and the day key of one more instant extend the two sequences by one. */
  lemma ExtendOne(lib: DateLib, ts: seq<Instant>, t: Instant)
    ensures HoursOf(lib, ts + [t]) == HoursOf(lib, ts) + [lib.hourOf(t)]
    ensures DayKeysOf(lib, ts + [t]) == DayKeysOf(lib, ts) + [lib.dayKeyOf(t)]
  {
  }

  predicate DistinctDates(ds: seq<DayCount>) {
    forall i, j :: 0 <= i < j < |ds| ==> ds[i].date != ds[j].date
  }

  /**
   * The entries of the day tally in insertion order: one entry per distinct
   * key, whose count is the number of occurrences of that key.
   */
  function DailyEntries(keys: seq<string>): (es: seq<DayCount>)
    ensures forall i :: 0 <= i < |es| ==> es[i].date in keys && es[i].count == Count(keys, es[i].date)
    ensures forall k :: k in keys ==> exists i :: 0 <= i < |es| && es[i].date == k
    ensures DistinctDates(es)
    ensures TotalCount(es) == |keys|
  {
    DayTallyCounts(keys);
    FirstSeenFacts(keys);
    DaySum(keys);
    var es := Entries(DayTally(keys), FirstSeen(keys));
    assert forall k :: k in keys ==> exists i :: 0 <= i < |es| && es[i].date == k by {
      forall k | k in keys ensures exists i :: 0 <= i < |es| && es[i].date == k {
        var i :| 0 <= i < |FirstSeen(keys)| && FirstSeen(keys)[i] == k;
        assert es[i].date == k;
      }
    }
    es
  }

  // ---------------------------------------------------------------------
  // The record loop

  /** What one more record does to the hour histogram, the day tally and its key order. */
  lemma RecordStep(lib: DateLib, ts: seq<Instant>, t: Instant)
    ensures var h, hist := lib.hourOf(t), Histogram(HoursOf(lib, ts));
      Histogram(HoursOf(lib, ts + [t])) == hist[h := hist[h] + 1]
    ensures var k, m := lib.dayKeyOf(t), DayTally(DayKeysOf(lib, ts));
      && DayTally(DayKeysOf(lib, ts + [t])) == m[k := (if k in m then m[k] else 0) + 1]
      && FirstSeen(DayKeysOf(lib, ts + [t])) ==
           if k in m then FirstSeen(DayKeysOf(lib, ts)) else FirstSeen(DayKeysOf(lib, ts)) + [k]
  {
    ExtendOne(lib, ts, t);
    HistogramStep(HoursOf(lib, ts), lib.hourOf(t));
    TallyStep(DayKeysOf(lib, ts), lib.dayKeyOf(t));
  }

  /**
   * The `connections.forEach` pass: each record's hour slot is incremented
   * in place and its day key counted; an Invalid Date stops the pass
   * (`toISOString()` throws) and leaves nothing usable.
   */
  method TallyConnections(lib: DateLib, connections: seq<Connection>, hourly: array<nat>)
      returns (ok: bool, daily: map<string, nat>, order: seq<string>)
    requires hourly.Length == 24
    requires forall h :: 0 <= h < 24 ==> hourly[h] == 0
    modifies hourly
    ensures ok <==> Resolve(lib, connections).Some?
    ensures ok ==> var ts := Resolve(lib, connections).value;
      && hourly[..] == Histogram(HoursOf(lib, ts))
      && daily == DayTally(DayKeysOf(lib, ts))
      && order == FirstSeen(DayKeysOf(lib, ts))
  {
    ok, daily, order := true, map[], [];
    ghost var ts: seq<Instant> := [];
    assert hourly[..] == Histogram(HoursOf(lib, ts));
    var i := 0;
    while i < |connections|
      invariant 0 <= i <= |connections| && |ts| == i
      invariant forall j :: 0 <= j < i ==> lib.parse(Stamp(connections[j])) == Some(ts[j])
      invariant hourly[..] == Histogram(HoursOf(lib, ts))
      invariant daily == DayTally(DayKeysOf(lib, ts))
      invariant order == FirstSeen(DayKeysOf(lib, ts))
    {
      var date := lib.parse(Stamp(connections[i]));
      if date.None? {
        return false, daily, order;
      }
      var t := date.value;
      var hour := lib.hourOf(t);
      var dayKey := lib.dayKeyOf(t);
      RecordStep(lib, ts, t);
      hourly[hour] := hourly[hour] + 1;
      if dayKey !in daily {
        order := order + [dayKey];
      }
      daily := daily[dayKey := (if dayKey in daily then daily[dayKey] else 0) + 1];
      ts := ts + [t];
      i := i + 1;
    }
    assert Resolve(lib, connections).value == ts;
  }
}
