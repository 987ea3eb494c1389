/**
 * The `GET` handler of `/api/insights/venue` (route.ts, lines 5-134):
 * its reference definition `Respond`, the handler itself as `Get`, and what
 * the reply promises.
 */
module VenueInsights {
  import opened Inputs
  import opened Outcomes
  import opened Lex
  import opened Tallies
  import opened DayOrder
  import opened Peaks
  import opened Gate

  /** The reply and the table queries made to produce it. */
  datatype Reply = Reply(outcome: Outcome, queries: seq<Query>)

  // ---------------------------------------------------------------------
  // Reference definition

  /** The statistics for records that passed the privacy gate (lines 94-127). */
  function Summarize(lib: DateLib, connections: seq<Connection>): Outcome {
    match Resolve(lib, connections)
    case None => ServerError(Exception)
    case Some(ts) =>
      var hourly := Histogram(HoursOf(lib, ts));
      var days := DailyData(DayKeysOf(lib, ts));
      Insights(|connections|, hourly, days, PeakHour(hourly), BusiestDay(days))
  }

  /** `dailyData` as sent: the day entries sorted by date, then re-sorted by count in place. */
  function DailyData(keys: seq<DayKey>): seq<DayCount> {
    InsertionSort(InsertionSort(DailyEntries(keys), ByDate), ByCount)
  }

  /** The whole handler as a function of its collaborators' answers. */
  function Respond(req: Request, be: Backend, lib: DateLib): Reply {
    match Admit(req, be.auth, be.profileOf)
    case Refused(outcome, queries) => Reply(outcome, queries)
    case Admitted(user, venueId) =>
      var queries := [ProfileQuery(user.id), ConnectionsQuery(venueId)];
      match be.connectionsAt(venueId)
      case QueryFailed => Reply(ServerError(FetchFailed), queries)
      case Rows(connections) =>
        if |connections| < PrivacyThreshold then Reply(InsufficientData(InsufficientMessage), queries)
        else Reply(Summarize(lib, connections), queries)
  }

  // ---------------------------------------------------------------------
  // The handler

  /**
   * The response object of lines 121-128. It holds the very arrays the
   * handler goes on working with, and is read only when serialised.
   */
  class InsightsBody {
    const totalConnections: nat
    const hourlyDistribution: array<nat>
    const dailyData: array<DayCount>
    const peakHour: nat
    var busiestDay: string

    /** The properties before `busiestDay`, in source order; `busiestDay` is set once its expression is evaluated. */
    constructor (total: nat, hourly: array<nat>, daily: array<DayCount>, peak: nat)
      ensures totalConnections == total && hourlyDistribution == hourly
      ensures dailyData == daily && peakHour == peak && busiestDay == ""
    {
      totalConnections, hourlyDistribution, dailyData, peakHour := total, hourly, daily, peak;
      busiestDay := "";
    }

    /** What `NextResponse.json` sends: the arrays as they are when serialised. */
    function Json(): Outcome
      reads this, hourlyDistribution, dailyData
    {
      Insights(totalConnections, hourlyDistribution[..], dailyData[..], peakHour, busiestDay)
    }
  }

  /** The handler: the checks, the query and the privacy gate, then the aggregation. */
  method Get(req: Request, be: Backend, lib: DateLib) returns (reply: Reply)
    ensures reply == Respond(req, be, lib)
  {
    var admission := Admit(req, be.auth, be.profileOf);
    if admission.Refused? {
      return Reply(admission.outcome, admission.queries);
    }
    var user, venueId := admission.user, admission.venueId;
    var queries := [ProfileQuery(user.id), ConnectionsQuery(venueId)];
    var fetched := be.connectionsAt(venueId);
    if fetched.QueryFailed? {
      return Reply(ServerError(FetchFailed), queries);
    }
    var connections := fetched.rows;
    if |connections| < PrivacyThreshold {
      return Reply(InsufficientData(InsufficientMessage), queries);
    }
    var outcome := Aggregate(lib, connections);
    reply := Reply(outcome, queries);
  }

  /**
   * Lines 94-128: the hour array is zeroed and filled in place with the day
   * tally, and the response is built from them.
   */
  method Aggregate(lib: DateLib, connections: seq<Connection>) returns (outcome: Outcome)
    ensures outcome == Summarize(lib, connections)
  {
    var hourlyDistribution := new nat[24](_ => 0);
    var ok, dailyDistribution, keyOrder := TallyConnections(lib, connections, hourlyDistribution);
    if !ok {
      return ServerError(Exception);
    }
    ghost var ts := Resolve(lib, connections).value;
    outcome := Publish(|connections|, hourlyDistribution, dailyDistribution, keyOrder, DayKeysOf(lib, ts));
  }

  /**
   * Lines 113-128 once the tallies are filled: `dailyData` is built and
   * sorted by date, placed in the response with the hour array, and then
   * sorted by count in place while `busiestDay` is computed, so the response
   * sends the count order and the busiest day is the first entry of it.
   */
  method Publish(total: nat, hourlyDistribution: array<nat>, daily: map<string, nat>, order: seq<string>,
                 ghost keys: seq<DayKey>)
      returns (outcome: Outcome)
    requires hourlyDistribution.Length == 24
    requires daily == DayTally(keys) && order == FirstSeen(keys)
    ensures outcome == Insights(total, hourlyDistribution[..], DailyData(keys),
      PeakHour(hourlyDistribution[..]), BusiestDay(DailyData(keys)))
  {
    var dailyData := EntryArray(daily, order, keys);
    SortInPlace(dailyData, ByDate);
    var peakHour := PeakHour(hourlyDistribution[..]);
    var body := new InsightsBody(total, hourlyDistribution, dailyData, peakHour);
    // `dailyData.sort(...)` inside the literal re-sorts the array the body already holds.
    SortInPlace(dailyData, ByCount);
    body.busiestDay := BusiestDay(dailyData[..]);
    outcome := body.Json();
  }

  /** `Object.entries(dailyDistribution).map(...)` as a fresh array. */
  method EntryArray(daily: map<string, nat>, order: seq<string>, ghost keys: seq<DayKey>)
      returns (a: array<DayCount>)
    requires daily == DayTally(keys) && order == FirstSeen(keys)
    ensures fresh(a) && a[..] == DailyEntries(keys)
  {
    DayTallyCounts(keys);
    FirstSeenFacts(keys);
    var entries := Entries(daily, order);
    a := new DayCount[|entries|](i requires 0 <= i < |entries| => entries[i]);
  }

  // ---------------------------------------------------------------------
  // The checks and their order

  /** An auth error or a missing user gives 401 before any table is queried; nothing else gives 401. */
  lemma UnauthorizedFirst(req: Request, be: Backend, lib: DateLib)
    ensures SignedIn(be.auth).None? ==> Respond(req, be, lib) == Reply(Unauthorized, [])
    ensures Respond(req, be, lib).outcome.Unauthorized? ==> SignedIn(be.auth).None?
  {
  }

  /** A signed-in user whose profile lookup fails or whose role is not `verified_business` gets 403 after the one profile query. */
  lemma ForbiddenSecond(req: Request, be: Backend, lib: DateLib)
    requires SignedIn(be.auth).Some?
    ensures var user := SignedIn(be.auth).value;
      && (!Privileged(be.profileOf(user.id)) ==> Respond(req, be, lib) == Reply(Forbidden, [ProfileQuery(user.id)]))
      && (Respond(req, be, lib).outcome.Forbidden? ==> !Privileged(be.profileOf(user.id)))
      && Respond(req, be, lib).queries[0] == ProfileQuery(user.id)
  {
  }

  /**
   * For a privileged user, 400 exactly when neither the parameter nor the
   * metadata names a venue, and then no connection query is made; otherwise
   * the connections of the resolved venue are queried.
   */
  lemma VenueResolution(req: Request, be: Backend, lib: DateLib)
    requires SignedIn(be.auth).Some? && Privileged(be.profileOf(SignedIn(be.auth).value.id))
    ensures var user := SignedIn(be.auth).value;
      var venue := ResolveVenue(req.venueParam, user.venueMetadata);
      && (Respond(req, be, lib).outcome.BadRequest? <==> !Truthy(req.venueParam) && !Truthy(user.venueMetadata))
      && (venue.None? ==> Respond(req, be, lib).queries == [ProfileQuery(user.id)])
      && (venue.Some? ==> Respond(req, be, lib).queries == [ProfileQuery(user.id), ConnectionsQuery(venue.value)])
  {
  }

  /**
   * After the venue is known: a query error gives 500, fewer than five
   * records give `insufficient_data`, and five or more are summarised.
   */
  lemma FetchAndPrivacyGate(req: Request, be: Backend, lib: DateLib)
    requires Admit(req, be.auth, be.profileOf).Admitted?
    ensures var out := Respond(req, be, lib).outcome;
      match be.connectionsAt(Admit(req, be.auth, be.profileOf).venueId)
      case QueryFailed => out == ServerError(FetchFailed)
      case Rows(connections) =>
        && (|connections| < PrivacyThreshold ==> out == InsufficientData(InsufficientMessage))
        && (|connections| >= PrivacyThreshold ==> out == Summarize(lib, connections))
  {
  }

  /**
   * Statistics leave the endpoint only for an admitted request whose query
   * returned at least five records, and they count all of them; the
   * `insufficient_data` reply is given exactly below five.
   */
  lemma PrivacyGate(req: Request, be: Backend, lib: DateLib)
    ensures var out := Respond(req, be, lib).outcome;
      var a := Admit(req, be.auth, be.profileOf);
      (out.InsufficientData? || out.Insights?) ==>
        && a.Admitted?
        && be.connectionsAt(a.venueId).Rows?
        && (out.InsufficientData? <==> |be.connectionsAt(a.venueId).rows| < PrivacyThreshold)
        && (out.InsufficientData? ==> out.message == InsufficientMessage)
        && (out.Insights? ==> out.totalConnections == |be.connectionsAt(a.venueId).rows| >= PrivacyThreshold)
  {
  }

  /** A record whose timestamp is an Invalid Date turns the whole reply into 500, with no statistics. */
  lemma TimestampFailure(lib: DateLib, connections: seq<Connection>)
    ensures Summarize(lib, connections).Insights? || Summarize(lib, connections) == ServerError(Exception)
    ensures Summarize(lib, connections).ServerError? <==>
      exists i :: 0 <= i < |connections| && lib.parse(Stamp(connections[i])).None?
  {
  }

  // ---------------------------------------------------------------------
  // The statistics

  /**
   * 24 hour slots; slot h counts the records whose local hour is h, and the
   * slots add up to `totalConnections`, the number of records.
   */
  lemma HourlyFacts(lib: DateLib, connections: seq<Connection>, ts: seq<Instant>)
    requires Resolve(lib, connections) == Some(ts)
    ensures var out := Summarize(lib, connections);
      && out.Insights?
      && out.totalConnections == |connections| == |ts|
      && |out.hourlyDistribution| == 24
      && (forall h: Hour :: out.hourlyDistribution[h] == Count(HoursOf(lib, ts), h))
      && Sum(out.hourlyDistribution) == out.totalConnections
  {
    var hours := HoursOf(lib, ts);
    HistogramSum(hours);
    forall h: Hour ensures Histogram(hours)[h] == Count(hours, h) {
    }
  }

  /** The peak hour is an hour slot holding the largest count, and the first such slot. */
  lemma PeakFacts(lib: DateLib, connections: seq<Connection>, ts: seq<Instant>)
    requires Resolve(lib, connections) == Some(ts)
    ensures var out := Summarize(lib, connections);
      var hist := out.hourlyDistribution;
      && out.Insights?
      && 0 <= out.peakHour < 24 == |hist|
      && (forall h :: 0 <= h < 24 ==> hist[h] <= hist[out.peakHour])
      && (forall h :: 0 <= h < out.peakHour ==> hist[h] < hist[out.peakHour])
  {
  }

  /** The returned list is ordered by count descending, ties by date ascending. */
  lemma DailyOrder(lib: DateLib, connections: seq<Connection>, ts: seq<Instant>)
    requires Resolve(lib, connections) == Some(ts)
    ensures Summarize(lib, connections).Insights? && Ranked(Summarize(lib, connections).dailyData)
  {
    DailyRanked(DayKeysOf(lib, ts));
  }

  /** The returned entries are the day entries, reordered. */
  lemma DailyPermutes(keys: seq<DayKey>)
    ensures multiset(DailyData(keys)) == multiset(DailyEntries(keys))
    ensures TotalCount(DailyData(keys)) == |keys|
  {
    var entries := DailyEntries(keys);
    SortPermutes(entries, ByDate);
    SortPermutes(InsertionSort(entries, ByDate), ByCount);
  }

  /** Each returned entry is a day that has records, with its number of records. */
  lemma DailyMembers(keys: seq<DayKey>)
    ensures var days := DailyData(keys);
      forall i :: 0 <= i < |days| ==> days[i].date in keys && days[i].count == Count(keys, days[i].date) >= 1
  {
    var days := DailyData(keys);
    DailyPermutes(keys);
    forall i | 0 <= i < |days|
      ensures days[i].date in keys && days[i].count == Count(keys, days[i].date) >= 1
    {
      assert days[i] in multiset(DailyEntries(keys));
      CountPositive(keys, days[i].date);
    }
  }

  /** Every day that has records has an entry. */
  lemma DailyCovers(keys: seq<DayKey>)
    ensures var days := DailyData(keys);
      forall j :: 0 <= j < |keys| ==> exists i :: 0 <= i < |days| && days[i].date == keys[j]
  {
    var days := DailyData(keys);
    var entries := DailyEntries(keys);
    DailyPermutes(keys);
    forall j | 0 <= j < |keys| ensures exists i :: 0 <= i < |days| && days[i].date == keys[j] {
      assert keys[j] in keys;
      var e :| 0 <= e < |entries| && entries[e].date == keys[j];
      assert entries[e] in multiset(days);
      var i :| 0 <= i < |days| && days[i] == entries[e];
    }
  }

  /** The returned list is the sorted-by-date list stably re-sorted by count: counts descending, ties by date. */
  lemma DailyRanked(keys: seq<DayKey>)
    ensures Ranked(DailyData(keys))
  {
    var entries := DailyEntries(keys);
    DateSortAscends(entries);
    CountSortRanks(InsertionSort(entries, ByDate));
  }

  /**
   * One entry per day that has records, no day twice; each count is the
   * number of records on that day (so at least one), and the counts add up
   * to `totalConnections`.
   */
  lemma DailyFacts(lib: DateLib, connections: seq<Connection>, ts: seq<Instant>)
    requires Resolve(lib, connections) == Some(ts)
    ensures var out := Summarize(lib, connections);
      var keys := DayKeysOf(lib, ts);
      var days := out.dailyData;
      && out.Insights?
      && (forall i :: 0 <= i < |days| ==>
            days[i].date in keys && days[i].count == Count(keys, days[i].date) >= 1)
      && (forall j :: 0 <= j < |keys| ==> exists i :: 0 <= i < |days| && days[i].date == keys[j])
      && DistinctDates(days)
      && TotalCount(days) == out.totalConnections
  {
    var keys := DayKeysOf(lib, ts);
    var days := DailyData(keys);
    DailyPermutes(keys);
    DailyMembers(keys);
    DailyCovers(keys);
    DailyRanked(keys);
    forall i, j | 0 <= i < j < |days| ensures days[i].date != days[j].date {
      if days[i].date == days[j].date {
        LexIrreflexive(days[i].date);
      }
    }
  }

  /**
   * The busiest day is the first entry of the returned list: a day with the
   * largest count, the earliest among days that share it; it is a real day
   * key, never "N/A".
   */
  lemma BusiestFacts(lib: DateLib, connections: seq<Connection>, ts: seq<Instant>)
    requires Resolve(lib, connections) == Some(ts)
    requires |connections| >= PrivacyThreshold
    ensures var out := Summarize(lib, connections);
      var days := out.dailyData;
      && out.Insights?
      && |days| > 0
      && out.busiestDay == days[0].date
      && IsDayKey(out.busiestDay) && out.busiestDay != "N/A"
      && (forall i :: 0 <= i < |days| ==> days[i].count <= days[0].count)
      && (forall i :: 0 < i < |days| && days[i].count == days[0].count ==> LexLess(out.busiestDay, days[i].date))
  {
    var keys := DayKeysOf(lib, ts);
    var days := DailyData(keys);
    assert |days| > 0 by {
      DailyCovers(keys);
      assert exists i :: 0 <= i < |days| && days[i].date == keys[0];
    }
    assert days[0].date in keys by { DailyMembers(keys); }
    var k :| 0 <= k < |keys| && keys[k] == days[0].date;
    assert IsDayKey(keys[k]);
    DailyRanked(keys);
  }

  /**
   * The list sent is not in date order as soon as a later day has more
   * records than an earlier one: the busier, later day is listed first.
   */
  lemma SentNotByDate(keys: seq<DayKey>, early: DayKey, late: DayKey)
    requires early in keys && late in keys
    requires LexLess(early, late) && Count<string>(keys, early) < Count<string>(keys, late)
    ensures !StrictlyByDate(DailyData(keys))
  {
    var days := DailyData(keys);
    DailyMembers(keys);
    DailyCovers(keys);
    DailyRanked(keys);
    var e :| 0 <= e < |keys| && keys[e] == early;
    var l :| 0 <= l < |keys| && keys[l] == late;
    var i :| 0 <= i < |days| && days[i].date == keys[e];
    var j :| 0 <= j < |days| && days[j].date == keys[l];
    if StrictlyByDate(days) {
      if i == j {
        LexIrreflexive(early);
      } else if j < i {
        LexAsymmetric(early, late);
      }
    }
  }
}
