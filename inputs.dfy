/**
 * What the venue-insights endpoint receives from its collaborators: the
 * identity service, the `users` and `connections` tables, the request's
 * query string, and the JavaScript `Date` operations it applies to stored
 * timestamps. Every collaborator is an input value, so the endpoint is a
 * deterministic function of them.
 */
module Inputs {

  datatype Option<T> = None | Some(value: T)

  /** JavaScript truthiness of a nullable string: `null` and `""` are falsy. */
  predicate Truthy(v: Option<string>) {
    v.Some? && v.value != ""
  }

  /** The signed-in user: its id and its `user_metadata.venue_id`. */
  datatype User = User(id: string, venueMetadata: Option<string>)

  /** The reply of `auth.getUser()`: whether it reported an error, and the user if any. */
  datatype AuthReply = AuthReply(failed: bool, user: Option<User>)

  /** The reply of the `users` role lookup (`.single()`): an error flag and the `role` column. */
  datatype ProfileReply = ProfileReply(failed: bool, role: Option<string>)

  /** A row of the `connections` table, reduced to its two timestamp columns. */
  datatype Connection = Connection(createdAt: Option<string>, created: Option<string>)

  /** The reply of the `connections` query for one venue. */
  datatype QueryReply = QueryFailed | Rows(rows: seq<Connection>)

  /**
   * The hosted backend as seen by one request: the session's auth reply,
   * the role lookup by user id and the connection query by venue id.
   */
  datatype Backend = Backend(
    auth: AuthReply,
    profileOf: string -> ProfileReply,
    connectionsAt: string -> QueryReply)

  /** The request, reduced to its `venue_id` query parameter (`searchParams.get`). */
  datatype Request = Request(venueParam: Option<string>)

  /** The time value of a valid JavaScript `Date`: milliseconds since the epoch. */
  type Instant = int

  /** An hour of the day, as `Date.getHours()` returns it. */
  type Hour = h: int | 0 <= h < 24

  predicate IsDigit(c: char) {
    '0' <= c <= '9'
  }

  /** The calendar-day prefix `YYYY-MM-DD` of an ISO-8601 timestamp. */
  predicate IsDayKey(s: string) {
    && |s| == 10
    && s[4] == '-' && s[7] == '-'
    && forall i :: 0 <= i < 10 && i != 4 && i != 7 ==> IsDigit(s[i])
  }

  type DayKey = s: string | IsDayKey(s) witness "1970-01-01"

  /**
   * The date operations the endpoint uses, left abstract:
   * `parse` is `new Date(v)` (None for an Invalid Date), `hourOf` is the
   * local-time `getHours()`, and `dayKeyOf` is the UTC day that
   * `toISOString().split('T')[0]` yields.
   */
  datatype DateLib = DateLib(
    parse: Option<string> -> Option<Instant>,
    hourOf: Instant -> Hour,
    dayKeyOf: Instant -> DayKey)
}
