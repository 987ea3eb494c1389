/** The replies the venue-insights endpoint can send. */
module Outcomes {

  /** One entry of `dailyData`: a day key and the number of connections on it. */
  datatype DayCount = DayCount(date: string, count: nat)

  /** The two ways the endpoint answers 500: the query reported an error, or an exception was caught. */
  datatype ServerFault = FetchFailed | Exception

  datatype Outcome =
    | Unauthorized
    | Forbidden
    | BadRequest
    | ServerError(fault: ServerFault)
    | InsufficientData(message: string)
    | Insights(
        totalConnections: nat,
        hourlyDistribution: seq<nat>,
        dailyData: seq<DayCount>,
        peakHour: nat,
        busiestDay: string)

  /** The k of the k-anonymity gate: fewer records than this disclose nothing. */
  const PrivacyThreshold: nat := 5

  /** The message sent with `status: 'insufficient_data'`. */
  const InsufficientMessage := "Insufficient Data: Less than 5 connections in the last 30 days."

  /** The HTTP status of each reply. */
  function StatusCode(o: Outcome): (code: int)
    ensures (code == 200) <==> (o.InsufficientData? || o.Insights?)
    ensures o.Unauthorized? || o.Forbidden? || o.BadRequest? <==> 400 <= code < 500
    ensures o.ServerError? <==> code == 500
    ensures o.Unauthorized? <==> code == 401
    ensures o.Forbidden? <==> code == 403
    ensures o.BadRequest? <==> code == 400
  {
    match o
    case Unauthorized => 401
    case Forbidden => 403
    case BadRequest => 400
    case ServerError(_) => 500
    case InsufficientData(_) => 200
    case Insights(_, _, _, _, _) => 200
  }
}
