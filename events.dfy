/**
 * The values that cross the gateway's boundary: what the session service hands
 * back, what goes out on the wire, and the log of everything the gateway does
 * that another party can observe (emits, broadcasts, room joins and leaves) or
 * that orders those (arming and cancelling a question timer).
 */
module Events {
  import opened Js

  /** A question as the session service stores it; `rest` holds every other stored column. */
  datatype StoredQuestion = StoredQuestion(
    id: string, text: string, kind: string, choices: seq<string>,
    points: int, timeLimitSec: int, rest: map<string, string>)

  /** The question as broadcast in `question:started`: exactly these six fields. */
  datatype QuestionDto = QuestionDto(
    id: string, text: string, kind: string, choices: seq<string>,
    timeLimitSec: int, points: int)

  /** The `QuestionDto` the gateway builds from the stored question before broadcasting it. */
  function ToDto(q: StoredQuestion): QuestionDto
  {
    QuestionDto(q.id, q.text, q.kind, q.choices, q.timeLimitSec, q.points)
  }

  /** Nothing but the six broadcast fields reaches the room: other stored columns do not matter. */
  lemma ToDtoIgnoresRest(q: StoredQuestion, rest: map<string, string>)
    ensures ToDto(q.(rest := rest)) == ToDto(q)
    ensures ToDto(q).id == q.id && ToDto(q).text == q.text && ToDto(q).kind == q.kind
    ensures ToDto(q).choices == q.choices && ToDto(q).timeLimitSec == q.timeLimitSec && ToDto(q).points == q.points
  {
  }

  /** A leaderboard entry as handed to the scoreboard broadcast; `rest` holds its other fields. */
  datatype LeaderboardEntry = LeaderboardEntry(teamName: string, score: int, rank: int, rest: map<string, string>)

  /** A leaderboard row on the wire. */
  datatype ScoreRow = ScoreRow(teamName: string, score: int, rank: int)

  /** `leaderboard.map(team => ({teamName, score, rank}))`. */
  function ScoreboardRows(leaderboard: seq<LeaderboardEntry>): (rows: seq<ScoreRow>)
    ensures |rows| == |leaderboard|
    ensures forall i :: 0 <= i < |rows| ==>
              rows[i] == ScoreRow(leaderboard[i].teamName, leaderboard[i].score, leaderboard[i].rank)
  {
    if leaderboard == [] then []
    else
      var e := leaderboard[0];
      [ScoreRow(e.teamName, e.score, e.rank)] + ScoreboardRows(leaderboard[1..])
  }

  /** What `sessionsService.nextQuestion` resolves to; absent fields are None. */
  datatype NextResult = NextResult(
    finished: bool, currentQuestionIndex: Option<int>, totalQuestions: Option<int>,
    question: Option<StoredQuestion>, message: Option<string>)

  /** A thrown value: an `Error` with a message, or anything else. */
  datatype Thrown = ErrorObject(message: string) | NonError

  /** The outcome of awaiting a session-service call. */
  datatype Call<T> = Returned(value: T) | Threw(error: Thrown)

  /** `error instanceof Error ? error.message : fallback`. */
  function ErrorText(e: Thrown, fallback: string): string
  {
    match e
    case ErrorObject(msg) => msg
    case NonError => fallback
  }

  /** Who receives an emitted event: the calling socket only, or every member of a session's room. */
  datatype Scope = Caller(clientId: string) | Room(sessionCode: string)

  /** Outbound event payloads (timestamps are not modelled); `Error.text` is the wire field `message`. */
  datatype Body =
    | JoinSuccess(sessionCode: string)
    | QuestionCurrent(sessionCode: string, current: Option<StoredQuestion>)
    | SessionStarted(sessionCode: string)
    | SessionEnded(sessionCode: string)
    | QuestionStarted(sessionCode: string, questionIndex: int, question: QuestionDto)
    | TimeUp(sessionCode: string)
    | ScoreboardUpdated(sessionCode: string, leaderboard: seq<ScoreRow>)
    | NextQuestionAck(sessionCode: string, success: bool, finished: bool, message: Option<string>,
                      currentQuestionIndex: Option<int>, totalQuestions: Option<int>)
    | EndSessionAck(sessionCode: string, success: bool)
    | Error(text: string)

  /** One step of the gateway's observable history. */
  datatype Entry =
    | Send(to: Scope, body: Body)
    | JoinRoom(sessionCode: string, clientId: string)
    | LeaveRoom(clientId: string)
    | TimerArmed(sessionCode: string, handle: nat, delayMs: int)
    | TimerCancelled(sessionCode: string, handle: nat)
}
