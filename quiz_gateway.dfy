/**
 * `QuizGateway`: connection-time authentication, the per-session question-timer
 * table and the protocol handlers that drive a live quiz session.
 *
 * The gateway's observable history is one log of entries: events emitted to the
 * caller or broadcast to a session's room, room joins and leaves, and the arming
 * and cancelling of question timers. Each handler runs as one atomic step; the
 * session service's answer is a parameter. A timer's expiry is the explicit step
 * `Fire`, enabled only for the handle currently stored for its session code.
 */
module QuizGateway {
  import opened Js
  import opened Credentials
  import opened Sockets
  import opened Events
  import WebsocketAuthGuard

  const SessionCodeRequired: string := "Session code is required"
  const InvalidQuestionData: string := "Invalid question data"
  const GetCurrentFallback: string := "Failed to get current question"
  const AdvanceFallback: string := "Failed to advance question"

  /** The delay handed to `setTimeout` for a question: its time limit in milliseconds. */
  function DelayMs(timeLimitSec: int): int
  {
    timeLimitSec * 1000
  }

  /** An event emitted to the calling socket only. */
  function Reply(client: Socket, b: Body): Entry
  {
    Send(Caller(client.id), b)
  }

  // ---------------------------------------------------------------------------
  // Connection-time authentication
  // ---------------------------------------------------------------------------

  /** Whether a connection stays open, and with which identity. */
  datatype Admission = Refused | Admitted(teamId: Option<string>)

  /**
   * The decision `handleConnection` takes for a handshake: no token, or a token both
   * secrets reject, closes the connection; otherwise the first secret that accepts
   * (admin before team) supplies the claims, and the identity is `teamId || adminId`
   * whichever secret matched.
   */
  function ConnectDecision(authToken: Option<string>, authorization: Option<string>, verify: Verifier): (d: Decision<Admission>)
    ensures var t := ExtractToken(authToken, authorization);
      (!Truthy(t) ==> d == Decision([], Refused)) &&
      (Truthy(t) ==> |d.tried| > 0 && d.tried[0] == AdminSecret && (TeamSecret in d.tried <==> verify(t.value, AdminSecret).None?)) &&
      (d.outcome.Refused? <==>
         !Truthy(t) || (verify(t.value, AdminSecret).None? && verify(t.value, TeamSecret).None?)) &&
      (Truthy(t) && verify(t.value, AdminSecret).Some? ==>
         d.outcome == Admitted(Or(verify(t.value, AdminSecret).value.teamId, verify(t.value, AdminSecret).value.adminId))) &&
      (Truthy(t) && verify(t.value, AdminSecret).None? && verify(t.value, TeamSecret).Some? ==>
         d.outcome == Admitted(Or(verify(t.value, TeamSecret).value.teamId, verify(t.value, TeamSecret).value.adminId)))
  {
    var t := ExtractToken(authToken, authorization);
    if !Truthy(t) then Decision([], Refused)
    else
      var m := Cascade(t.value, verify);
      Decision(Tried(m), if m.NoMatch? then Refused else Admitted(Or(m.claims.teamId, m.claims.adminId)))
  }

  /**
   * The guard and the connection-time check agree on everything but one identity:
   * they consult the same secrets in the same order and accept the same handshakes;
   * their identities differ only when the team secret matched and the claims' `teamId`
   * is falsy, where the connection falls back to `adminId` and the guard does not.
   */
  lemma GuardAgreesWithConnect(authToken: Option<string>, authorization: Option<string>, verify: Verifier)
    ensures var c := ConnectDecision(authToken, authorization, verify);
      var g := WebsocketAuthGuard.GuardDecision(authToken, authorization, verify);
      var t := ExtractToken(authToken, authorization);
      c.tried == g.tried &&
      (c.outcome.Refused? <==> g.outcome.Deny?) &&
      (c.outcome.Admitted? && g.outcome.Allow? && c.outcome.teamId != g.outcome.teamId ==>
         Truthy(t) && verify(t.value, AdminSecret).None? && verify(t.value, TeamSecret).Some? &&
         !Truthy(verify(t.value, TeamSecret).value.teamId) &&
         c.outcome.teamId == verify(t.value, TeamSecret).value.adminId && g.outcome.teamId == verify(t.value, TeamSecret).value.teamId)
  {
  }

  /** The two identities really differ: a team token carrying only `adminId`. */
  lemma IdentitiesDifferForTeamTokenWithoutTeamId()
    ensures var v: Verifier := (tok, s) => if s == TeamSecret then Some(Claims(None, Some("a1"))) else None;
      ConnectDecision(Some("tok"), None, v).outcome == Admitted(Some("a1")) &&
      WebsocketAuthGuard.GuardDecision(Some("tok"), None, v).outcome == WebsocketAuthGuard.Allow(None)
  {
  }

  // ---------------------------------------------------------------------------
  // Handles and tables
  // ---------------------------------------------------------------------------

  /** The handles `0 .. n - 1`. */
  ghost function Below(n: nat): (s: set<nat>)
    ensures forall h :: h in s ==> h < n
  {
    if n == 0 then {} else Below(n - 1) + {n - 1}
  }

  /** No two keys share a handle. */
  ghost predicate Injective(m: map<string, nat>)
  {
    forall a, b :: a in m && b in m && m[a] == m[b] ==> a == b
  }

  /** Removing an entry of an injective table removes exactly that entry's handle. */
  lemma ValuesRemove(m: map<string, nat>, k: string)
    requires k in m && Injective(m)
    ensures Injective(m - {k})
    ensures (m - {k}).Values == m.Values - {m[k]}
  {
    forall x
      ensures x in (m - {k}).Values <==> x in m.Values - {m[k]}
    {
      if x in (m - {k}).Values {
        var a :| a in m - {k} && (m - {k})[a] == x;
        assert a in m && m[a] == x;
      }
      if x in m.Values - {m[k]} {
        var a :| a in m && m[a] == x;
        assert a != k && (m - {k})[a] == x;
      }
    }
  }

  /** Adding a new key with a handle not yet stored keeps the table injective and adds that handle. */
  lemma ValuesAdd(m: map<string, nat>, k: string, v: nat)
    requires k !in m && v !in m.Values && Injective(m)
    ensures Injective(m[k := v])
    ensures m[k := v].Values == m.Values + {v}
  {
    forall x
      ensures x in m[k := v].Values <==> x in m.Values + {v}
    {
      if x in m[k := v].Values {
        var a :| a in m[k := v] && m[k := v][a] == x;
        if a != k { assert m[a] == x; }
      }
      if x in m.Values {
        var a :| a in m && m[a] == x;
        assert m[k := v][a] == x;
      }
      assert m[k := v][k] == v;
    }
  }

  // ---------------------------------------------------------------------------
  // The gateway object
  // ---------------------------------------------------------------------------

  class Gateway {
    /** `sessionTimers`: the live timer handle of each session code. */
    var timers: map<string, nat>
    /** The next handle `setTimeout` will return; every handle below it has been issued. */
    var nextHandle: nat
    /** Handles passed to `clearTimeout`. */
    var cancelled: set<nat>
    /** Handles whose callback has run. */
    var fired: set<nat>
    /** Everything the gateway has done that others can observe, in order. */
    var log: seq<Entry>

    /** The handles currently stored in the table. */
    ghost function Live(): set<nat>
      reads this`timers
    {
      timers.Values
    }

    /** Every handle issued so far. */
    ghost function Issued(): set<nat>
      reads this`nextHandle
    {
      Below(nextHandle)
    }

    /**
     * The timer life cycle: each issued handle is in exactly one of the states
     * armed (stored for one session code), cancelled or fired; no two sessions
     * share a handle.
     */
    ghost predicate Valid()
      reads this`timers, this`nextHandle, this`cancelled, this`fired
    {
      Injective(timers) &&
      Live() + cancelled + fired == Issued() &&
      Live() !! cancelled && Live() !! fired && cancelled !! fired
    }

    /** Handle `h` is the current timer of `code`: only then may it fire. */
    predicate Armed(code: string, h: nat)
      reads this`timers
    {
      code in timers && timers[code] == h
    }

    /** The handle stored for `code`, as a set of at most one element. */
    function HandleOf(code: string): set<nat>
      reads this`timers
    {
      if code in timers then {timers[code]} else {}
    }

    /** The log entry clearing `code`'s timer produces: one cancellation, or nothing when none is armed. */
    function CancelTrace(code: string): seq<Entry>
      reads this`timers
    {
      if code in timers then [TimerCancelled(code, timers[code])] else []
    }

    /** The table after clearing `code`: its entry gone, its handle cancelled, nothing else touched. */
    twostate predicate Cleared(code: string)
      reads this
    {
      timers == old(timers) - {code} && nextHandle == old(nextHandle) &&
      cancelled == old(cancelled) + old(HandleOf(code)) && fired == old(fired)
    }

    /** The table after restarting `code`'s timer: the old handle cancelled, a fresh one stored, other sessions untouched. */
    twostate predicate Restarted(code: string)
      reads this
    {
      timers == old(timers)[code := old(nextHandle)] && nextHandle == old(nextHandle) + 1 &&
      cancelled == old(cancelled) + old(HandleOf(code)) && fired == old(fired)
    }

    /** The timer table did not change. */
    twostate predicate TimersUnchanged()
      reads this
    {
      timers == old(timers) && nextHandle == old(nextHandle) &&
      cancelled == old(cancelled) && fired == old(fired)
    }

    constructor ()
      ensures Valid()
      ensures timers == map[] && nextHandle == 0 && cancelled == {} && fired == {} && log == []
    {
      timers := map[];
      nextHandle := 0;
      cancelled := {};
      fired := {};
      log := [];
    }

    // ---- timer table --------------------------------------------------------

    /** `clearQuestionTimer`: cancels and removes `code`'s timer if it has one; otherwise does nothing. */
    method ClearQuestionTimer(code: string)
      requires Valid()
      modifies this
      ensures Valid()
      ensures Cleared(code)
      ensures log == old(log) + old(CancelTrace(code))
    {
      if code in timers {
        var h := timers[code];
        ValuesRemove(timers, code);
        cancelled := cancelled + {h};
        timers := timers - {code};
        log := log + [TimerCancelled(code, h)];
      }
    }

    /**
     * `startQuestionTimer`: clears `code`'s previous timer, then stores a freshly
     * issued handle whose callback is scheduled `timeLimitSec * 1000` ms ahead.
     */
    method StartQuestionTimer(code: string, timeLimitSec: int)
      requires Valid()
      modifies this
      ensures Valid()
      ensures Restarted(code)
      ensures log == old(log) + old(CancelTrace(code)) + [TimerArmed(code, old(nextHandle), DelayMs(timeLimitSec))]
    {
      ClearQuestionTimer(code);
      var h := nextHandle;
      ValuesAdd(timers, code, h);
      nextHandle := nextHandle + 1;
      timers := timers[code := h];
      log := log + [TimerArmed(code, h, DelayMs(timeLimitSec))];
    }

    /**
     * The timer callback of `code`, for the handle currently stored: broadcasts
     * `time:up` to the session's room, then deletes the session's entry.
     */
    method Fire(code: string, h: nat)
      requires Valid() && Armed(code, h)
      modifies this
      ensures Valid()
      ensures timers == old(timers) - {code} && fired == old(fired) + {h}
      ensures nextHandle == old(nextHandle) && cancelled == old(cancelled)
      ensures log == old(log) + [Send(Room(code), TimeUp(code))]
    {
      log := log + [Send(Room(code), TimeUp(code))];
      ValuesRemove(timers, code);
      timers := timers - {code};
      fired := fired + {h};
    }

    // ---- broadcasts ---------------------------------------------------------

    /** `broadcastSessionStarted`. */
    method BroadcastSessionStarted(code: string)
      modifies this`log
      ensures log == old(log) + [Send(Room(code), SessionStarted(code))]
    {
      log := log + [Send(Room(code), SessionStarted(code))];
    }

    /** `broadcastSessionEnded`: broadcasts `session:ended` to the room, then clears the session's timer. */
    method BroadcastSessionEnded(code: string)
      requires Valid()
      modifies this
      ensures Valid()
      ensures Cleared(code)
      ensures log == old(log) + [Send(Room(code), SessionEnded(code))] + old(CancelTrace(code))
    {
      log := log + [Send(Room(code), SessionEnded(code))];
      ClearQuestionTimer(code);
    }

    /** `broadcastQuestionStarted`: broadcasts the question to the room, then restarts the session's timer for its time limit. */
    method BroadcastQuestionStarted(code: string, questionIndex: int, question: QuestionDto)
      requires Valid()
      modifies this
      ensures Valid()
      ensures Restarted(code)
      ensures log == old(log) + [Send(Room(code), QuestionStarted(code, questionIndex, question))]
                     + old(CancelTrace(code)) + [TimerArmed(code, old(nextHandle), DelayMs(question.timeLimitSec))]
    {
      log := log + [Send(Room(code), QuestionStarted(code, questionIndex, question))];
      StartQuestionTimer(code, question.timeLimitSec);
    }

    /** `broadcastScoreboardUpdated`: the leaderboard projected to `{teamName, score, rank}` rows. */
    method BroadcastScoreboardUpdated(code: string, leaderboard: seq<LeaderboardEntry>)
      modifies this`log
      ensures log == old(log) + [Send(Room(code), ScoreboardUpdated(code, ScoreboardRows(leaderboard)))]
    {
      log := log + [Send(Room(code), ScoreboardUpdated(code, ScoreboardRows(leaderboard)))];
    }

    // ---- connection life cycle ------------------------------------------------

    /**
     * `handleConnection`: extracts the token, tries the admin secret and then the team
     * secret, and either closes the connection or records the identity on the socket.
     * `attempts` records, in order, the secret of every verification call made.
     */
    method HandleConnection(client: Socket, verify: Verifier) returns (ghost attempts: seq<Secret>)
      modifies client
      ensures var d := ConnectDecision(client.authToken, client.authorization, verify);
        attempts == d.tried &&
        (d.outcome.Refused? ==> !client.connected && client.teamId == old(client.teamId)) &&
        (d.outcome.Admitted? ==> client.connected == old(client.connected) && client.teamId == d.outcome.teamId)
    {
      attempts := [];
      var token := ExtractToken(client.authToken, client.authorization);
      if !Truthy(token) {
        client.Disconnect();
        return;
      }
      var payload := verify(token.value, AdminSecret);
      attempts := attempts + [AdminSecret];
      if payload.None? {
        payload := verify(token.value, TeamSecret);
        attempts := attempts + [TeamSecret];
      }
      if payload.None? {
        client.Disconnect();
        return;
      }
      client.teamId := Or(payload.value.teamId, payload.value.adminId);
    }

    /** `handleDisconnect`: the socket leaves its room. */
    method HandleDisconnect(client: Socket)
      modifies this`log
      ensures log == old(log) + [LeaveRoom(client.id)]
    {
      log := log + [LeaveRoom(client.id)];
    }

    // ---- message handlers -------------------------------------------------------

    /** `join_session`: a falsy code yields one error to the caller; otherwise the caller joins the room and is acknowledged. */
    method HandleJoinSession(client: Socket, sessionCode: Option<string>)
      modifies this`log
      ensures !Truthy(sessionCode) ==> log == old(log) + [Reply(client, Error(SessionCodeRequired))]
      ensures Truthy(sessionCode) ==>
        log == old(log) + [JoinRoom(sessionCode.value, client.id), Reply(client, JoinSuccess(sessionCode.value))]
    {
      if !Truthy(sessionCode) {
        log := log + [Reply(client, Error(SessionCodeRequired))];
        return;
      }
      log := log + [JoinRoom(sessionCode.value, client.id)];
      log := log + [Reply(client, JoinSuccess(sessionCode.value))];
    }

    /**
     * `question:get-current`: the session service's current question (or its absence),
     * sent to the caller only; a falsy code or a failing service yields one error instead.
     */
    method HandleGetCurrentQuestion(client: Socket, sessionCode: Option<string>, current: Call<Option<StoredQuestion>>)
      modifies this`log
      ensures !Truthy(sessionCode) ==> log == old(log) + [Reply(client, Error(SessionCodeRequired))]
      ensures Truthy(sessionCode) && current.Threw? && current.error.ErrorObject? ==>
        log == old(log) + [Reply(client, Error(current.error.message))]
      ensures Truthy(sessionCode) && current.Threw? && current.error.NonError? ==>
        log == old(log) + [Reply(client, Error(GetCurrentFallback))]
      ensures Truthy(sessionCode) && current.Returned? ==>
        log == old(log) + [Reply(client, QuestionCurrent(sessionCode.value, current.value))]
    {
      if !Truthy(sessionCode) {
        log := log + [Reply(client, Error(SessionCodeRequired))];
        return;
      }
      match current
      case Threw(e) =>
        log := log + [Reply(client, Error(ErrorText(e, GetCurrentFallback)))];
      case Returned(q) =>
        log := log + [Reply(client, QuestionCurrent(sessionCode.value, q))];
    }

    /**
     * `admin:next-question`. A falsy code, a failing service, or an unfinished result
     * without a question or an index yields one error to the caller and leaves the
     * timers alone. A finished result broadcasts `session:ended`, clears the timer and
     * acknowledges with the service's message. Otherwise the question is broadcast, the
     * timer restarted for its time limit, and the caller acknowledged with the index and total.
     */
    method HandleAdminNextQuestion(client: Socket, sessionCode: Option<string>, next: Call<NextResult>)
      requires Valid()
      modifies this
      ensures Valid()
      ensures !Truthy(sessionCode) ==>
        TimersUnchanged() && log == old(log) + [Reply(client, Error(SessionCodeRequired))]
      ensures Truthy(sessionCode) && next.Threw? && next.error.ErrorObject? ==>
        TimersUnchanged() && log == old(log) + [Reply(client, Error(next.error.message))]
      ensures Truthy(sessionCode) && next.Threw? && next.error.NonError? ==>
        TimersUnchanged() && log == old(log) + [Reply(client, Error(AdvanceFallback))]
      ensures Truthy(sessionCode) && next.Returned? && next.value.finished ==>
        var code := sessionCode.value;
        Cleared(code) &&
        log == old(log) + [Send(Room(code), SessionEnded(code))] + old(CancelTrace(code))
                        + [Reply(client, NextQuestionAck(code, true, true, next.value.message, None, None))]
      ensures Truthy(sessionCode) && next.Returned? && !next.value.finished &&
              (next.value.question.None? || next.value.currentQuestionIndex.None?) ==>
        TimersUnchanged() && log == old(log) + [Reply(client, Error(InvalidQuestionData))]
      ensures Truthy(sessionCode) && next.Returned? && !next.value.finished &&
              next.value.question.Some? && next.value.currentQuestionIndex.Some? ==>
        var code, r := sessionCode.value, next.value;
        var q, i := r.question.value, r.currentQuestionIndex.value;
        Restarted(code) &&
        log == old(log) + [Send(Room(code), QuestionStarted(code, i, ToDto(q)))] + old(CancelTrace(code))
                        + [TimerArmed(code, old(nextHandle), DelayMs(q.timeLimitSec)),
                           Reply(client, NextQuestionAck(code, true, false, None, Some(i), r.totalQuestions))]
    {
      if !Truthy(sessionCode) {
        log := log + [Reply(client, Error(SessionCodeRequired))];
        return;
      }
      var code := sessionCode.value;
      match next
      case Threw(e) =>
        log := log + [Reply(client, Error(ErrorText(e, AdvanceFallback)))];
      case Returned(r) =>
        if r.finished {
          BroadcastSessionEnded(code);
          log := log + [Reply(client, NextQuestionAck(code, true, true, r.message, None, None))];
        } else if r.question.None? || r.currentQuestionIndex.None? {
          log := log + [Reply(client, Error(InvalidQuestionData))];
        } else {
          var i := r.currentQuestionIndex.value;
          BroadcastQuestionStarted(code, i, ToDto(r.question.value));
          log := log + [Reply(client, NextQuestionAck(code, true, false, None, Some(i), r.totalQuestions))];
        }
    }

    /**
     * `admin:end-session`: a falsy code yields one error to the caller; otherwise
     * `session:ended` is broadcast, the timer cleared and the caller acknowledged.
     * The session service is not consulted.
     */
    method HandleAdminEndSession(client: Socket, sessionCode: Option<string>)
      requires Valid()
      modifies this
      ensures Valid()
      ensures !Truthy(sessionCode) ==>
        TimersUnchanged() && log == old(log) + [Reply(client, Error(SessionCodeRequired))]
      ensures Truthy(sessionCode) ==>
        var code := sessionCode.value;
        Cleared(code) &&
        log == old(log) + [Send(Room(code), SessionEnded(code))] + old(CancelTrace(code))
                        + [Reply(client, EndSessionAck(code, true))]
    {
      if !Truthy(sessionCode) {
        log := log + [Reply(client, Error(SessionCodeRequired))];
        return;
      }
      var code := sessionCode.value;
      BroadcastSessionEnded(code);
      log := log + [Reply(client, EndSessionAck(code, true))];
    }
  }

  // ---------------------------------------------------------------------------
  // What the timer invariant guarantees
  // ---------------------------------------------------------------------------

  /** A cancelled or already-fired handle is never the current handle of any session, so it can never fire. */
  lemma RetiredHandleNeverFires(g: Gateway, code: string, h: nat)
    requires g.Valid()
    requires h in g.cancelled || h in g.fired
    ensures !g.Armed(code, h)
  {
  }

  /** A handle is armed for at most one session code. */
  lemma ArmedForOneSession(g: Gateway, c1: string, c2: string, h: nat)
    requires g.Valid() && g.Armed(c1, h) && g.Armed(c2, h)
    ensures c1 == c2
  {
  }

  // ---------------------------------------------------------------------------
  // Scenarios
  // ---------------------------------------------------------------------------

  /**
   * Starting a session's timer twice before it fires: the first handle is cancelled
   * and can never fire, and the second fires with exactly one `time:up`.
   */
  method SupersededTimerScenario(code: string, d1: int, d2: int) returns (log: seq<Entry>)
    ensures log == [TimerArmed(code, 0, DelayMs(d1)), TimerCancelled(code, 0),
                    TimerArmed(code, 1, DelayMs(d2)), Send(Room(code), TimeUp(code))]
  {
    var g := new Gateway();
    g.StartQuestionTimer(code, d1);
    g.StartQuestionTimer(code, d2);
    RetiredHandleNeverFires(g, code, 0);
    assert !g.Armed(code, 0) && g.Armed(code, 1);
    g.Fire(code, 1);
    log := g.log;
  }

  /** Clearing twice does what clearing once does: the second clear is a no-op. */
  method ClearTwice(g: Gateway, code: string)
    requires g.Valid()
    modifies g
    ensures g.Valid()
    ensures g.Cleared(code)
    ensures g.log == old(g.log) + old(g.CancelTrace(code))
  {
    g.ClearQuestionTimer(code);
    g.ClearQuestionTimer(code);
  }

  /**
   * The admin of session `ABC123` advances to question 2 of 5; the room receives the
   * question, a 20-second timer is armed, the admin alone is acknowledged, and when
   * the timer fires the room receives `time:up`.
   */
  method AdvanceScenario() returns (log: seq<Entry>)
    ensures log == [
      Send(Room("ABC123"), QuestionStarted("ABC123", 2, QuestionDto("q3", "2+2?", "single", ["3", "4", "5"], 20, 100))),
      TimerArmed("ABC123", 0, 20000),
      Send(Caller("admin"), NextQuestionAck("ABC123", true, false, None, Some(2), Some(5))),
      Send(Room("ABC123"), TimeUp("ABC123"))]
  {
    var g := new Gateway();
    var admin := new Socket("admin", Some("admin-token"), None);
    var q := StoredQuestion("q3", "2+2?", "single", ["3", "4", "5"], 100, 20, map["correctAnswer" := "4"]);
    g.HandleAdminNextQuestion(admin, Some("ABC123"), Returned(NextResult(false, Some(2), Some(5), Some(q), None)));
    g.Fire("ABC123", 0);
    log := g.log;
  }

  /**
   * No handler looks at the caller's role: a socket admitted with the team secret
   * ends a session and is acknowledged.
   */
  method TeamEndsSessionScenario() returns (log: seq<Entry>, connected: bool, teamId: Option<string>)
    ensures log == [Send(Room("S1"), SessionEnded("S1")), Send(Caller("team"), EndSessionAck("S1", true))]
    ensures connected && teamId == Some("t1")
  {
    var g := new Gateway();
    var team := new Socket("team", None, Some("Bearer team-token"));
    var v: Verifier := (tok, s) => if s == TeamSecret then Some(Claims(Some("t1"), None)) else None;
    ghost var attempts := g.HandleConnection(team, v);
    g.HandleAdminEndSession(team, Some("S1"));
    log, connected, teamId := g.log, team.connected, team.teamId;
  }
}
