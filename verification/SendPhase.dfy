/** Sending a query, call by call: each call of the library's query function is
    answered once, a wait hands control back to the event loop, and the same step is
    entered again later. What the driver does with an answer is a step of a fold. */
module SendPhase {

  datatype Reply =
    | IoWait
    | NoSuchTable             // error 1146
    | OtherError
    | Answered(accepted: bool)  // a result; for SET NAMES, whether its error code is zero

  datatype Sql = SetNames | UserQuery

  /** Gone is the 410 page, HttpError the 500 page, Refused a failed SET NAMES. */
  datatype Outcome = Sending | Gone | HttpError | Refused | Receiving

  datatype Send = Send(
    entered: bool,      // the request is in the state of sending a query
    writeTimer: bool,   // the send timeout runs
    pending: bool,      // SET NAMES is still to be answered
    waiting: bool,      // the last call is to be continued
    starts: seq<Sql>,   // the statements submitted, continuations not counted
    outcome: Outcome)

  function Begin(namesDue: bool): Send {
    Send(false, false, namesDue, false, [], Sending)
  }

  /** The statement that the next call is made with. */
  function NextSql(v: Send): Sql {
    if v.pending then SetNames else UserQuery
  }

  function OnReply(v: Send, r: Reply): Send {
    var started := v.(starts := if v.waiting then v.starts else v.starts + [NextSql(v)]);
    match r
    case IoWait =>
      started.(waiting := true, entered := true, writeTimer := v.entered ==> v.writeTimer)
    case NoSuchTable =>
      var w := started.(waiting := false, writeTimer := false);
      if v.pending then w.(pending := false) else w.(outcome := Gone)
    case OtherError =>
      started.(waiting := false, writeTimer := false, outcome := HttpError)
    case Answered(accepted) =>
      var w := started.(waiting := false, writeTimer := false);
      if !v.pending then w.(outcome := Receiving)
      else if accepted then w.(pending := false, entered := false)
      else w.(outcome := Refused)
  }

  /** All answers so far, oldest first; nothing is sent once there is an outcome. */
  function Run(namesDue: bool, log: seq<Reply>): Send {
    if log == [] then Begin(namesDue)
    else
      var v := Run(namesDue, log[..|log| - 1]);
      if v.outcome.Sending? then OnReply(v, log[|log| - 1]) else v
  }

  lemma RunSnoc(namesDue: bool, log: seq<Reply>, r: Reply)
    requires Run(namesDue, log).outcome.Sending?
    ensures Run(namesDue, log + [r]) == OnReply(Run(namesDue, log), r)
  {
    assert (log + [r])[..|log|] == log;
  }

  /** SET NAMES was answered with error 1146, and not at the first call. The driver
      then sends the user's query without leaving the state of sending. */
  predicate TimerLost(log: seq<Reply>) {
    exists k :: 0 < k < |log| && log[k].NoSuchTable?
  }

  ghost predicate Yielded(log: seq<Reply>) {
    log != [] && log[|log| - 1].IoWait?
  }

  /** What a run that is still sending looks like, in terms of its answers. */
  lemma {:induction false} RunShape(namesDue: bool, log: seq<Reply>)
    requires Run(namesDue, log).outcome.Sending?
    ensures var v := Run(namesDue, log);
            && (v.waiting <==> Yielded(log))
            && (v.pending <==> namesDue && forall k :: 0 <= k < |log| ==> log[k].IoWait?)
            && (!namesDue ==> forall k :: 0 <= k < |log| ==> log[k].IoWait?)
            && (v.entered <==> Yielded(log) || TimerLost(log))
            && (v.writeTimer <==> Yielded(log) && !TimerLost(log))
  {
    if log != [] {
      var before, r := log[..|log| - 1], log[|log| - 1];
      assert Run(namesDue, before).outcome.Sending?;
      RunShape(namesDue, before);
      assert forall k :: 0 <= k < |before| ==> log[k] == before[k];
      assert TimerLost(log) <==> TimerLost(before) || (|before| > 0 && r.NoSuchTable?) by {
        if TimerLost(before) {
          var k :| 0 < k < |before| && before[k].NoSuchTable?;
          assert log[k].NoSuchTable?;
        }
        if |before| > 0 && r.NoSuchTable? {
          assert log[|before|].NoSuchTable?;
        }
      }
      if namesDue && Run(namesDue, before).pending {
        assert !TimerLost(before);
      }
    }
  }

  /** Whenever sending has to wait, the send timeout runs, except exactly after a SET
      NAMES that first made it wait and then was answered with error 1146. */
  lemma SendTimerCoverage(namesDue: bool, log: seq<Reply>)
    requires Run(namesDue, log).outcome.Sending? && Yielded(log)
    ensures Run(namesDue, log).writeTimer <==> !TimerLost(log)
  {
    RunShape(namesDue, log);
  }

  /** The exception does happen. */
  lemma SendTimerGap()
    ensures var log := [IoWait, NoSuchTable, IoWait];
            var v := Run(true, log);
            v.outcome.Sending? && v.waiting && Yielded(log) && !v.writeTimer
  {
    var log := [IoWait, NoSuchTable, IoWait];
    assert log[..2] == [IoWait, NoSuchTable] && log[..2][..1] == [IoWait] && log[..2][..1][..0] == [];
    assert Run(true, log[..2][..1]) == OnReply(Begin(true), IoWait);
    assert Run(true, log[..2]) == OnReply(Run(true, [IoWait]), NoSuchTable);
    assert Run(true, log) == OnReply(Run(true, log[..2]), IoWait);
  }

  ghost predicate Orderly(namesDue: bool, begun: bool, v: Send) {
    var all := if namesDue then [SetNames, UserQuery] else [UserQuery];
    && v.starts <= all
    && (v.outcome.Sending? ==>
          v.starts == if !v.pending && v.waiting then all else if namesDue && begun then [SetNames] else [])
    && (v.pending ==> namesDue) && (v.outcome.Sending? && v.pending && begun ==> v.waiting)
    && (v.outcome.Sending? && !namesDue && begun ==> v.waiting)
    && (!begun ==> v == Begin(namesDue))
    && (v.outcome in {Gone, Receiving} ==> !v.pending && v.starts == all)
  }

  lemma OrderlyStep(namesDue: bool, begun: bool, v: Send, r: Reply)
    requires Orderly(namesDue, begun, v) && v.outcome.Sending?
    ensures Orderly(namesDue, true, OnReply(v, r))
  {
  }

  /** Each statement is submitted at most once, SET NAMES before the user's query,
      and the user's query only when SET NAMES is not, or no longer, outstanding. A
      result, or the page for a missing table, is never reached on SET NAMES alone. */
  lemma {:induction false} StatementsOnce(namesDue: bool, log: seq<Reply>)
    ensures Orderly(namesDue, log != [], Run(namesDue, log))
  {
    hide OnReply;
    if log != [] {
      var before := log[..|log| - 1];
      StatementsOnce(namesDue, before);
      if Run(namesDue, before).outcome.Sending? {
        OrderlyStep(namesDue, before != [], Run(namesDue, before), log[|log| - 1]);
      }
    }
  }

  // --- what reaches the servers ---

  /** One call of the query function: on which connection, with what statement, whether
      that connection needs a charset and how often it was set, and which peers and
      connections the request had turned to by then. */
  datatype Call = Call(conn: nat, sql: Sql, charsetPeer: bool, namesSet: nat, picks: seq<nat>, contacts: seq<nat>)

  /** A call continues the one before only where that one had to wait, on the same
      connection and for the same statement. Any other call sends SQL afresh. */
  predicate Continues(calls: seq<Call>, log: seq<Reply>, n: nat)
    requires n < |calls| == |log|
  {
    n > 0 && log[n - 1].IoWait? && calls[n - 1].conn == calls[n].conn && calls[n - 1].sql == calls[n].sql
  }

  /** The statements sent afresh, whatever the connection. */
  function Submitted(calls: seq<Call>, log: seq<Reply>): seq<Sql>
    requires |calls| == |log|
  {
    if calls == [] then []
    else
      var n := |calls| - 1;
      Submitted(calls[..n], log[..n]) + if Continues(calls, log, n) then [] else [calls[n].sql]
  }

  /** All calls were made on this connection, each with the statement that was due. */
  ghost predicate AsDue(namesDue: bool, calls: seq<Call>, log: seq<Reply>, conn: nat) {
    && |calls| == |log|
    && forall i :: 0 <= i < |calls| ==>
         && calls[i].conn == conn
         && Run(namesDue, log[..i]).outcome.Sending? && calls[i].sql == NextSql(Run(namesDue, log[..i]))
  }

  lemma AsDueSnoc(namesDue: bool, calls: seq<Call>, log: seq<Reply>, c: Call, r: Reply)
    requires |calls| == |log| && (calls != [] ==> AsDue(namesDue, calls, log, c.conn))
    requires Run(namesDue, log).outcome.Sending? && c.sql == NextSql(Run(namesDue, log))
    ensures AsDue(namesDue, calls + [c], log + [r], c.conn)
  {
    assert forall i :: 0 <= i <= |log| ==> (log + [r])[..i] == log[..i];
    assert log[..|log|] == log;
  }

  /** On one connection the calls that the fold takes for continuations are just that. */
  lemma {:induction false} SubmittedOnOne(namesDue: bool, calls: seq<Call>, log: seq<Reply>, conn: nat)
    requires AsDue(namesDue, calls, log, conn)
    ensures Submitted(calls, log) == Run(namesDue, log).starts
  {
    hide OnReply, Run, NextSql;
    if calls == [] {
      NothingRun(namesDue);
    } else {
      var n := |calls| - 1;
      assert forall i :: 0 <= i < n ==> log[..n][..i] == log[..i];
      SubmittedOnOne(namesDue, calls[..n], log[..n], conn);
      var v := Run(namesDue, log[..n]);
      RunShape(namesDue, log[..n]);
      RunSnoc(namesDue, log[..n], log[n]);
      assert log[..n] + [log[n]] == log;
      StartsOf(v, log[n]);
      if v.waiting {
        assert log[..n][..n - 1] == log[..n - 1];
        RunSnoc(namesDue, log[..n - 1], IoWait);
        assert log[..n - 1] + [IoWait] == log[..n];
        StillDue(Run(namesDue, log[..n - 1]));
      }
    }
  }

  lemma NothingRun(namesDue: bool)
    ensures Run(namesDue, []) == Begin(namesDue)
  {
  }

  lemma StartsOf(v: Send, r: Reply)
    ensures OnReply(v, r).starts == v.starts + if v.waiting then [] else [NextSql(v)]
  {
  }

  lemma StillDue(v: Send)
    ensures NextSql(OnReply(v, IoWait)) == NextSql(v)
  {
  }

  predicate AnswersNames(r: Reply) { r.NoSuchTable? || r == Answered(true) }

  /** The user's query is on its way only after SET NAMES, where due, was answered. */
  lemma {:induction false} NamesBeforeQuery(log: seq<Reply>) returns (k: nat)
    requires UserQuery in Run(true, log).starts
    ensures k < |log| - 1 && AnswersNames(log[k])
  {
    var before := log[..|log| - 1];
    var v := Run(true, before);
    if UserQuery in v.starts {
      k := NamesBeforeQuery(before);
    } else {
      StartsWithQuery(v, log[|log| - 1]);
      k := NamesAnswered(before);
    }
  }

  lemma StartsWithQuery(v: Send, r: Reply)
    ensures UserQuery in OnReply(v, r).starts && UserQuery !in v.starts ==> !v.pending
  {
  }

  lemma {:induction false} NamesAnswered(log: seq<Reply>) returns (k: nat)
    requires !Run(true, log).pending
    ensures k < |log| && AnswersNames(log[k])
  {
    var before := log[..|log| - 1];
    if Run(true, before).pending {
      k := |before|;
    } else {
      k := NamesAnswered(before);
    }
  }
}
