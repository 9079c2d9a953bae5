/**
 * The evaluation insert of src/app/db/insert_db.py: up to three add-and-commit attempts on one session,
 * a rollback after each failed commit, the session closed after every attempt and again when the `with`
 * block ends, and `DBInsertError` wrapping the last failure when every attempt failed.
 *
 * The database is a parameter: `db(i)` is what the i-th commit on the session gives, None for success or
 * the fault it raises. The session records what is done to it, so the order of operations can be stated.
 */
module InsertDb {
  import opened Wrappers
  import opened Exceptions

  /** A row of the `evaluate` table, as `Evaluate(**obj)` builds it. */
  datatype Evaluation = Evaluation(txnSeq: string, sessionId: string, customerId: string, evaluate: bool, time: string)

  /** What is done to the session, in order; a commit records its outcome. */
  datatype Op = Begin | Add(row: Evaluation) | Committed(fault: Option<Fault>) | Rollback | Close

  const MaxRetries: nat := 3

  class Session {
    var log: seq<Op>
    var commits: nat
    const db: nat -> Option<Fault>

    constructor (db: nat -> Option<Fault>)
      ensures log == [] && commits == 0 && this.db == db
    {
      log := [];
      commits := 0;
      this.db := db;
    }

    method Begin()
      modifies this
      ensures log == old(log) + [Op.Begin] && commits == old(commits)
    {
      log := log + [Op.Begin];
    }

    method Add(row: Evaluation)
      modifies this
      ensures log == old(log) + [Op.Add(row)] && commits == old(commits)
    {
      log := log + [Op.Add(row)];
    }

    /** The commit's outcome is the database's answer to this session's next commit. */
    method Commit() returns (fault: Option<Fault>)
      modifies this
      ensures fault == db(old(commits))
      ensures log == old(log) + [Committed(fault)] && commits == old(commits) + 1
    {
      fault := db(commits);
      log := log + [Committed(fault)];
      commits := commits + 1;
    }

    method Rollback()
      modifies this
      ensures log == old(log) + [Op.Rollback] && commits == old(commits)
    {
      log := log + [Op.Rollback];
    }

    method Close()
      modifies this
      ensures log == old(log) + [Op.Close] && commits == old(commits)
    {
      log := log + [Op.Close];
    }
  }

  // ---------------------------------------------------------------------------------------------
  // The specification: the attempts the loop makes, and what the call ends with

  /** The operations of the attempts from commit number `i` on, with `retries` attempts left. */
  function Attempts(db: nat -> Option<Fault>, row: Evaluation, i: nat, retries: nat): (ops: seq<Op>)
    decreases retries
  {
    if retries == 0 then []
    else match db(i)
      case None => [Op.Add(row), Committed(None), Op.Close]
      case Some(f) => [Op.Add(row), Committed(Some(f)), Op.Rollback, Op.Close] + Attempts(db, row, i + 1, retries - 1)
  }

  /** Everything done to the session: begin, the attempts, and the close when the `with` block ends. */
  function InsertLog(db: nat -> Option<Fault>, row: Evaluation): (ops: seq<Op>)
  {
    [Op.Begin] + Attempts(db, row, 0, MaxRetries) + [Op.Close]
  }

  /** None when an attempt from number `i` on succeeds; otherwise the error wrapping the last failure. */
  function Outcome(db: nat -> Option<Fault>, i: nat, retries: nat): (r: Option<Fault>)
    requires retries > 0
    ensures r.Some? ==> r.value.Defined? && r.value.cls == DBInsert && r.value.arg.Cause?
    ensures r.Some? ==> db(i).Some? && db(i + retries - 1) == Some(r.value.arg.fault)
    decreases retries
  {
    match db(i)
    case None => None
    case Some(f) => if retries == 1 then Some(Defined(DBInsert, Cause(f))) else Outcome(db, i + 1, retries - 1)
  }

  function InsertOutcome(db: nat -> Option<Fault>): Option<Fault>
  {
    Outcome(db, 0, MaxRetries)
  }

  /** The number of attempts made from commit number `i` on. */
  function AttemptCount(db: nat -> Option<Fault>, i: nat, retries: nat): (n: nat)
    ensures n <= retries
    ensures retries > 0 ==> n >= 1
    decreases retries
  {
    if retries == 0 then 0
    else if db(i).None? then 1
    else 1 + AttemptCount(db, i + 1, retries - 1)
  }

  // ---------------------------------------------------------------------------------------------
  // insert_evaluation

  /**
   * `insert_evaluation` with the logger calls taken as doing nothing: the session is opened and begun,
   * the loop adds and commits until a commit succeeds or three have failed, and the session is closed
   * after every attempt and once more on leaving the `with` block. The raise sets the error; the loop then
   * ends because no retries are left, and leaves through the same close as the raise.
   */
  method InsertEvaluation(row: Evaluation, db: nat -> Option<Fault>) returns (session: Session, err: Option<Fault>)
    ensures fresh(session)
    ensures session.log == InsertLog(db, row)
    ensures err == InsertOutcome(db)
  {
    session := new Session(db);
    session.Begin();
    var retries := MaxRetries;
    err := None;
    while retries > 0
      invariant 0 <= retries <= MaxRetries
      invariant session.commits == MaxRetries - retries
      invariant session.log + Attempts(db, row, session.commits, retries) + [Op.Close] == InsertLog(db, row)
      invariant retries > 0 ==> Outcome(db, session.commits, retries) == InsertOutcome(db)
      invariant err == if retries == 0 then InsertOutcome(db) else None
      decreases retries
    {
      ghost var before := session.log;
      ghost var attempt := session.commits;
      session.Add(row);
      var fault := session.Commit();
      if fault.None? {
        session.Close();
        assert session.log == before + [Op.Add(row), Committed(None), Op.Close];
        SucceededStep(before, db, row, attempt, retries);
        break;
      }
      session.Rollback();
      session.Close();
      assert session.log == before + [Op.Add(row), Committed(db(attempt)), Op.Rollback, Op.Close];
      FailedStep(before, db, row, attempt, retries);
      retries := retries - 1;
      if retries == 0 {
        err := Some(Defined(DBInsert, Cause(fault.value)));
        assert err == Outcome(db, attempt, 1);
      }
    }
    session.Close();
  }

  // ---------------------------------------------------------------------------------------------
  // Properties of the specification

  /** One failed pass of the loop: the log so far plus what remains still makes the whole log, and the outcome is still ahead. */
  lemma FailedStep(before: seq<Op>, db: nat -> Option<Fault>, row: Evaluation, i: nat, retries: nat)
    requires retries > 0 && db(i).Some?
    ensures (before + [Op.Add(row), Committed(db(i)), Op.Rollback, Op.Close]) + Attempts(db, row, i + 1, retries - 1) + [Op.Close]
            == before + Attempts(db, row, i, retries) + [Op.Close]
    ensures retries > 1 ==> Outcome(db, i + 1, retries - 1) == Outcome(db, i, retries)
  {
    AttemptsAfterFailure(db, row, i, retries);
  }

  /** The successful pass of the loop: its three operations are all that remain, and the outcome is success. */
  lemma SucceededStep(before: seq<Op>, db: nat -> Option<Fault>, row: Evaluation, i: nat, retries: nat)
    requires retries > 0 && db(i).None?
    ensures (before + [Op.Add(row), Committed(None), Op.Close]) + [Op.Close] == before + Attempts(db, row, i, retries) + [Op.Close]
    ensures Outcome(db, i, retries) == None
  {
    AttemptsAfterSuccess(db, row, i, retries);
  }

  /** A failed attempt is four operations followed by the remaining attempts. */
  lemma AttemptsAfterFailure(db: nat -> Option<Fault>, row: Evaluation, i: nat, retries: nat)
    requires retries > 0 && db(i).Some?
    ensures Attempts(db, row, i, retries)
            == [Op.Add(row), Committed(db(i)), Op.Rollback, Op.Close] + Attempts(db, row, i + 1, retries - 1)
  {
  }

  /** A successful attempt is three operations and ends the attempts. */
  lemma AttemptsAfterSuccess(db: nat -> Option<Fault>, row: Evaluation, i: nat, retries: nat)
    requires retries > 0 && db(i).None?
    ensures Attempts(db, row, i, retries) == [Op.Add(row), Committed(None), Op.Close]
  {
  }

  /** How many additions a log records. */
  function AddCount(log: seq<Op>): nat
  {
    if log == [] then 0 else (if log[0].Add? then 1 else 0) + AddCount(log[1..])
  }

  lemma {:induction false} AddCountConcat(a: seq<Op>, b: seq<Op>)
    ensures AddCount(a + b) == AddCount(a) + AddCount(b)
  {
    if a != [] {
      assert (a + b)[1..] == a[1..] + b;
      AddCountConcat(a[1..], b);
    } else {
      assert a + b == b;
    }
  }

  /** A log without additions counts none. */
  lemma {:induction false} NoAdds(log: seq<Op>)
    requires forall k :: 0 <= k < |log| ==> !log[k].Add?
    ensures AddCount(log) == 0
  {
    if log != [] {
      NoAdds(log[1..]);
    }
  }

  /** An attempt (or the first attempt as written) adds once: an addition followed by no other. */
  lemma OneAdd(row: Evaluation, rest: seq<Op>)
    requires forall k :: 0 <= k < |rest| ==> !rest[k].Add?
    ensures AddCount([Op.Add(row)] + rest) == 1
  {
    NoAdds(rest);
    assert ([Op.Add(row)] + rest)[1..] == rest;
  }

  /** The attempts add once per attempt. */
  lemma {:induction false} AttemptsAddCount(db: nat -> Option<Fault>, row: Evaluation, i: nat, retries: nat)
    ensures AddCount(Attempts(db, row, i, retries)) == AttemptCount(db, i, retries)
    decreases retries
  {
    if retries > 0 && db(i).Some? {
      AttemptsAddCount(db, row, i + 1, retries - 1);
      AttemptsAfterFailure(db, row, i, retries);
      OneAdd(row, [Committed(db(i)), Op.Rollback, Op.Close]);
      assert [Op.Add(row)] + [Committed(db(i)), Op.Rollback, Op.Close] == [Op.Add(row), Committed(db(i)), Op.Rollback, Op.Close];
      AddCountConcat([Op.Add(row), Committed(db(i)), Op.Rollback, Op.Close], Attempts(db, row, i + 1, retries - 1));
    } else if retries > 0 {
      AttemptsAfterSuccess(db, row, i, retries);
      OneAdd(row, [Committed(None), Op.Close]);
      assert [Op.Add(row)] + [Committed(None), Op.Close] == [Op.Add(row), Committed(None), Op.Close];
    }
  }

  /** Every row the attempts add is the given row. */
  lemma {:induction false} AttemptsAddOnlyRow(db: nat -> Option<Fault>, row: Evaluation, i: nat, retries: nat)
    ensures var a := Attempts(db, row, i, retries);
            forall k :: 0 <= k < |a| && a[k].Add? ==> a[k].row == row
    decreases retries
  {
    if retries > 0 && db(i).Some? {
      AttemptsAddOnlyRow(db, row, i + 1, retries - 1);
      var head: seq<Op> := [Op.Add(row), Committed(db(i)), Op.Rollback, Op.Close];
      var rest := Attempts(db, row, i + 1, retries - 1);
      AttemptsAfterFailure(db, row, i, retries);
      forall k | 0 <= k < |head + rest| && (head + rest)[k].Add?
        ensures (head + rest)[k].row == row
      {
        if k >= |head| {
          assert (head + rest)[k] == rest[k - |head|];
        }
      }
    }
  }

  /** In the attempts, a failed commit is followed at once by a rollback and a close. */
  lemma {:induction false} AttemptsRollBack(db: nat -> Option<Fault>, row: Evaluation, i: nat, retries: nat)
    ensures var a := Attempts(db, row, i, retries);
            forall k :: 0 <= k < |a| && a[k].Committed? && a[k].fault.Some? ==>
              k + 2 < |a| && a[k + 1] == Op.Rollback && a[k + 2] == Op.Close
    decreases retries
  {
    if retries > 0 && db(i).Some? {
      AttemptsRollBack(db, row, i + 1, retries - 1);
      var head: seq<Op> := [Op.Add(row), Committed(db(i)), Op.Rollback, Op.Close];
      var rest := Attempts(db, row, i + 1, retries - 1);
      AttemptsAfterFailure(db, row, i, retries);
      forall k | 0 <= k < |head + rest| && (head + rest)[k].Committed? && (head + rest)[k].fault.Some?
        ensures k + 2 < |head + rest| && (head + rest)[k + 1] == Op.Rollback && (head + rest)[k + 2] == Op.Close
      {
        if k >= |head| {
          assert (head + rest)[k] == rest[k - |head|];
          assert (head + rest)[k + 1] == rest[k + 1 - |head|];
          assert (head + rest)[k + 2] == rest[k + 2 - |head|];
        }
      }
    }
  }

  /** In the attempts, a successful commit is followed by one close and then nothing. */
  lemma {:induction false} AttemptsStopAtSuccess(db: nat -> Option<Fault>, row: Evaluation, i: nat, retries: nat)
    ensures var a := Attempts(db, row, i, retries);
            forall k :: 0 <= k < |a| && a[k] == Committed(None) ==> k + 2 == |a| && a[k + 1] == Op.Close
    decreases retries
  {
    if retries > 0 && db(i).Some? {
      AttemptsStopAtSuccess(db, row, i + 1, retries - 1);
      var head: seq<Op> := [Op.Add(row), Committed(db(i)), Op.Rollback, Op.Close];
      var rest := Attempts(db, row, i + 1, retries - 1);
      AttemptsAfterFailure(db, row, i, retries);
      forall k | 0 <= k < |head + rest| && (head + rest)[k] == Committed(None)
        ensures k + 2 == |head + rest| && (head + rest)[k + 1] == Op.Close
      {
        assert k >= |head|;
        assert (head + rest)[k] == rest[k - |head|];
        assert (head + rest)[k + 1] == rest[k + 1 - |head|];
      }
    }
  }

  /** Position `k` of the attempts is position `k + 1` of the whole log. */
  lemma LogIndex(db: nat -> Option<Fault>, row: Evaluation)
    ensures var a := Attempts(db, row, 0, MaxRetries);
            var log := InsertLog(db, row);
            && |log| == |a| + 2 && log[0] == Op.Begin && log[|log| - 1] == Op.Close
            && forall k :: 0 <= k < |a| ==> log[k + 1] == a[k]
  {
  }

  /**
   * The session is begun first and closed last; at most three attempts are made, and every one adds the
   * one row built from the request.
   */
  lemma AtMostThreeAttempts(db: nat -> Option<Fault>, row: Evaluation)
    ensures var log := InsertLog(db, row);
            && log[0] == Op.Begin && log[|log| - 1] == Op.Close
            && AddCount(log) == AttemptCount(db, 0, MaxRetries) <= MaxRetries
            && (forall k :: 0 <= k < |log| && log[k].Add? ==> log[k].row == row)
  {
    var a := Attempts(db, row, 0, MaxRetries);
    var log := InsertLog(db, row);
    LogIndex(db, row);
    AttemptsAddCount(db, row, 0, MaxRetries);
    AttemptsAddOnlyRow(db, row, 0, MaxRetries);
    AddCountConcat([Op.Begin] + a, [Op.Close]);
    AddCountConcat([Op.Begin], a);
    forall k | 0 <= k < |log| && log[k].Add?
      ensures log[k].row == row
    {
      assert log[k] == a[k - 1];
    }
  }

  /** Every failed commit is followed at once by a rollback and then the close of the `finally` block. */
  lemma FailedCommitRolledBack(db: nat -> Option<Fault>, row: Evaluation)
    ensures var log := InsertLog(db, row);
            forall k :: 0 <= k < |log| && log[k].Committed? && log[k].fault.Some? ==>
              k + 2 < |log| && log[k + 1] == Op.Rollback && log[k + 2] == Op.Close
  {
    var a := Attempts(db, row, 0, MaxRetries);
    var log := InsertLog(db, row);
    LogIndex(db, row);
    AttemptsRollBack(db, row, 0, MaxRetries);
    forall k | 0 <= k < |log| && log[k].Committed? && log[k].fault.Some?
      ensures k + 2 < |log| && log[k + 1] == Op.Rollback && log[k + 2] == Op.Close
    {
      assert log[k] == a[k - 1];
    }
  }

  /** After a successful commit there is no further attempt: only the two closes follow. */
  lemma NoAttemptAfterSuccess(db: nat -> Option<Fault>, row: Evaluation)
    ensures var log := InsertLog(db, row);
            forall k :: 0 <= k < |log| && log[k] == Committed(None) ==>
              k + 3 == |log| && log[k + 1] == Op.Close && log[k + 2] == Op.Close
  {
    var a := Attempts(db, row, 0, MaxRetries);
    var log := InsertLog(db, row);
    LogIndex(db, row);
    AttemptsStopAtSuccess(db, row, 0, MaxRetries);
    forall k | 0 <= k < |log| && log[k] == Committed(None)
      ensures k + 3 == |log| && log[k + 1] == Op.Close && log[k + 2] == Op.Close
    {
      assert log[k] == a[k - 1];
    }
  }

  /**
   * The call succeeds exactly when one of the first three commits succeeds, and the number of attempts is
   * one more than the number of failures before it; when all three fail it raises the insert error
   * wrapping the third failure.
   */
  lemma {:induction false} OutcomeOfThreeCommits(db: nat -> Option<Fault>)
    ensures InsertOutcome(db) == None <==> db(0).None? || db(1).None? || db(2).None?
    ensures InsertOutcome(db).Some? ==> InsertOutcome(db) == Some(Defined(DBInsert, Cause(db(2).value)))
    ensures AttemptCount(db, 0, MaxRetries) == (if db(0).None? then 1 else if db(1).None? then 2 else 3)
  {
    assert AttemptCount(db, 2, 1) == 1;
    assert Outcome(db, 2, 1) == (if db(2).None? then None else Some(Defined(DBInsert, Cause(db(2).value))));
  }

  // ---------------------------------------------------------------------------------------------
  // The loop as written: the logger calls raise before they log

  /** Building `{obj}` for the logger's `extra` argument puts a dictionary in a set, which raises. */
  const UnhashableDict: Fault := Raised("TypeError", "unhashable type: 'dict'")

  /**
   * The first attempt as written: after the commit (either way) a logger call raises, the handler rolls
   * back, its own logger call raises again, and the error leaves through the `finally` and the `with`
   * exit. There is never a second attempt and the call never returns normally.
   */
  function AsWrittenRun(db: nat -> Option<Fault>, row: Evaluation): (r: (seq<Op>, Fault))
    ensures AddCount(r.0) == 1
    ensures r.1 == UnhashableDict
  {
    OneAdd(row, [Committed(db(0)), Op.Rollback, Op.Close, Op.Close]);
    AddCountConcat([Op.Begin], [Op.Add(row)] + [Committed(db(0)), Op.Rollback, Op.Close, Op.Close]);
    assert [Op.Begin] + ([Op.Add(row)] + [Committed(db(0)), Op.Rollback, Op.Close, Op.Close])
           == [Op.Begin, Op.Add(row), Committed(db(0)), Op.Rollback, Op.Close, Op.Close];
    ([Op.Begin, Op.Add(row), Committed(db(0)), Op.Rollback, Op.Close, Op.Close], UnhashableDict)
  }

  /**
   * Where the two differ: when the first commit fails and the second would succeed, the intended loop
   * retries and succeeds, while the code as written gives up after one attempt with a TypeError; and when
   * the first commit succeeds, the row is stored but the code as written still raises.
   */
  lemma LoggingDefeatsRetry(db: nat -> Option<Fault>, row: Evaluation)
    ensures db(0).Some? && db(1).None? ==>
              && InsertOutcome(db) == None && AttemptCount(db, 0, MaxRetries) == 2
              && AddCount(AsWrittenRun(db, row).0) == 1
    ensures db(0).None? ==>
              InsertOutcome(db) == None && AsWrittenRun(db, row).0[2] == Committed(None)
              && AsWrittenRun(db, row).1 == UnhashableDict
  {
    OutcomeOfThreeCommits(db);
  }
}
