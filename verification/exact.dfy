/** Exact conditions in runs with worker crashes but reliable connections: when a row is final, when
    a terminal status is terminal, and when the two comments about the columns hold for good. */
module Exact {
  import opened Domain
  import opened Database
  import opened Broker
  import opened Worker
  import opened Pipeline
  import opened Safety
  import opened Orderly
  import opened Truthful
  import opened Moves

  /** Some continuation writes the row or the result of id. */
  ghost predicate CanStillChange(e: Engine, s: State, id: Id) {
    exists steps, t :: Path(e, s, steps, t) && !SameRow(s, t, id)
  }

  /** A clock reading that differs from the one on the row. */
  function OtherThan(t: Option<Time>): Time {
    if t == Some(0) then 1 else 0
  }

  lemma UnsettledCanChange(e: Engine, s: State, id: Id)
    requires Tidy(e, s) && Unsettled(s, id)
    ensures CanStillChange(e, s, id)
  {
    assert id in s.world.tables.requests by { TidyUpload(e, s, id); MessageCarriesJob(e, s, id); }
    hide Path, Tidy, Unsettled;
    var now := OtherThan(s.world.tables.requests[id].startedAt);
    var steps, t, w := Claim(e, s, id, now);
    assert t.world.tables.requests[id].startedAt == Some(now);
  }

  lemma RowAppears(e: Engine, s: State, id: Id)
    requires Safe(e, s) && id in s.uploads && (s.uploads[id].pc.Putting? || s.uploads[id].pc.Inserting?)
    ensures CanStillChange(e, s, id)
  {
    assert UploadOk(s, id);
    hide Path, Safe;
    var steps, t := Publish(e, s, id);
    assert id !in s.world.tables.requests && id in t.world.tables.requests;
  }

  lemma CompensationCanChange(e: Engine, s: State, id: Id)
    requires id in s.uploads && UploadOk(s, id)
    requires s.uploads[id].pc.Publishing? || s.uploads[id].pc.Confirming? || s.uploads[id].pc.Compensating?
    ensures CanStillChange(e, s, id)
  {
    hide Path;
    var now := OtherThan(s.world.tables.requests[id].completedAt);
    var steps, t := Compensate(e, s, id, now);
    assert t.world.tables.requests[id].completedAt == Some(now);
  }

  /** The row of an upload is final exactly when its request handler is done and its message, if any,
      is acknowledged or dead-lettered. */
  lemma FinalExactlyWhenClosed(e: Engine, before: seq<Step>, id: Id)
    requires IsRun(e, INITIAL, before) && OrderlyRun(before)
    requires id in After(e, INITIAL, before).uploads
    ensures Closed(After(e, INITIAL, before), id) <==> !CanStillChange(e, After(e, INITIAL, before), id)
  {
    var s := After(e, INITIAL, before);
    TidyFromTheStart(e, before);
    TidyUpload(e, s, id);
    hide BrokerOk, UploadOk, UploadsOk, MessagesOk, TablesOk, WorkersOk, AllAttended, SameRow;
    if Closed(s, id) {
      forall steps, t | Path(e, s, steps, t) ensures SameRow(s, t, id) {
        Finality(e, s, steps, id);
      }
    } else if s.uploads[id].pc.Putting? || s.uploads[id].pc.Inserting? {
      RowAppears(e, s, id);
    } else if s.uploads[id].pc.Finished? {
      UnsettledCanChange(e, s, id);
    } else {
      CompensationCanChange(e, s, id);
    }
  }

  // ---- when a terminal status is terminal ------------------------------------

  /** Some continuation shows another status for id. */
  ghost predicate StatusCanChange(e: Engine, s: State, id: Id)
    requires id in s.world.tables.requests
  {
    exists steps, t :: Path(e, s, steps, t) && !HasStatus(t, id, s.world.tables.requests[id].status)
  }

  /** The message is still the workers' to handle, or the backend may yet fail a completed row. */
  predicate AtRisk(s: State, id: Id)
    requires id in s.uploads && id in s.world.tables.requests
  {
    || Unsettled(s, id)
    || (HasStatus(s, id, Completed) && (s.uploads[id].pc.Confirming? || s.uploads[id].pc.Compensating?))
  }

  /** Either risk ends at a status that is not the completed or failed one before. */
  lemma RiskShows(e: Engine, s: State, id: Id) returns (steps: seq<Step>, t: State)
    requires Tidy(e, s) && id in s.uploads && TerminalRow(s, id) && AtRisk(s, id)
    ensures Path(e, s, steps, t) && id in t.world.tables.requests
    ensures t.world.tables.requests[id].status != s.world.tables.requests[id].status
    ensures t.world.tables.results == s.world.tables.results
  {
    TidyUpload(e, s, id);
    hide Path, Tidy, UploadOk, Unsettled;
    if Unsettled(s, id) {
      var w;
      steps, t, w := Claim(e, s, id, 0);
    } else {
      steps, t := Compensate(e, s, id, 0);
    }
  }

  lemma RiskIsReal(e: Engine, s: State, id: Id)
    requires Tidy(e, s) && id in s.uploads && TerminalRow(s, id) && AtRisk(s, id)
    ensures StatusCanChange(e, s, id)
  {
    hide Path, Tidy, AtRisk;
    var steps, t := RiskShows(e, s, id);
    assert !HasStatus(t, id, s.world.tables.requests[id].status);
  }

  // ---- an upload with nothing left to do but report ---------------------------

  /** A worker will still handle the upload's message, or its request handler may still publish it. */
  predicate AwaitsWork(s: State, id: Id)
    requires id in s.uploads
  {
    NotYetQueued(s.uploads[id].pc) || Unsettled(s, id)
  }

  /** From then on no worker writes the row, ... */
  lemma WorkedOffHandle(e: Engine, s: State, step: Step, id: Id)
    requires Tidy(e, s) && Enabled(e, s, step) && id in s.uploads && !AwaitsWork(s, id)
    ensures !(step.Handle? && WritesRow(s, step.w, id))
    ensures Unsettled(Apply(e, s, step), id) && s.uploads[id].msg.Some? ==>
              Apply(e, s, step).uploads[id].msg != s.uploads[id].msg
  {
    hide UploadsOk, MessagesOk, TablesOk, WorkersOk, AllAttended;
    if s.uploads[id].msg.Some? { SettledStays(e, s, step, s.uploads[id].msg.value); }
    if step.Handle? && WritesRow(s, step.w, id) {
      WriterHoldsItsMessage(e, s, step.w, id);
    }
  }

  /** ... and the request handler publishes nothing more. */
  lemma HandlerMovesOn(e: Engine, s: State, step: Step, id: Id)
    requires Enabled(e, s, step) && id in s.uploads && !NotYetQueued(s.uploads[id].pc)
    ensures id in Apply(e, s, step).uploads && !NotYetQueued(Apply(e, s, step).uploads[id].pc)
    ensures Apply(e, s, step).uploads[id].msg == s.uploads[id].msg
  {
  }

  lemma LastWriteIsFailure(e: Engine, s: State, step: Step, id: Id)
    requires Enabled(e, s, step) && id in s.uploads && UploadOk(s, id) && !NotYetQueued(s.uploads[id].pc)
    requires step.Create? && step.id == id && CreateWrites(s, id)
    ensures SameRow(s, Apply(e, s, step), id)
            || (HasStatus(Apply(e, s, step), id, Failed)
                && Apply(e, s, step).world.tables.results == s.world.tables.results)
  {
  }

  /** So the only write left is the compensation of a lost confirmation. */
  lemma WorkedOffStep(e: Engine, s: State, step: Step, id: Id)
    requires Tidy(e, s) && Enabled(e, s, step) && id in s.uploads && !AwaitsWork(s, id)
    ensures id in Apply(e, s, step).uploads && !AwaitsWork(Apply(e, s, step), id)
    ensures SameRow(s, Apply(e, s, step), id)
            || (HasStatus(Apply(e, s, step), id, Failed)
                && Apply(e, s, step).world.tables.results == s.world.tables.results)
  {
    TidyUpload(e, s, id);
    hide Enabled, Apply, BrokerOk, AllAttended, MessagesOk, TablesOk, WorkersOk, UploadOk, SameRow, WritesRow;
    WorkedOffHandle(e, s, step, id);
    HandlerMovesOn(e, s, step, id);
    OnlyWriters(e, s, step, id);
    if step.Create? && step.id == id && CreateWrites(s, id) {
      LastWriteIsFailure(e, s, step, id);
    }
  }

  /** What stays true of such an upload: no result appears, a failed row stays failed, and an error
      is never seen at another status if it is not now. */
  lemma {:induction false} WorkedOffStays(e: Engine, s: State, steps: seq<Step>, t: State, id: Id)
    requires Tidy(e, s) && Path(e, s, steps, t) && id in s.uploads && !AwaitsWork(s, id)
    ensures id in t.world.tables.results <==> id in s.world.tables.results
    ensures HasStatus(s, id, Failed) ==> HasStatus(t, id, Failed)
    ensures ErrorOnlyWhenFailed(s.world.tables, id) ==> ErrorOnlyWhenFailed(t.world.tables, id)
    decreases |steps|
  {
    hide BrokerOk, UploadsOk, MessagesOk, TablesOk, WorkersOk, AllAttended, AwaitsWork;
    if steps != [] {
      assert OrderlyStep(steps[0]);
      WorkedOffStep(e, s, steps[0], id);
      StepKeepsSafe(e, s, steps[0]);
      StepAttends(e, s, steps[0]);
      assert OrderlyRun(steps[1..]);
      WorkedOffStays(e, Apply(e, s, steps[0]), steps[1..], t, id);
    }
  }

  lemma NoRiskMeansFinal(e: Engine, s: State, steps: seq<Step>, t: State, id: Id)
    requires Tidy(e, s) && Path(e, s, steps, t)
    requires id in s.uploads && TerminalRow(s, id) && !AtRisk(s, id)
    ensures HasStatus(t, id, s.world.tables.requests[id].status)
  {
    assert UploadOk(s, id) && RowOk(s, id);
    hide BrokerOk, AllAttended, UploadsOk, MessagesOk, TablesOk, WorkersOk;
    if s.uploads[id].pc.Finished? {
      Finality(e, s, steps, id);
    } else {
      WorkedOffStays(e, s, steps, t, id);
    }
  }

  /** A terminal status is really terminal exactly when the message is settled and no backend handler
      can still fail a completed row. */
  lemma TerminalExactlyWhenSettled(e: Engine, before: seq<Step>, id: Id)
    requires IsRun(e, INITIAL, before) && OrderlyRun(before) && TerminalRow(After(e, INITIAL, before), id)
    ensures var s := After(e, INITIAL, before);
            id in s.uploads && (StatusCanChange(e, s, id) <==> AtRisk(s, id))
  {
    var s := After(e, INITIAL, before);
    TidyFromTheStart(e, before);
    RowsHaveUploads(e, s);
    hide Tidy, Safe, AllAttended, AtRisk, Path;
    if AtRisk(s, id) {
      RiskIsReal(e, s, id);
    } else {
      forall steps, t | Path(e, s, steps, t) ensures HasStatus(t, id, s.world.tables.requests[id].status) {
        NoRiskMeansFinal(e, s, steps, t, id);
      }
    }
  }

  // ---- "populated only when status = 'failed'" --------------------------------

  /** Some continuation shows an error on a row that is not failed. */
  ghost predicate ErrorCommentBreaks(e: Engine, s: State, id: Id) {
    exists steps, t :: Path(e, s, steps, t) && !ErrorOnlyWhenFailed(t.world.tables, id)
  }

  lemma UnsettledBreaksErrorComment(e: Engine, s: State, id: Id) returns (steps: seq<Step>, t: State)
    requires Tidy(e, s) && Unsettled(s, id)
    ensures Path(e, s, steps, t) && !ErrorOnlyWhenFailed(t.world.tables, id)
  {
    hide Path, Tidy;
    var a, s1, w := Claim(e, s, id, 0);
    var b, s2 := Break(e, s1, w, id, 0);
    WorkerIsUnsettled(e, s2, w, id, DeadLettering(true));
    var c;
    c, t, w := Claim(e, s2, id, 0);
    PathThen(e, s, a, s1, b, s2);
    PathThen(e, s, a + b, s2, c, t);
    steps := a + b + c;
  }

  lemma WorkBreaksErrorComment(e: Engine, s: State, id: Id)
    requires Tidy(e, s) && id in s.uploads && AwaitsWork(s, id)
    ensures ErrorCommentBreaks(e, s, id)
  {
    hide Path, Unsettled, BrokerOk, UploadsOk, MessagesOk, TablesOk, WorkersOk, AllAttended;
    if Unsettled(s, id) {
      var steps, t := UnsettledBreaksErrorComment(e, s, id);
    } else {
      var a, u := Publish(e, s, id);
      PathKeepsTidy(e, s, a, u);
      var b, t := UnsettledBreaksErrorComment(e, u, id);
      PathThen(e, s, a, u, b, t);
    }
  }

  /** The error column keeps its comment for good exactly when it keeps it now, the message (if any)
      is settled, and the request handler has no message left to publish. */
  lemma ErrorCommentExactly(e: Engine, before: seq<Step>, id: Id)
    requires IsRun(e, INITIAL, before) && OrderlyRun(before)
    requires id in After(e, INITIAL, before).uploads
    ensures var s := After(e, INITIAL, before);
            !ErrorCommentBreaks(e, s, id) <==> ErrorOnlyWhenFailed(s.world.tables, id) && !AwaitsWork(s, id)
  {
    var s := After(e, INITIAL, before);
    TidyFromTheStart(e, before);
    EmptyPath(e, s);
    hide Tidy, Path, AwaitsWork;
    if AwaitsWork(s, id) {
      WorkBreaksErrorComment(e, s, id);
    } else if ErrorOnlyWhenFailed(s.world.tables, id) {
      forall steps, t | Path(e, s, steps, t) ensures ErrorOnlyWhenFailed(t.world.tables, id) {
        WorkedOffStays(e, s, steps, t, id);
      }
    }
  }

  // ---- "non-null only once status is 'completed'" ------------------------------

  /** Some continuation shows a prediction at a status other than `completed`. */
  ghost predicate PredictionCommentBreaks(e: Engine, s: State, id: Id) {
    exists steps, t :: Path(e, s, steps, t) && !PredictionOnlyWhenCompleted(t.world.tables, id)
  }

  /** With a result: the row is not, or will not stay, completed. Without one: the engine can answer
      the upload's bytes and a worker may still be asked to. */
  predicate PredictionAtRisk(e: Engine, s: State, id: Id)
    requires id in s.uploads && (id in s.world.tables.results ==> id in s.world.tables.requests)
  {
    if id in s.world.tables.results then !HasStatus(s, id, Completed) || AtRisk(s, id)
    else AwaitsWork(s, id) && Answerable(e, s.uploads[id].bytes)
  }

  lemma ShownOutOfPlace(e: Engine, s: State, steps: seq<Step>, t: State, id: Id)
    requires Path(e, s, steps, t) && id in t.world.tables.requests && id in t.world.tables.results
    requires t.world.tables.requests[id].status != Completed
    ensures PredictionCommentBreaks(e, s, id)
  {
  }

  lemma StoredResultBreaks(e: Engine, s: State, id: Id)
    requires Tidy(e, s) && id in s.uploads && id in s.world.tables.requests && id in s.world.tables.results
    requires s.world.tables.requests[id].status == Completed ==> TerminalRow(s, id) && AtRisk(s, id)
    ensures PredictionCommentBreaks(e, s, id)
  {
    hide *;
    if s.world.tables.requests[id].status == Completed {
      var steps, t := RiskShows(e, s, id);
      ShownOutOfPlace(e, s, steps, t, id);
    } else {
      EmptyPath(e, s);
      ShownOutOfPlace(e, s, [], s, id);
    }
  }

  lemma UnsettledBreaksPredictionComment(e: Engine, s: State, id: Id) returns (steps: seq<Step>, t: State)
    requires Tidy(e, s) && Unsettled(s, id) && Answerable(e, s.uploads[id].bytes)
    ensures Path(e, s, steps, t) && !PredictionOnlyWhenCompleted(t.world.tables, id)
  {
    hide Path, Tidy, Answerable;
    var a, s1, w := Claim(e, s, id, 0);
    var b, s2 := Answer(e, s1, w, id);
    WorkerIsUnsettled(e, s2, w, id, Acking);
    var c;
    c, t, w := Claim(e, s2, id, 0);
    PathThen(e, s, a, s1, b, s2);
    PathThen(e, s, a + b, s2, c, t);
    steps := a + b + c;
  }

  lemma WorkBreaksPredictionComment(e: Engine, s: State, id: Id)
    requires Tidy(e, s) && id in s.uploads && AwaitsWork(s, id) && Answerable(e, s.uploads[id].bytes)
    ensures PredictionCommentBreaks(e, s, id)
  {
    hide Path, Unsettled, Answerable, BrokerOk, UploadsOk, MessagesOk, TablesOk, WorkersOk, AllAttended;
    if Unsettled(s, id) {
      var steps, t := UnsettledBreaksPredictionComment(e, s, id);
    } else {
      var a, u := Publish(e, s, id);
      PathKeepsTidy(e, s, a, u);
      var b, t := UnsettledBreaksPredictionComment(e, u, id);
      PathThen(e, s, a, u, b, t);
    }
  }

  /** The bytes of an upload stay what they were. */
  lemma {:induction false} BytesStay(e: Engine, s: State, steps: seq<Step>, id: Id)
    requires Safe(e, s) && IsRun(e, s, steps) && id in s.uploads
    ensures id in After(e, s, steps).uploads && After(e, s, steps).uploads[id].bytes == s.uploads[id].bytes
    decreases |steps|
  {
    if steps != [] {
      StepKeepsSafe(e, s, steps[0]);
      BytesStay(e, Apply(e, s, steps[0]), steps[1..], id);
    }
  }

  lemma ResultsAreAnswerable(e: Engine, s: State, id: Id)
    requires Safe(e, s)
    ensures id in s.world.tables.results ==> id in s.uploads && Answerable(e, s.uploads[id].bytes)
  {
  }

  lemma NoResultToShow(e: Engine, s: State, steps: seq<Step>, t: State, id: Id)
    requires Tidy(e, s) && Path(e, s, steps, t) && id in s.uploads && id !in s.world.tables.results
    requires !AwaitsWork(s, id) || !Answerable(e, s.uploads[id].bytes)
    ensures id !in t.world.tables.results
  {
    PathKeepsTidy(e, s, steps, t);
    if AwaitsWork(s, id) {
      BytesStay(e, s, steps, id);
      ResultsAreAnswerable(e, t, id);
    } else {
      WorkedOffStays(e, s, steps, t, id);
    }
  }

  lemma NoPredictionRisk(e: Engine, s: State, steps: seq<Step>, t: State, id: Id)
    requires Tidy(e, s) && Path(e, s, steps, t) && id in s.uploads
    requires id in s.world.tables.results ==> id in s.world.tables.requests
    requires !PredictionAtRisk(e, s, id)
    ensures PredictionOnlyWhenCompleted(t.world.tables, id)
  {
    hide Path, Tidy, AtRisk, AwaitsWork, Answerable;
    if id in s.world.tables.results {
      NoRiskMeansFinal(e, s, steps, t, id);
    } else {
      NoResultToShow(e, s, steps, t, id);
    }
  }

  /** The prediction of the read keeps its comment for good exactly when nothing puts it at risk. */
  lemma PredictionCommentExactly(e: Engine, before: seq<Step>, id: Id)
    requires IsRun(e, INITIAL, before) && OrderlyRun(before)
    requires id in After(e, INITIAL, before).uploads
    ensures var s := After(e, INITIAL, before);
            && (id in s.world.tables.results ==> id in s.world.tables.requests)
            && (PredictionCommentBreaks(e, s, id) <==> PredictionAtRisk(e, s, id))
  {
    var s := After(e, INITIAL, before);
    TidyFromTheStart(e, before);
    if id in s.world.tables.results { assert ResultOk(e, s, id); }
    hide Tidy, Path, AtRisk, AwaitsWork, Answerable;
    if !PredictionAtRisk(e, s, id) {
      forall steps, t | Path(e, s, steps, t) ensures PredictionOnlyWhenCompleted(t.world.tables, id) {
        NoPredictionRisk(e, s, steps, t, id);
      }
    } else if id in s.world.tables.results {
      StoredResultBreaks(e, s, id);
    } else {
      WorkBreaksPredictionComment(e, s, id);
    }
  }
}
