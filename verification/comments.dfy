/** The remaining comments about the tables, under all faults: each with the exact condition under
    which some continuation breaks it. */
module Comments {
  import opened Domain
  import opened Database
  import opened Broker
  import opened Worker
  import opened Upload
  import opened Pipeline
  import opened Safety
  import opened Orderly
  import opened Truthful
  import opened Moves
  import opened Exact
  import opened Frozen

  // ---- "only ever reads afterwards" --------------------------------------------

  /** Some continuation contains a call of the request handler of id that changes its row. */
  ghost predicate BackendWritesAgain(e: Engine, s: State, id: Id) {
    exists steps, t, c :: Leads(e, s, steps, t) && BackendWrites(e, t, id, c)
  }

  /** The call writes a row that is already there. */
  predicate BackendWrites(e: Engine, s: State, id: Id, c: CreateChoice) {
    && Enabled(e, s, Create(id, c))
    && id in s.world.tables.requests
    && !SameRow(s, Apply(e, s, Create(id, c)), id)
  }

  lemma {:induction false} FinishedStays(e: Engine, s: State, steps: seq<Step>, t: State, id: Id)
    requires Leads(e, s, steps, t) && id in s.uploads && s.uploads[id].pc.Finished?
    ensures id in t.uploads && t.uploads[id].pc.Finished?
    decreases |steps|
  {
    if steps != [] {
      FinishedStep(e, s, steps[0], id);
      FinishedStays(e, Apply(e, s, steps[0]), steps[1..], t, id);
    }
  }

  lemma FinishedStep(e: Engine, s: State, step: Step, id: Id)
    requires Enabled(e, s, step) && id in s.uploads && s.uploads[id].pc.Finished?
    ensures id in Apply(e, s, step).uploads && Apply(e, s, step).uploads[id].pc.Finished?
  {
  }

  /** A handler on its way to the compensation. */
  lemma ReachCompensating(e: Engine, s: State, id: Id) returns (steps: seq<Step>, t: State)
    requires id in s.uploads && UploadOk(s, id) && id in s.world.tables.requests && !s.uploads[id].pc.Finished?
    ensures Leads(e, s, steps, t) && id in t.uploads && t.uploads[id].pc.Compensating?
    ensures t.world.tables == s.world.tables
  {
    hide Legal, Effect, NextPc;
    steps, t := [], s;
    if s.uploads[id].pc.Publishing? {
      steps, t := Extend(e, s, steps, t, Create(id, PublishReplies(false)));
    } else if s.uploads[id].pc.Confirming? {
      steps, t := Extend(e, s, steps, t, Create(id, ConfirmReplies(false)));
    }
  }

  lemma CompensationWritesRow(e: Engine, s: State, id: Id)
    requires id in s.uploads && IsUuid(id) && id in s.world.tables.requests && s.uploads[id].pc.Compensating?
    ensures BackendWrites(e, s, id, SqlReplies(true, true, OtherThan(s.world.tables.requests[id].completedAt)))
  {
    var now := OtherThan(s.world.tables.requests[id].completedAt);
    var t := Apply(e, s, Create(id, SqlReplies(true, true, now)));
    assert t.world.tables.requests[id].completedAt == Some(now);
  }

  /** In every reachable state, whatever faults may follow: the backend writes an inserted row again in
      some continuation exactly when the request handler that inserted it is not done. */
  lemma BackendOnlyReadsExactlyWhenDone(e: Engine, s: State, id: Id)
    requires Reachable(e, s) && id in s.world.tables.requests
    ensures id in s.uploads && (BackendWritesAgain(e, s, id) <==> !s.uploads[id].pc.Finished?)
  {
    ReachableIsSafe(e, s);
    RowsHaveUploads(e, s);
    SafeUpload(e, s, id);
    assert IsUuid(id);
    hide Safe, Leads, UploadOk, BackendWrites;
    if s.uploads[id].pc.Finished? {
      forall steps, t, c | Leads(e, s, steps, t) ensures !BackendWrites(e, t, id, c) {
        FinishedStays(e, s, steps, t, id);
        DoneWritesNothing(e, t, id, c);
      }
    } else {
      var steps, t := ReachCompensating(e, s, id);
      CompensationWritesRow(e, t, id);
    }
  }

  lemma DoneWritesNothing(e: Engine, s: State, id: Id, c: CreateChoice)
    requires id in s.uploads && s.uploads[id].pc.Finished?
    ensures !BackendWrites(e, s, id, c)
  {
  }

  // ---- "non-null only once status is 'completed'" --------------------------------

  /** Some continuation, with any fault, shows a prediction at a status other than `completed`. */
  ghost predicate PredictionEverMisplaced(e: Engine, s: State, id: Id) {
    exists steps, t :: Leads(e, s, steps, t) && !PredictionOnlyWhenCompleted(t.world.tables, id)
  }

  /** The process may still come to save an answer for m. */
  predicate MayAnswer(p: Process, m: MsgId) {
    WillStart(p, m)
    || (InCallbackFor(p, m) && (p.handler.value.pc.Marking? || Inferring(p.handler.value.pc)))
  }

  predicate AnyoneMayAnswer(s: State, id: Id)
    requires id in s.uploads && s.uploads[id].msg.Some?
  {
    exists w :: w in s.workers && MayAnswer(s.workers[w], s.uploads[id].msg.value)
  }

  /** A worker will still handle the message, or may be at it with a stale delivery. */
  predicate WorkAhead(s: State, id: Id)
    requires id in s.uploads
  {
    AwaitsWork(s, id) || (s.uploads[id].msg.Some? && AnyoneMayAnswer(s, id))
  }

  /** With a result: the row is not, or may not stay, completed. Without one: the engine can answer the
      upload's bytes and a worker may still ask it. */
  predicate PredictionEverAtRisk(e: Engine, s: State, id: Id)
    requires id in s.uploads && (id in s.world.tables.results ==> id in s.world.tables.requests)
  {
    if id in s.world.tables.results then !HasStatus(s, id, Completed) || EverAtRisk(e, s, id)
    else Answerable(e, s.uploads[id].bytes) && WorkAhead(s, id)
  }

  lemma {:induction false} ResultsStay(e: Engine, s: State, steps: seq<Step>, t: State, id: Id)
    requires Safe(e, s) && Leads(e, s, steps, t) && id in s.world.tables.results
    ensures id in t.world.tables.results && id in t.world.tables.requests
    decreases |steps|
  {
    if steps == [] {
      assert ResultOk(e, s, id);
    } else {
      StepKeepsSafe(e, s, steps[0]);
      ResultsStay(e, Apply(e, s, steps[0]), steps[1..], t, id);
    }
  }

  lemma Misplaced(e: Engine, s: State, steps: seq<Step>, t: State, id: Id)
    requires Leads(e, s, steps, t) && id in t.world.tables.requests && id in t.world.tables.results
    requires t.world.tables.requests[id].status != Completed
    ensures PredictionEverMisplaced(e, s, id)
  {
    assert !PredictionOnlyWhenCompleted(t.world.tables, id);
  }

  lemma StoredResultMisplaced(e: Engine, s: State, id: Id)
    requires Safe(e, s) && id in s.uploads && id in s.world.tables.requests && id in s.world.tables.results
    requires !HasStatus(s, id, Completed) || EverAtRisk(e, s, id)
    ensures PredictionEverMisplaced(e, s, id)
  {
    hide Safe, EverAtRisk, PredictionEverMisplaced;
    assert Leads(e, s, [], s);
    if HasStatus(s, id, Completed) {
      hide Leads;
      EverRiskIsReal(e, s, id);
      var steps, t :| Leads(e, s, steps, t) && !HasStatus(t, id, Completed);
      ResultsStay(e, s, steps, t, id);
      Misplaced(e, s, steps, t, id);
    } else {
      Misplaced(e, s, [], s, id);
    }
  }

  /** From the download on: save the answer, then let the ack raise. */
  lemma AnswerThenFail(e: Engine, s: State, w: WorkerId, id: Id)
    requires Safe(e, s) && id in s.uploads && s.uploads[id].msg.Some? && Answerable(e, s.uploads[id].bytes)
    requires w in s.workers && InCallbackFor(s.workers[w], s.uploads[id].msg.value)
    requires Inferring(s.workers[w].handler.value.pc)
    ensures PredictionEverMisplaced(e, s, id)
  {
    hide Safe, Leads, Answerable, PredictionEverMisplaced, UploadOk;
    var a, u := InferringCanComplete(e, s, w, id);
    LeadsSafely(e, s, a, u, id);
    var b, t, message := CallbackCanFail(e, u, w, id, 0);
    RunThen(e, s, a, u, b, t);
    Misplaced(e, s, a + b, t, id);
  }

  lemma MisplacedLater(e: Engine, s: State, steps: seq<Step>, t: State, id: Id)
    requires Leads(e, s, steps, t) && PredictionEverMisplaced(e, t, id)
    ensures PredictionEverMisplaced(e, s, id)
  {
    var more, u :| Leads(e, t, more, u) && !PredictionOnlyWhenCompleted(u.world.tables, id);
    RunThen(e, s, steps, t, more, u);
  }

  lemma AnswererMisplaces(e: Engine, s: State, w: WorkerId, id: Id)
    requires Safe(e, s) && id in s.uploads && s.uploads[id].msg.Some? && Answerable(e, s.uploads[id].bytes)
    requires w in s.workers && MayAnswer(s.workers[w], s.uploads[id].msg.value)
    ensures PredictionEverMisplaced(e, s, id)
  {
    hide Safe, Leads, Answerable, PredictionEverMisplaced, UploadOk, WillStart;
    if WillStart(s.workers[w], s.uploads[id].msg.value) {
      var a, u := WaitingCanClaim(e, s, w, id, 0);
      LeadsSafely(e, s, a, u, id);
      AnswerThenFail(e, u, w, id);
      MisplacedLater(e, s, a, u, id);
    } else if s.workers[w].handler.value.pc.Marking? {
      var a, u := CallbackCanClaim(e, s, w, id, 0);
      LeadsSafely(e, s, a, u, id);
      AnswerThenFail(e, u, w, id);
      MisplacedLater(e, s, a, u, id);
    } else {
      AnswerThenFail(e, s, w, id);
    }
  }

  lemma UnsettledMisplaces(e: Engine, s: State, id: Id)
    requires Safe(e, s) && Unsettled(s, id) && Answerable(e, s.uploads[id].bytes)
    ensures PredictionEverMisplaced(e, s, id)
  {
    hide Safe, Leads, Answerable, PredictionEverMisplaced, UploadOk;
    var a, u, w := Reclaim(e, s, id, 0);
    LeadsSafely(e, s, a, u, id);
    AnswerThenFail(e, u, w, id);
    MisplacedLater(e, s, a, u, id);
  }

  lemma WorkMisplaces(e: Engine, s: State, id: Id)
    requires Safe(e, s) && id in s.uploads && Answerable(e, s.uploads[id].bytes) && WorkAhead(s, id)
    ensures PredictionEverMisplaced(e, s, id)
  {
    hide Safe, Leads, Path, Answerable, PredictionEverMisplaced, UploadOk, Unsettled, MayAnswer, NotYetQueued;
    if Unsettled(s, id) {
      UnsettledMisplaces(e, s, id);
    } else if NotYetQueued(s.uploads[id].pc) {
      var a, u := Publish(e, s, id);
      PathLeads(e, s, a, u);
      LeadsSafely(e, s, a, u, id);
      UnsettledMisplaces(e, u, id);
      MisplacedLater(e, s, a, u, id);
    } else {
      var w :| w in s.workers && MayAnswer(s.workers[w], s.uploads[id].msg.value);
      AnswererMisplaces(e, s, w, id);
    }
  }

  // ---- without work ahead no result appears ---------------------------------------

  lemma StaysAnswerless(e: Engine, s: State, step: Step, m: MsgId, w: WorkerId)
    requires Enabled(e, s, step) && m !in s.world.broker.queue
    requires w in Apply(e, s, step).workers
    requires w in s.workers ==> !MayAnswer(s.workers[w], m)
    ensures !MayAnswer(Apply(e, s, step).workers[w], m)
  {
    if w in s.workers && step.Start? && step.w == w {
      assert step.d in s.workers[w].inbox;
    }
  }

  lemma NoWorkStays(e: Engine, s: State, step: Step, id: Id)
    requires Safe(e, s) && Enabled(e, s, step) && id in s.uploads && !WorkAhead(s, id)
    ensures id in Apply(e, s, step).uploads && !WorkAhead(Apply(e, s, step), id)
  {
    var s' := Apply(e, s, step);
    HandlerMovesOn(e, s, step, id);
    if s.uploads[id].msg.Some? {
      var m := s.uploads[id].msg.value;
      SettledStays(e, s, step, m);
      SettledIsNotQueued(s, m);
      hide BrokerOk, UploadsOk, MessagesOk, TablesOk, WorkersOk, Enabled, Apply, MayAnswer, SettledMsg;
      forall w | w in s'.workers ensures !MayAnswer(s'.workers[w], m) {
        StaysAnswerless(e, s, step, m, w);
      }
    }
  }

  lemma CreateSavesNothing(e: Engine, s: State, id: Id, c: CreateChoice)
    requires Enabled(e, s, Create(id, c))
    ensures Apply(e, s, Create(id, c)).world.tables.results == s.world.tables.results
  {
  }

  lemma NoWorkNoResult(e: Engine, s: State, step: Step, id: Id)
    requires Safe(e, s) && Enabled(e, s, step) && id in s.uploads && !WorkAhead(s, id)
    ensures id in Apply(e, s, step).world.tables.results ==> id in s.world.tables.results
  {
    hide BrokerOk, UploadOk, WorkersOk, MessagesOk, TablesOk, Enabled, MayAnswer;
    OnlyWriters(e, s, step, id);
    if step.Handle? && WritesRow(s, step.w, id) {
      LateStepSavesNothing(e, s, step, id);
    } else if step.Create? {
      CreateSavesNothing(e, s, step.id, step.create);
    }
  }

  lemma LateStepSavesNothing(e: Engine, s: State, step: Step, id: Id)
    requires Enabled(e, s, step) && step.Handle? && WritesRow(s, step.w, id)
    requires !MayAnswer(s.workers[step.w], s.uploads[id].msg.value)
    ensures Apply(e, s, step).world.tables.results == s.world.tables.results
  {
    hide Legal, Effect, NextPc, MayAnswer;
    assert Handled(e, s, Apply(e, s, step), step.w, step.choice);
    LateWriteSavesNothing(e, s, Apply(e, s, step), step.w, step.choice, id);
  }

  lemma LateWriteSavesNothing(e: Engine, s: State, s': State, w: WorkerId, c: Choice, id: Id)
    requires Handled(e, s, s', w, c) && WritesRow(s, w, id)
    requires !MayAnswer(s.workers[w], s.uploads[id].msg.value)
    ensures s'.world.tables.results == s.world.tables.results
  {
  }

  lemma {:induction false} NoWorkNoResultEver(e: Engine, s: State, steps: seq<Step>, t: State, id: Id)
    requires Safe(e, s) && Leads(e, s, steps, t) && id in s.uploads && !WorkAhead(s, id)
    ensures id in t.world.tables.results ==> id in s.world.tables.results
    decreases |steps|
  {
    hide Safe, WorkAhead;
    if steps != [] {
      NoWorkStays(e, s, steps[0], id);
      NoWorkNoResult(e, s, steps[0], id);
      StepKeepsSafe(e, s, steps[0]);
      NoWorkNoResultEver(e, Apply(e, s, steps[0]), steps[1..], t, id);
    }
  }

  lemma NeverMisplaced(e: Engine, s: State, steps: seq<Step>, t: State, id: Id)
    requires Safe(e, s) && Leads(e, s, steps, t) && id in s.uploads
    requires id in s.world.tables.results ==> id in s.world.tables.requests
    requires !PredictionEverAtRisk(e, s, id)
    ensures PredictionOnlyWhenCompleted(t.world.tables, id)
  {
    hide EverAtRisk, WorkAhead, Answerable, Leads;
    if id in s.world.tables.results {
      hide Safe, Retired, FailedForGood;
      NoRiskMeansSettled(e, s, id);
      RetiredIsFrozen(e, s, steps, t, id);
    } else {
      NoResultEver(e, s, steps, t, id);
    }
  }

  lemma NoResultEver(e: Engine, s: State, steps: seq<Step>, t: State, id: Id)
    requires Safe(e, s) && Leads(e, s, steps, t) && id in s.uploads && id !in s.world.tables.results
    requires !Answerable(e, s.uploads[id].bytes) || !WorkAhead(s, id)
    ensures id !in t.world.tables.results
  {
    hide Safe, WorkAhead, Answerable;
    if WorkAhead(s, id) {
      BytesStay(e, s, steps, id);
      RunKeepsSafe(e, s, steps);
      ResultsAreAnswerable(e, t, id);
    } else {
      NoWorkNoResultEver(e, s, steps, t, id);
    }
  }

  /** In every reachable state, whatever faults may follow: some continuation shows a prediction out of
      place exactly when one is at risk. */
  lemma PredictionMisplacedExactly(e: Engine, s: State, id: Id)
    requires Reachable(e, s) && id in s.uploads
    ensures id in s.world.tables.results ==> id in s.world.tables.requests
    ensures PredictionEverMisplaced(e, s, id) <==> PredictionEverAtRisk(e, s, id)
  {
    ReachableIsSafe(e, s);
    if id in s.world.tables.results { assert ResultOk(e, s, id); }
    hide Safe, Leads, EverAtRisk, WorkAhead, Answerable;
    if !PredictionEverAtRisk(e, s, id) {
      forall steps, t | Leads(e, s, steps, t) ensures PredictionOnlyWhenCompleted(t.world.tables, id) {
        NeverMisplaced(e, s, steps, t, id);
      }
    } else if id in s.world.tables.results {
      StoredResultMisplaced(e, s, id);
    } else {
      WorkMisplaces(e, s, id);
    }
  }

  // ---- "populated only when status = 'failed'" --------------------------------------

  /** Some continuation, with any fault, shows an error on a row that is not failed. */
  ghost predicate ErrorEverMisplaced(e: Engine, s: State, id: Id) {
    exists steps, t :: Leads(e, s, steps, t) && !ErrorOnlyWhenFailed(t.world.tables, id)
  }

  predicate Blocked(p: Process) {
    p.handler.Some? && Over(p.handler.value.pc)
  }

  /** A stored delivery that the process will get to. */
  predicate HeldBack(p: Process, d: Delivery) {
    d in p.inbox && !Blocked(p)
  }

  predicate InCallbackWith(p: Process, d: Delivery) {
    p.handler.Some? && p.handler.value.delivery == d
  }

  /** Delivery d, in process w, may still put the row of id back to `processing`. */
  predicate Claimer(s: State, id: Id, w: WorkerId, d: Delivery) {
    && w in s.workers && id in s.uploads && s.uploads[id].msg == Some(d.msg)
    && (HeldBack(s.workers[w], d)
        || (InCallbackWith(s.workers[w], d) && s.workers[w].handler.value.pc.Marking?))
  }

  /** It may still write the row at all. */
  predicate Writer(s: State, id: Id, w: WorkerId, d: Delivery) {
    && w in s.workers && id in s.uploads && s.uploads[id].msg == Some(d.msg)
    && (HeldBack(s.workers[w], d)
        || (InCallbackWith(s.workers[w], d) && MayWrite(s.workers[w].handler.value.pc)))
  }

  /** The row is failed, or the backend or another delivery may fail it before d claims it. */
  ghost predicate FailureFirst(s: State, id: Id, w: WorkerId, d: Delivery)
    requires id in s.uploads
  {
    || HasStatus(s, id, Failed)
    || s.uploads[id].pc.Confirming? || s.uploads[id].pc.Compensating?
    || exists x, f :: Writer(s, id, x, f) && (x != w || f != d)
  }

  ghost predicate FailThenClaim(s: State, id: Id)
    requires id in s.uploads
  {
    exists w, d :: Claimer(s, id, w, d) && FailureFirst(s, id, w, d)
  }

  /** The error is misplaced now, or a worker will still handle the message, or a failure may yet be
      followed by the claim of a stale delivery. */
  ghost predicate ErrorEverAtRisk(s: State, id: Id)
    requires id in s.uploads
  {
    !ErrorOnlyWhenFailed(s.world.tables, id) || AwaitsWork(s, id) || FailThenClaim(s, id)
  }

  lemma ErrorMisplacedLater(e: Engine, s: State, steps: seq<Step>, t: State, id: Id)
    requires Leads(e, s, steps, t) && ErrorEverMisplaced(e, t, id)
    ensures ErrorEverMisplaced(e, s, id)
  {
    var more, u :| Leads(e, t, more, u) && !ErrorOnlyWhenFailed(u.world.tables, id);
    RunThen(e, s, steps, t, more, u);
  }

  lemma ClaimedWithError(e: Engine, s: State, steps: seq<Step>, t: State, id: Id, now: Time)
    requires Leads(e, s, steps, t) && id in s.world.tables.requests
    requires s.world.tables.requests[id].errorMessage.Some?
    requires t.world.tables == AfterMarkProcessing(s.world.tables, id, now)
    ensures ErrorEverMisplaced(e, s, id)
  {
    assert !ErrorOnlyWhenFailed(t.world.tables, id);
  }

  /** A claim of a failed row leaves the error behind. */
  lemma ClaimMisplaces(e: Engine, s: State, w: WorkerId, d: Delivery, id: Id)
    requires Safe(e, s) && Claimer(s, id, w, d) && HasStatus(s, id, Failed)
    ensures ErrorEverMisplaced(e, s, id)
  {
    assert s.world.tables.requests[id].errorMessage.Some? by { assert RowOk(s, id); }
    hide Safe, Leads, ErrorEverMisplaced;
    if HeldBack(s.workers[w], d) {
      var a, u := WaitingCanStart(e, s, w, d, id);
      LeadsSafely(e, s, a, u, id);
      var b, t := CallbackCanClaim(e, u, w, id, 0);
      ClaimedWithError(e, u, b, t, id, 0);
      ErrorMisplacedLater(e, s, a, u, id);
    } else {
      var b, t := CallbackCanClaim(e, s, w, id, 0);
      ClaimedWithError(e, s, b, t, id, 0);
    }
  }

  /** The callback of x fails the row; every other delivery stays as it is. */
  lemma CallbackFails(e: Engine, s: State, x: WorkerId, id: Id) returns (steps: seq<Step>, t: State)
    requires Safe(e, s) && id in s.uploads && s.uploads[id].msg.Some?
    requires x in s.workers && InCallbackFor(s.workers[x], s.uploads[id].msg.value)
    requires MayWrite(s.workers[x].handler.value.pc)
    ensures Leads(e, s, steps, t) && HasStatus(t, id, Failed)
    ensures forall w, d :: Claimer(s, id, w, d) && !(w == x && InCallbackWith(s.workers[x], d)) ==> Claimer(t, id, w, d)
  {
    hide Safe, Leads;
    var message;
    steps, t, message := CallbackCanFail(e, s, x, id, 0);
  }

  lemma WriterFails(e: Engine, s: State, x: WorkerId, f: Delivery, id: Id) returns (steps: seq<Step>, t: State)
    requires Safe(e, s) && Writer(s, id, x, f)
    ensures Leads(e, s, steps, t) && HasStatus(t, id, Failed)
    ensures forall w, d :: Claimer(s, id, w, d) && (w != x || (d != f && HeldBack(s.workers[x], d))) ==>
              Claimer(t, id, w, d)
  {
    hide Safe, Leads;
    if HeldBack(s.workers[x], f) {
      var a, u := WaitingCanStart(e, s, x, f, id);
      LeadsSafely(e, s, a, u, id);
      var b;
      b, t := CallbackFails(e, u, x, id);
      RunThen(e, s, a, u, b, t);
      steps := a + b;
    } else {
      steps, t := CallbackFails(e, s, x, id);
    }
  }

  /** Of two deliveries that may write, one of which may claim, one can fail the row and leave the
      other to claim it. */
  lemma SecondMisplaces(e: Engine, s: State, w: WorkerId, d: Delivery, x: WorkerId, f: Delivery, id: Id)
    requires Safe(e, s) && Claimer(s, id, w, d) && Writer(s, id, x, f) && (x != w || f != d)
    ensures ErrorEverMisplaced(e, s, id)
  {
    hide Safe, Leads, ErrorEverMisplaced;
    var steps, t, g;
    if x == w && !HeldBack(s.workers[w], d) {
      // d is in the callback, about to claim, and f waits behind it: d fails, f claims
      steps, t := WriterFails(e, s, w, d, id);
      g := f;
    } else {
      steps, t := WriterFails(e, s, x, f, id);
      g := d;
    }
    LeadsSafely(e, s, steps, t, id);
    ClaimMisplaces(e, t, w, g, id);
    ErrorMisplacedLater(e, s, steps, t, id);
  }

  lemma CompensationMisplaces(e: Engine, s: State, w: WorkerId, d: Delivery, id: Id)
    requires Safe(e, s) && Claimer(s, id, w, d)
    requires s.uploads[id].pc.Confirming? || s.uploads[id].pc.Compensating?
    ensures ErrorEverMisplaced(e, s, id)
  {
    SafeUpload(e, s, id);
    hide Safe, Leads, Path, UploadOk, ErrorEverMisplaced;
    var a, u := Compensate(e, s, id, 0);
    PathLeads(e, s, a, u);
    LeadsSafely(e, s, a, u, id);
    ClaimMisplaces(e, u, w, d, id);
    ErrorMisplacedLater(e, s, a, u, id);
  }

  lemma StillUnsettled(e: Engine, s: State, id: Id)
    requires BrokerOk(s.world.broker) && id in s.uploads && s.uploads[id].msg.Some?
    requires s.uploads[id].msg.value in s.world.broker.unacked && s.uploads[id].msg.value in s.world.broker.messages
    ensures Unsettled(s, id)
  {
    assert Conserved(s.world.broker, s.uploads[id].msg.value);
  }

  lemma ReclaimMisplaces(e: Engine, s: State, id: Id)
    requires Safe(e, s) && Unsettled(s, id)
    requires id in s.world.tables.requests && s.world.tables.requests[id].errorMessage.Some?
    ensures ErrorEverMisplaced(e, s, id)
  {
    hide Safe, Leads, ErrorEverMisplaced, Unsettled;
    var a, t, w := Reclaim(e, s, id, 0);
    ClaimedWithError(e, s, a, t, id, 0);
  }

  /** An attempt that breaks leaves a failed row and a message still to be settled. */
  lemma AttemptBreaks(e: Engine, s: State, id: Id) returns (steps: seq<Step>, t: State)
    requires Safe(e, s) && Unsettled(s, id)
    ensures Leads(e, s, steps, t) && Safe(e, t) && Unsettled(t, id) && HasStatus(t, id, Failed)
  {
    hide Safe, Leads, UploadOk, BrokerOk;
    var a, u, w := Reclaim(e, s, id, 0);
    LeadsSafely(e, s, a, u, id);
    var b, message;
    b, t, message := CallbackCanFail(e, u, w, id, 0);
    LeadsSafely(e, u, b, t, id);
    RunThen(e, s, a, u, b, t);
    CallbackOf(e, t, w, id);
    SafeBroker(e, t);
    StillUnsettled(e, t, id);
    steps := a + b;
  }

  lemma SafeBroker(e: Engine, s: State)
    requires Safe(e, s)
    ensures BrokerOk(s.world.broker)
  {
  }

  lemma UnsettledMisplacesError(e: Engine, s: State, id: Id)
    requires Safe(e, s) && Unsettled(s, id)
    ensures ErrorEverMisplaced(e, s, id)
  {
    hide Leads, ErrorEverMisplaced, Unsettled, BrokerOk, UploadsOk, MessagesOk, WorkersOk;
    var a, u := AttemptBreaks(e, s, id);
    assert RowOk(u, id);
    ReclaimMisplaces(e, u, id);
    ErrorMisplacedLater(e, s, a, u, id);
  }

  lemma ErrorRiskIsReal(e: Engine, s: State, id: Id)
    requires Safe(e, s) && id in s.uploads && ErrorEverAtRisk(s, id)
    ensures ErrorEverMisplaced(e, s, id)
  {
    assert Leads(e, s, [], s);
    hide Safe, Leads, Path, Unsettled, UploadOk, NotYetQueued, Claimer, Writer;
    if !ErrorOnlyWhenFailed(s.world.tables, id) {
    } else if Unsettled(s, id) {
      UnsettledMisplacesError(e, s, id);
    } else if NotYetQueued(s.uploads[id].pc) {
      var a, u := Publish(e, s, id);
      PathLeads(e, s, a, u);
      LeadsSafely(e, s, a, u, id);
      UnsettledMisplacesError(e, u, id);
      ErrorMisplacedLater(e, s, a, u, id);
    } else {
      FailThenClaimIsReal(e, s, id);
    }
  }

  lemma FailThenClaimIsReal(e: Engine, s: State, id: Id)
    requires Safe(e, s) && id in s.uploads && FailThenClaim(s, id)
    ensures ErrorEverMisplaced(e, s, id)
  {
    hide Safe, ErrorEverMisplaced, Claimer, Writer;
    var w, d :| Claimer(s, id, w, d) && FailureFirst(s, id, w, d);
    if HasStatus(s, id, Failed) {
      ClaimMisplaces(e, s, w, d, id);
    } else if s.uploads[id].pc.Confirming? || s.uploads[id].pc.Compensating? {
      CompensationMisplaces(e, s, w, d, id);
    } else {
      var x, f :| Writer(s, id, x, f) && (x != w || f != d);
      SecondMisplaces(e, s, w, d, x, f, id);
    }
  }

  // ---- without such a pair the comment stays -------------------------------------------

  ghost predicate NoClaimer(s: State, id: Id) {
    forall w, d :: !Claimer(s, id, w, d)
  }

  /** At most one delivery is left to write a row that is not failed, and the backend is done. */
  ghost predicate LastWriter(s: State, id: Id) {
    && id in s.uploads && s.uploads[id].pc.Finished? && !HasStatus(s, id, Failed)
    && forall w, d, x, f :: Writer(s, id, w, d) && Writer(s, id, x, f) ==> w == x && d == f
  }

  ghost predicate ErrorsInPlace(s: State, id: Id) {
    && id in s.uploads && !AwaitsWork(s, id) && ErrorOnlyWhenFailed(s.world.tables, id)
    && (NoClaimer(s, id) || LastWriter(s, id))
  }

  lemma ClaimersWrite(s: State, id: Id, w: WorkerId, d: Delivery)
    requires Claimer(s, id, w, d)
    ensures Writer(s, id, w, d)
  {
  }

  lemma NoRiskMeansInPlace(s: State, id: Id)
    requires id in s.uploads && !ErrorEverAtRisk(s, id)
    ensures ErrorsInPlace(s, id)
  {
    hide Claimer, Writer;
    if !NoClaimer(s, id) {
      var w, d :| Claimer(s, id, w, d);
      assert !FailureFirst(s, id, w, d);
      assert forall x, f :: Writer(s, id, x, f) ==> x == w && f == d;
    }
  }

  /** Nobody becomes able to write or claim for a message that is not queued. */
  lemma DeliveriesRunOut(e: Engine, s: State, step: Step, id: Id, w: WorkerId, d: Delivery)
    requires Enabled(e, s, step) && id in s.uploads && id in Apply(e, s, step).uploads
    requires Apply(e, s, step).uploads[id].msg == s.uploads[id].msg && d.msg !in s.world.broker.queue
    ensures Claimer(Apply(e, s, step), id, w, d) ==> Claimer(s, id, w, d)
    ensures Writer(Apply(e, s, step), id, w, d) ==> Writer(s, id, w, d)
  {
  }

  lemma WriteInPlace(e: Engine, s: State, s': State, w: WorkerId, c: Choice, id: Id)
    requires Handled(e, s, s', w, c) && WritesRow(s, w, id) && ErrorOnlyWhenFailed(s.world.tables, id)
    requires s.workers[w].handler.value.pc.Marking? ==> !HasStatus(s, id, Failed)
    ensures ErrorOnlyWhenFailed(s'.world.tables, id)
    ensures HasStatus(s', id, Failed) && !HasStatus(s, id, Failed) ==> s.workers[w].handler.value.pc.Failing?
  {
  }

  /** Once it has failed the row, a callback claims nothing any more. */
  lemma FailedCallbackClaimsNothing(e: Engine, s: State, s': State, w: WorkerId, c: Choice, id: Id)
    requires Handled(e, s, s', w, c) && s.workers[w].handler.value.pc.Failing?
    requires s.workers[w].handler.value.delivery !in s.workers[w].inbox
    ensures !Claimer(s', id, w, s.workers[w].handler.value.delivery)
  {
  }

  lemma WriterOfCallback(s: State, w: WorkerId, id: Id)
    requires WritesRow(s, w, id)
    ensures Writer(s, id, w, s.workers[w].handler.value.delivery)
    ensures s.workers[w].handler.value.pc.Marking? ==> Claimer(s, id, w, s.workers[w].handler.value.delivery)
  {
  }

  lemma RunOut(e: Engine, s: State, step: Step, id: Id)
    requires Safe(e, s) && Enabled(e, s, step) && id in s.uploads && !AwaitsWork(s, id)
    ensures id in Apply(e, s, step).uploads && !AwaitsWork(Apply(e, s, step), id)
    ensures Apply(e, s, step).uploads[id].msg == s.uploads[id].msg
    ensures forall w, d :: Claimer(Apply(e, s, step), id, w, d) ==> Claimer(s, id, w, d)
    ensures forall w, d :: Writer(Apply(e, s, step), id, w, d) ==> Writer(s, id, w, d)
  {
    HandlerMovesOn(e, s, step, id);
    if s.uploads[id].msg.Some? {
      SettledStays(e, s, step, s.uploads[id].msg.value);
      SettledIsNotQueued(s, s.uploads[id].msg.value);
    }
    hide Safe, Enabled, Apply, HeldBack, InCallbackWith, SettledMsg;
    forall w, d
      ensures Claimer(Apply(e, s, step), id, w, d) ==> Claimer(s, id, w, d)
      ensures Writer(Apply(e, s, step), id, w, d) ==> Writer(s, id, w, d)
    {
      if s.uploads[id].msg == Some(d.msg) { DeliveriesRunOut(e, s, step, id, w, d); }
    }
  }

  /** When the last writer fails the row there is nobody left to claim it. */
  lemma LastWriterGone(s: State, s': State, id: Id, w: WorkerId, d: Delivery)
    requires LastWriter(s, id) && Writer(s, id, w, d) && !Claimer(s', id, w, d)
    requires forall v, g :: Claimer(s', id, v, g) ==> Claimer(s, id, v, g)
    ensures NoClaimer(s', id)
  {
    hide Claimer, Writer, HasStatus;
    forall v, g ensures !Claimer(s', id, v, g) {
      if Claimer(s, id, v, g) { ClaimersWrite(s, id, v, g); }
    }
  }

  lemma LastWriterStays(s: State, s': State, id: Id)
    requires LastWriter(s, id) && !HasStatus(s', id, Failed)
    requires id in s'.uploads && s'.uploads[id].pc.Finished?
    requires forall v, g :: Writer(s', id, v, g) ==> Writer(s, id, v, g)
    ensures LastWriter(s', id)
  {
    hide Writer;
  }

  lemma HandledStep(e: Engine, s: State, step: Step)
    requires Enabled(e, s, step) && step.Handle?
    ensures Handled(e, s, Apply(e, s, step), step.w, step.choice)
    ensures Apply(e, s, step).uploads == s.uploads
  {
    hide Legal, Effect, NextPc;
  }

  lemma CallbackIsNotStored(e: Engine, s: State, w: WorkerId)
    requires WorkersOk(e, s) && w in s.workers && s.workers[w].handler.Some?
    ensures s.workers[w].handler.value.delivery !in s.workers[w].inbox
  {
    assert ProcessOk(e, s, s.workers[w]);
  }

  lemma CallbackStepInPlace(e: Engine, s: State, step: Step, id: Id)
    requires Safe(e, s) && Enabled(e, s, step) && ErrorsInPlace(s, id)
    requires step.Handle? && WritesRow(s, step.w, id)
    ensures ErrorOnlyWhenFailed(Apply(e, s, step).world.tables, id)
    ensures NoClaimer(Apply(e, s, step), id) || LastWriter(Apply(e, s, step), id)
  {
    var s', w := Apply(e, s, step), step.w;
    var d := s.workers[w].handler.value.delivery;
    HandledStep(e, s, step);
    CallbackIsNotStored(e, s, w);
    RunOut(e, s, step, id);
    WriterOfCallback(s, w, id);
    hide Safe, Enabled, Apply, Handled, Claimer, Writer, AwaitsWork, WritesRow, HasStatus;
    if NoClaimer(s, id) {
      assert !Claimer(s, id, w, d);
      WriteInPlace(e, s, s', w, step.choice, id);
    } else {
      WriteInPlace(e, s, s', w, step.choice, id);
      if HasStatus(s', id, Failed) {
        FailedCallbackClaimsNothing(e, s, s', w, step.choice, id);
        LastWriterGone(s, s', id, w, d);
      } else {
        LastWriterStays(s, s', id);
      }
    }
  }

  lemma OtherStepInPlace(e: Engine, s: State, step: Step, id: Id)
    requires Safe(e, s) && Enabled(e, s, step) && ErrorsInPlace(s, id)
    requires !(step.Handle? && WritesRow(s, step.w, id))
    ensures ErrorOnlyWhenFailed(Apply(e, s, step).world.tables, id)
    ensures NoClaimer(Apply(e, s, step), id) || LastWriter(Apply(e, s, step), id)
  {
    var s' := Apply(e, s, step);
    RunOut(e, s, step, id);
    OnlyWriters(e, s, step, id);
    hide Safe, Claimer, Writer, AwaitsWork, Legal, Effect, NextPc;
    if step.Create? && step.id == id {
      assert Created(s, s', id, step.create);
      CreateKeepsErrorComment(s, s', id, step.create);
    } else if LastWriter(s, id) {
      FinishedStep(e, s, step, id);
    }
  }

  lemma StepInPlace(e: Engine, s: State, step: Step, id: Id)
    requires Safe(e, s) && Enabled(e, s, step) && ErrorsInPlace(s, id)
    ensures ErrorsInPlace(Apply(e, s, step), id)
  {
    RunOut(e, s, step, id);
    if step.Handle? && WritesRow(s, step.w, id) {
      CallbackStepInPlace(e, s, step, id);
    } else {
      OtherStepInPlace(e, s, step, id);
    }
  }

  lemma {:induction false} ErrorsStayInPlace(e: Engine, s: State, steps: seq<Step>, t: State, id: Id)
    requires Safe(e, s) && Leads(e, s, steps, t) && ErrorsInPlace(s, id)
    ensures ErrorOnlyWhenFailed(t.world.tables, id)
    decreases |steps|
  {
    if steps != [] {
      hide Safe, NoClaimer, LastWriter, AwaitsWork;
      StepInPlace(e, s, steps[0], id);
      StepKeepsSafe(e, s, steps[0]);
      ErrorsStayInPlace(e, Apply(e, s, steps[0]), steps[1..], t, id);
    }
  }

  /** In every reachable state, whatever faults may follow: some continuation shows an error on a row
      that is not failed exactly when one is at risk. */
  lemma ErrorMisplacedExactly(e: Engine, s: State, id: Id)
    requires Reachable(e, s) && id in s.uploads
    ensures ErrorEverMisplaced(e, s, id) <==> ErrorEverAtRisk(s, id)
  {
    ReachableIsSafe(e, s);
    hide Safe, Leads, ErrorEverAtRisk;
    if ErrorEverAtRisk(s, id) {
      ErrorRiskIsReal(e, s, id);
    } else {
      NoRiskMeansInPlace(s, id);
      forall steps, t | Leads(e, s, steps, t) ensures ErrorOnlyWhenFailed(t.world.tables, id) {
        ErrorsStayInPlace(e, s, steps, t, id);
      }
    }
  }
}
