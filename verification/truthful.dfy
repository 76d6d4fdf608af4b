/** What a settled message says about the row, and when a terminal status is really terminal. */
module Truthful {
  import opened Domain
  import opened Database
  import opened Broker
  import opened Worker
  import opened Upload
  import opened Pipeline
  import opened Safety
  import opened Orderly

  /** The message handled by h is the one message of the upload id. */
  predicate Concerns(s: State, m: MsgId, id: Id) {
    && m in s.world.broker.messages && JobId(s.world.broker.messages[m].body) == Some(id)
    && id in s.uploads
  }

  /** Completed; or failed over by the backend, which only happens when a confirmation was lost. */
  predicate Answered(s: State, id: Id, confirmed: bool) {
    HasStatus(s, id, Completed) || (!confirmed && HasStatus(s, id, Failed))
  }

  /** `confirmed`: no publish confirmation was lost, so no accepted message is compensated for. */
  predicate HandlerTruth(s: State, h: Handler, confirmed: bool) {
    h.job.Some? && Concerns(s, h.delivery.msg, h.job.value.id) ==>
      && (h.pc == DeadLettering(true) ==> HasStatus(s, h.job.value.id, Failed))
      && (h.pc.Acking? ==> Answered(s, h.job.value.id, confirmed))
  }

  predicate MessageTruth(s: State, m: MsgId, id: Id, confirmed: bool) {
    Concerns(s, m, id) ==>
      && (m in s.world.broker.dead && m !in s.unrecorded ==> HasStatus(s, id, Failed))
      && (m in s.world.broker.acked ==> Answered(s, id, confirmed))
  }

  predicate UploadTruth(u: Upload, confirmed: bool) {
    confirmed && u.pc.Compensating? ==> u.msg.None?
  }

  ghost predicate Truth(s: State, confirmed: bool) {
    && (forall w | w in s.workers && s.workers[w].handler.Some? ::
          HandlerTruth(s, s.workers[w].handler.value, confirmed))
    && (forall m, id | Concerns(s, m, id) :: MessageTruth(s, m, id, confirmed))
    && (forall id | id in s.uploads :: UploadTruth(s.uploads[id], confirmed))
  }

  /** Definite publish outcomes: a confirmation, once sent, arrives. */
  predicate Confirms(step: Step) {
    step.Create? && step.create.ConfirmReplies? ==> step.create.ok
  }

  predicate Accountable(step: Step, confirmed: bool) {
    OrderlyStep(step) && (confirmed ==> Confirms(step))
  }

  lemma OneMessagePerUpload(s: State, m: MsgId, id: Id)
    requires MessagesOk(s) && s.foreign !! s.uploads.Keys && Concerns(s, m, id)
    ensures s.uploads[id].msg == Some(m) && id in s.world.tables.requests
  {
  }

  /** The compensating handler's write, if it is the one that moves. */
  lemma CompensationWrites(e: Engine, s: State, step: Step, id: Id)
    requires Enabled(e, s, step) && step.Create? && step.id == id && CreateWrites(s, id)
    requires UploadOk(s, id) && s.uploads[id].msg.Some?
    ensures s.uploads[id].pc.Compensating?
    ensures SameRow(s, Apply(e, s, step), id) || HasStatus(Apply(e, s, step), id, Failed)
  {
  }

  /** The step is a call of the callback that holds message m. */
  predicate Handles(s: State, step: Step, m: MsgId) {
    && step.Handle? && step.w in s.workers && s.workers[step.w].handler.Some?
    && s.workers[step.w].handler.value.delivery.msg == m
  }

  /** A terminal row outlives every step that is not taken by the holder of its message. */
  lemma VerdictSurvives(e: Engine, s: State, step: Step, m: MsgId, id: Id, confirmed: bool)
    requires Safe(e, s) && AllAttended(s) && Enabled(e, s, step) && Accountable(step, confirmed)
    requires Concerns(s, m, id) && UploadTruth(s.uploads[id], confirmed)
    requires !Handles(s, step, m)
    ensures HasStatus(s, id, Failed) ==> HasStatus(Apply(e, s, step), id, Failed)
    ensures Answered(s, id, confirmed) ==> Answered(Apply(e, s, step), id, confirmed)
  {
    OneMessagePerUpload(s, m, id);
    OnlyWriters(e, s, step, id);
    if step.Create? && step.id == id && CreateWrites(s, id) {
      assert UploadOk(s, id);
      CompensationWrites(e, s, step, id);
    }
  }

  // ---- settlements keep telling the truth ---------------------------------

  lemma InitialTruth(confirmed: bool)
    ensures Truth(INITIAL, confirmed)
  {
  }

  lemma UploadsKeepTruth(e: Engine, s: State, step: Step, confirmed: bool)
    requires UploadsOk(s) && Truth(s, confirmed) && Enabled(e, s, step) && Accountable(step, confirmed)
    ensures forall id | id in Apply(e, s, step).uploads :: UploadTruth(Apply(e, s, step).uploads[id], confirmed)
  {
    var s' := Apply(e, s, step);
    forall id | id in s'.uploads ensures UploadTruth(s'.uploads[id], confirmed) {
      if id in s.uploads { assert UploadOk(s, id) && UploadTruth(s.uploads[id], confirmed); }
    }
  }

  /** A handler that does not move keeps telling the truth. */
  lemma StillHandlerTruth(e: Engine, s: State, step: Step, h: Handler, confirmed: bool)
    requires Safe(e, s) && AllAttended(s) && Truth(s, confirmed)
    requires Enabled(e, s, step) && Accountable(step, confirmed)
    requires HandlerOk(e, s, h) && HandlerTruth(s, h, confirmed) && !Handles(s, step, h.delivery.msg)
    requires Grows(s, Apply(e, s, step))
    ensures HandlerTruth(Apply(e, s, step), h, confirmed)
  {
    if h.job.Some? && Concerns(Apply(e, s, step), h.delivery.msg, h.job.value.id) {
      NewUploadsHaveNoMessages(e, s, step, h.delivery.msg, h.job.value.id);
      assert UploadTruth(s.uploads[h.job.value.id], confirmed);
      VerdictSurvives(e, s, step, h.delivery.msg, h.job.value.id, confirmed);
    }
  }

  /** An id drawn just now is named by no earlier message. */
  lemma NewUploadsHaveNoMessages(e: Engine, s: State, step: Step, m: MsgId, id: Id)
    requires MessagesOk(s) && Enabled(e, s, step) && m in s.world.broker.messages
    requires Grows(s, Apply(e, s, step)) && Concerns(Apply(e, s, step), m, id)
    ensures Concerns(s, m, id)
  {
    assert MessageOk(s, m);
  }

  /** The handler that moves: a verdict is only announced after it was written. */
  lemma MovedHandlerTruth(e: Engine, s: State, s': State, w: WorkerId, c: Choice, confirmed: bool)
    requires Handled(e, s, s', w, c) && s'.workers[w].handler.Some?
    requires HandlerOk(e, s, s.workers[w].handler.value) && MessagesOk(s) && s.foreign !! s.uploads.Keys
    requires HandlerTruth(s, s.workers[w].handler.value, confirmed)
    requires c.BrokerReplies? ==> c.applied && c.reply.Returned?
    ensures HandlerTruth(s', s'.workers[w].handler.value, confirmed)
  {
    var h := s.workers[w].handler.value;
    if h.job.Some? && Concerns(s, h.delivery.msg, h.job.value.id) {
      OneMessagePerUpload(s, h.delivery.msg, h.job.value.id);
    }
  }

  lemma CallKeepsHandlersTruthful(e: Engine, s: State, w: WorkerId, c: Choice, x: WorkerId, confirmed: bool)
    requires Safe(e, s) && AllAttended(s) && Truth(s, confirmed)
    requires Enabled(e, s, Handle(w, c)) && Accountable(Handle(w, c), confirmed)
    requires Grows(s, Apply(e, s, Handle(w, c)))
    requires x in s.workers && Apply(e, s, Handle(w, c)).workers[x].handler.Some?
    ensures HandlerTruth(Apply(e, s, Handle(w, c)), Apply(e, s, Handle(w, c)).workers[x].handler.value, confirmed)
  {
    hide BrokerOk, Effect, NextPc, Legal, HandlerOk, MessageOk, SettledOk, UploadOk, ResultOk, RowOk;
    assert ProcessOk(e, s, s.workers[x]);
    if x == w {
      assert Handled(e, s, Apply(e, s, Handle(w, c)), w, c);
      MovedHandlerTruth(e, s, Apply(e, s, Handle(w, c)), w, c, confirmed);
    } else {
      if Handles(s, Handle(w, c), s.workers[x].handler.value.delivery.msg) {
        OneHandlerPerMessage(s, w, x);
      }
      StillHandlerTruth(e, s, Handle(w, c), s.workers[x].handler.value, confirmed);
    }
  }

  /** Outside of calls, a handler is either untouched or new. */
  lemma OtherStepsKeepHandlers(e: Engine, s: State, step: Step, x: WorkerId)
    requires Enabled(e, s, step) && !step.Handle?
    requires x in Apply(e, s, step).workers && Apply(e, s, step).workers[x].handler.Some?
    ensures var h := Apply(e, s, step).workers[x].handler.value;
            || h.pc.Marking? || h.pc.NackMalformed?
            || (x in s.workers && s.workers[x].handler == Some(h))
  {
  }

  lemma HandlersKeepTruth(e: Engine, s: State, step: Step, x: WorkerId, confirmed: bool)
    requires Safe(e, s) && AllAttended(s) && Truth(s, confirmed)
    requires Enabled(e, s, step) && Accountable(step, confirmed) && Grows(s, Apply(e, s, step))
    requires x in Apply(e, s, step).workers && Apply(e, s, step).workers[x].handler.Some?
    ensures HandlerTruth(Apply(e, s, step), Apply(e, s, step).workers[x].handler.value, confirmed)
  {
    hide BrokerOk, Effect, NextPc, Legal, HandlerOk, MessageOk, SettledOk, UploadOk, ResultOk, RowOk;
    if step.Handle? {
      CallKeepsHandlersTruthful(e, s, step.w, step.choice, x, confirmed);
    } else {
      OtherStepsKeepHandlers(e, s, step, x);
      var h := Apply(e, s, step).workers[x].handler.value;
      if !h.pc.Marking? && !h.pc.NackMalformed? {
        assert ProcessOk(e, s, s.workers[x]);
        StillHandlerTruth(e, s, step, h, confirmed);
      }
    }
  }

  /** A message becomes settled only by a call of its holder, from the state that says which way. */
  lemma NewlySettled(e: Engine, s: State, step: Step, m: MsgId)
    requires Enabled(e, s, step)
    requires !SettledMsg(s.world.broker, m) && SettledMsg(Apply(e, s, step).world.broker, m)
    ensures Handles(s, step, m)
    ensures Apply(e, s, step).world.tables == s.world.tables
    ensures var pc, s' := s.workers[step.w].handler.value.pc, Apply(e, s, step);
            && (m in s'.world.broker.acked ==> pc.Acking?)
            && (m in s'.world.broker.dead ==>
                  pc.NackMalformed? || pc == DeadLettering(true)
                  || (pc == DeadLettering(false) && m in s'.unrecorded))
  {
    if step.Handle? {
      var h := s.workers[step.w].handler.value;
      if !Settling(h.pc) { CallStays(e, s.world, h, step.choice); }
    }
  }

  lemma HolderIsUnsettled(s: State, step: Step, m: MsgId)
    requires BrokerOk(s.world.broker) && AllAttended(s) && Handles(s, step, m)
    ensures m in s.world.broker.unacked && !SettledMsg(s.world.broker, m) && m !in s.world.broker.queue
  {
  }

  lemma OthersKeepSide(e: Engine, s: State, step: Step, m: MsgId)
    requires Enabled(e, s, step) && !Handles(s, step, m)
    ensures var b, b' := s.world.broker, Apply(e, s, step).world.broker;
            (m in b'.dead ==> m in b.dead) && (m in b'.acked ==> m in b.acked)
    ensures s.unrecorded <= Apply(e, s, step).unrecorded
  {
    if step.Handle? && !Settling(s.workers[step.w].handler.value.pc) {
      CallStays(e, s.world, s.workers[step.w].handler.value, step.choice);
    }
  }

  lemma SettledKeepsSide(e: Engine, s: State, step: Step, m: MsgId)
    requires BrokerOk(s.world.broker) && AllAttended(s) && Enabled(e, s, step) && SettledMsg(s.world.broker, m)
    ensures !Handles(s, step, m)
    ensures var b, b' := s.world.broker, Apply(e, s, step).world.broker;
            (m in b'.dead ==> m in b.dead) && (m in b'.acked ==> m in b.acked)
    ensures s.unrecorded <= Apply(e, s, step).unrecorded
  {
    if Handles(s, step, m) {
      HolderIsUnsettled(s, step, m);
    }
    OthersKeepSide(e, s, step, m);
  }

  lemma SettledKeepTruth(e: Engine, s: State, step: Step, m: MsgId, id: Id, confirmed: bool)
    requires Safe(e, s) && AllAttended(s) && Truth(s, confirmed)
    requires Enabled(e, s, step) && Accountable(step, confirmed) && Grows(s, Apply(e, s, step))
    requires Concerns(Apply(e, s, step), m, id) && SettledMsg(s.world.broker, m)
    ensures MessageTruth(Apply(e, s, step), m, id, confirmed)
  {
    hide Effect, NextPc, Legal, HandlerOk, UploadOk, ResultOk, RowOk;
    assert m in s.world.broker.messages;
    NewUploadsHaveNoMessages(e, s, step, m, id);
    SettledKeepsSide(e, s, step, m);
    assert MessageTruth(s, m, id, confirmed) && UploadTruth(s.uploads[id], confirmed);
    VerdictSurvives(e, s, step, m, id, confirmed);
  }

  lemma NewlySettledTruth(e: Engine, s: State, step: Step, m: MsgId, id: Id, confirmed: bool)
    requires WorkersOk(e, s) && Truth(s, confirmed) && MessagesOk(s)
    requires Enabled(e, s, step) && Grows(s, Apply(e, s, step))
    requires Concerns(Apply(e, s, step), m, id)
    requires !SettledMsg(s.world.broker, m) && SettledMsg(Apply(e, s, step).world.broker, m)
    ensures MessageTruth(Apply(e, s, step), m, id, confirmed)
  {
    NewlySettled(e, s, step, m);
    var h := s.workers[step.w].handler.value;
    assert ProcessOk(e, s, s.workers[step.w]);
    NewUploadsHaveNoMessages(e, s, step, m, id);
    assert HandlerTruth(s, h, confirmed);
  }

  lemma MessagesKeepTruth(e: Engine, s: State, step: Step, m: MsgId, id: Id, confirmed: bool)
    requires Safe(e, s) && AllAttended(s) && Truth(s, confirmed)
    requires Enabled(e, s, step) && Accountable(step, confirmed) && Grows(s, Apply(e, s, step))
    requires Concerns(Apply(e, s, step), m, id)
    ensures MessageTruth(Apply(e, s, step), m, id, confirmed)
  {
    hide BrokerOk, Effect, NextPc, Legal, HandlerOk, ProcessOk, MessageOk, SettledOk, UploadOk, ResultOk, RowOk;
    if SettledMsg(s.world.broker, m) {
      SettledKeepTruth(e, s, step, m, id, confirmed);
    } else if SettledMsg(Apply(e, s, step).world.broker, m) {
      NewlySettledTruth(e, s, step, m, id, confirmed);
    }
  }

  lemma StepKeepsTruth(e: Engine, s: State, step: Step, confirmed: bool)
    requires Safe(e, s) && AllAttended(s) && Truth(s, confirmed)
    requires Enabled(e, s, step) && Accountable(step, confirmed)
    ensures Truth(Apply(e, s, step), confirmed)
  {
    hide BrokerOk, Effect, NextPc, Legal, HandlerOk, ProcessOk, MessageOk, SettledOk, UploadOk, ResultOk, RowOk;
    var s' := Apply(e, s, step);
    StepKeepsSafe(e, s, step);
    UploadsKeepTruth(e, s, step, confirmed);
    forall x | x in s'.workers && s'.workers[x].handler.Some?
      ensures HandlerTruth(s', s'.workers[x].handler.value, confirmed)
    {
      HandlersKeepTruth(e, s, step, x, confirmed);
    }
    forall m, id | Concerns(s', m, id) ensures MessageTruth(s', m, id, confirmed) {
      MessagesKeepTruth(e, s, step, m, id, confirmed);
    }
  }

  ghost predicate AccountableRun(steps: seq<Step>, confirmed: bool) {
    forall i | 0 <= i < |steps| :: Accountable(steps[i], confirmed)
  }

  lemma {:induction false} RunKeepsTruth(e: Engine, s: State, steps: seq<Step>, confirmed: bool)
    requires Safe(e, s) && AllAttended(s) && Truth(s, confirmed)
    requires IsRun(e, s, steps) && AccountableRun(steps, confirmed)
    ensures var s' := After(e, s, steps); Safe(e, s') && AllAttended(s') && Truth(s', confirmed)
    decreases |steps|
  {
    if steps != [] {
      assert Accountable(steps[0], confirmed);
      StepKeepsSafe(e, s, steps[0]);
      StepAttends(e, s, steps[0]);
      StepKeepsTruth(e, s, steps[0], confirmed);
      RunKeepsTruth(e, Apply(e, s, steps[0]), steps[1..], confirmed);
    }
  }

  /** Worker crashes allowed, connections reliable: the message of an upload that ended in the
      dead-letter queue has a failed row, unless mark_failed itself raised; an acknowledged one has
      the engine's answer stored, and its row is completed if no publish confirmation was lost. */
  lemma SettlementTellsTheTruth(e: Engine, steps: seq<Step>, confirmed: bool, id: Id)
    requires IsRun(e, INITIAL, steps) && AccountableRun(steps, confirmed)
    requires id in After(e, INITIAL, steps).uploads && After(e, INITIAL, steps).uploads[id].msg.Some?
    ensures var s := After(e, INITIAL, steps);
            var u := s.uploads[id];
            && (u.msg.value in s.world.broker.dead && u.msg.value !in s.unrecorded ==> HasStatus(s, id, Failed))
            && (u.msg.value in s.world.broker.acked ==>
                  Answered(s, id, confirmed)
                  && id in s.world.tables.results
                  && e.classify(u.bytes) == Some(s.world.tables.results[id].prediction))
  {
    var s := After(e, INITIAL, steps);
    InitialIsSafe(e);
    InitialAttended();
    InitialTruth(confirmed);
    RunKeepsTruth(e, INITIAL, steps, confirmed);
    assert UploadOk(s, id);
    var u := s.uploads[id];
    PublishedJobParses(id, KeyOf(id, u), u.contentType);
    assert Concerns(s, u.msg.value, id);
    assert MessageTruth(s, u.msg.value, id, confirmed);
    assert SettledOk(s, u.msg.value);
    if id in s.world.tables.results { assert ResultOk(e, s, id); }
  }

  // ---- when a terminal status is terminal ----------------------------------

  /** The step is definite and does not cut a handler off between its verdict and its settlement. */
  predicate Undisturbed(s: State, step: Step) {
    && Accountable(step, true)
    && (step.Handle? && step.choice.DbReplies? ==> (step.choice.applied <==> step.choice.reply.Returned?))
    && (step.Crash? && step.w in s.workers && s.workers[step.w].handler.Some? ==>
          !s.workers[step.w].handler.value.pc.Acking?
          && s.workers[step.w].handler.value.pc != DeadLettering(true))
  }

  /** The holder of message m has written its verdict and is about to settle. */
  predicate Concluding(s: State, m: MsgId) {
    && m in s.world.broker.unacked
    && var d := s.world.broker.unacked[m];
       var w := d.conn.worker;
       && w in s.workers && s.workers[w].handler.Some?
       && s.workers[w].handler.value.delivery == d
       && (s.workers[w].handler.value.pc.Acking? || s.workers[w].handler.value.pc == DeadLettering(true))
  }

  predicate TerminalRow(s: State, id: Id) {
    id in s.world.tables.requests && Terminal(s.world.tables.requests[id].status)
  }

  /** A terminal row with a message is settled or about to be, and a result means `completed`. */
  predicate RowConcluded(s: State, id: Id)
    requires id in s.uploads
  {
    && (TerminalRow(s, id) && s.uploads[id].msg.Some? ==>
          SettledMsg(s.world.broker, s.uploads[id].msg.value) || Concluding(s, s.uploads[id].msg.value))
    && (id in s.world.tables.requests ==> (id in s.world.tables.results <==> HasStatus(s, id, Completed)))
  }

  ghost predicate Conclusive(s: State) {
    forall id | id in s.uploads :: RowConcluded(s, id)
  }

  /** Everything this module and Orderly know about undisturbed runs. */
  ghost predicate Steady(e: Engine, s: State) {
    Safe(e, s) && AllAttended(s) && Truth(s, true) && Conclusive(s)
  }

  lemma WriterIsNotConcluding(e: Engine, s: State, w: WorkerId, id: Id)
    requires BrokerOk(s.world.broker) && AllAttended(s) && WritesRow(s, w, id) && RowConcluded(s, id)
    ensures !TerminalRow(s, id)
  {
  }

  lemma CompensatorIsNotConcluding(s: State, id: Id)
    requires UploadsOk(s) && id in s.uploads && CreateWrites(s, id) && UploadTruth(s.uploads[id], true)
    ensures !TerminalRow(s, id)
  {
  }

  /** In such runs nobody ever writes a terminal row. */
  lemma TerminalIsAbsorbing(e: Engine, s: State, step: Step, id: Id)
    requires Steady(e, s) && Enabled(e, s, step) && Undisturbed(s, step)
    requires id in s.uploads && TerminalRow(s, id)
    ensures SameRow(s, Apply(e, s, step), id)
  {
    OnlyWriters(e, s, step, id);
    assert RowConcluded(s, id) && UploadTruth(s.uploads[id], true);
    if step.Handle? && WritesRow(s, step.w, id) {
      WriterIsNotConcluding(e, s, step.w, id);
    } else if step.Create? && step.id == id && CreateWrites(s, id) {
      CompensatorIsNotConcluding(s, id);
    }
  }

  lemma OtherCallKeepsConcluding(e: Engine, s: State, s': State, x: WorkerId, c: Choice, m: MsgId)
    requires AllAttended(s) && Handled(e, s, s', x, c) && Concluding(s, m)
    requires x != s.world.broker.unacked[m].conn.worker
    requires forall n | n in s.world.broker.unacked :: s.world.broker.unacked[n].msg == n
    ensures Concluding(s', m)
  {
    var d := s.world.broker.unacked[m];
    var h := s.workers[x].handler.value;
    assert ProcessAttends(s, d.conn.worker) && d in Held(s.workers[d.conn.worker]);
    assert ProcessAttends(s, x) && h.delivery in Held(s.workers[x]);
    if !Settling(h.pc) { CallStays(e, s.world, h, c); }
  }

  lemma OwnCallConcludes(e: Engine, s: State, s': State, w: WorkerId, c: Choice, m: MsgId)
    requires BrokerOk(s.world.broker) && Handled(e, s, s', w, c) && Concluding(s, m)
    requires w == s.world.broker.unacked[m].conn.worker
    requires c.BrokerReplies? ==> c.applied && c.reply.Returned?
    ensures SettledMsg(s'.world.broker, m)
  {
  }

  lemma TrafficKeepsConcluding(e: Engine, s: State, step: Step, m: MsgId)
    requires Enabled(e, s, step) && Undisturbed(s, step) && !step.Handle?
    requires Concluding(s, m) && m !in s.world.broker.queue
    requires ProcessAttends(s, s.world.broker.unacked[m].conn.worker)
    ensures Concluding(Apply(e, s, step), m)
  {
    var w := s.world.broker.unacked[m].conn.worker;
    assert s.world.broker.unacked[m] in Held(s.workers[w]);
  }

  lemma ConcludingStays(e: Engine, s: State, step: Step, m: MsgId)
    requires AllAttended(s) && BrokerOk(s.world.broker) && Concluding(s, m)
    requires Enabled(e, s, step) && Undisturbed(s, step)
    ensures SettledMsg(Apply(e, s, step).world.broker, m) || Concluding(Apply(e, s, step), m)
  {
    if step.Handle? {
      assert Handled(e, s, Apply(e, s, step), step.w, step.choice);
      if step.w == s.world.broker.unacked[m].conn.worker {
        OwnCallConcludes(e, s, Apply(e, s, step), step.w, step.choice, m);
      } else {
        forall n | n in s.world.broker.unacked ensures s.world.broker.unacked[n].msg == n {
          assert DeliveryOk(s.world.broker, n);
        }
        OtherCallKeepsConcluding(e, s, Apply(e, s, step), step.w, step.choice, m);
      }
    } else {
      assert m in s.world.broker.messages && Conserved(s.world.broker, m);
      TrafficKeepsConcluding(e, s, step, m);
    }
  }

  /** The write of a holder either leaves the row open or brings its handler to the settlement. */
  lemma WriteConcludes(e: Engine, s: State, s': State, w: WorkerId, c: Choice, id: Id)
    requires AllAttended(s) && Handled(e, s, s', w, c) && WritesRow(s, w, id)
    requires c.DbReplies? ==> (c.applied <==> c.reply.Returned?)
    requires RowConcluded(s, id) && !TerminalRow(s, id)
    requires id in s.world.tables.results ==> id in s.world.tables.requests
    ensures id in s'.uploads && RowConcluded(s', id)
  {
    var d := s.workers[w].handler.value.delivery;
    assert d.conn.worker == w && Live(s.world.broker, d) by {
      assert ProcessAttends(s, w) && d in Held(s.workers[w]);
    }
    hide AllAttended, Settle, ParseJob, BuildKey, EncodeJob;
    match s.workers[w].handler.value.pc
    case Marking =>
    case Saving(_) =>
    case Failing(_) =>
  }

  lemma CreateStaysConclusive(s: State, s': State, id: Id, c: CreateChoice)
    requires UploadsOk(s) && Created(s, s', id, c) && UploadTruth(s.uploads[id], true)
    requires BrokerOk(s.world.broker) && RowConcluded(s, id)
    requires id in s.world.tables.results ==> id in s.world.tables.requests
    ensures RowConcluded(s', id)
  {
    assert UploadOk(s, id);
  }

  lemma QuietStaysConclusive(e: Engine, s: State, step: Step, id: Id)
    requires Enabled(e, s, step) && Undisturbed(s, step)
    requires AllAttended(s) && BrokerOk(s.world.broker)
    requires id in s.uploads && RowConcluded(s, id)
    requires SameRow(s, Apply(e, s, step), id)
    requires id in Apply(e, s, step).uploads && Apply(e, s, step).uploads[id].msg == s.uploads[id].msg
    ensures RowConcluded(Apply(e, s, step), id)
  {
    if TerminalRow(s, id) && s.uploads[id].msg.Some? {
      var m := s.uploads[id].msg.value;
      if SettledMsg(s.world.broker, m) {
        SettledStays(e, s, step, m);
      } else {
        ConcludingStays(e, s, step, m);
      }
    }
  }

  /** Only its own request handler changes an upload. */
  lemma OthersKeepUpload(e: Engine, s: State, step: Step, id: Id)
    requires Enabled(e, s, step) && id in s.uploads && !(step.Create? && step.id == id)
    ensures id in Apply(e, s, step).uploads && Apply(e, s, step).uploads[id].msg == s.uploads[id].msg
  {
  }

  lemma NonCreateStaysConclusive(e: Engine, s: State, step: Step, id: Id)
    requires BrokerOk(s.world.broker) && WorkersOk(e, s) && MessagesOk(s) && s.foreign !! s.uploads.Keys
    requires AllAttended(s) && Enabled(e, s, step) && Undisturbed(s, step)
    requires id in s.uploads && RowConcluded(s, id) && !(step.Create? && step.id == id)
    requires id in s.world.tables.results ==> id in s.world.tables.requests
    ensures id in Apply(e, s, step).uploads && RowConcluded(Apply(e, s, step), id)
  {
    OthersKeepUpload(e, s, step, id);
    OnlyWriters(e, s, step, id);
    if step.Handle? && WritesRow(s, step.w, id) {
      WriterIsNotConcluding(e, s, step.w, id);
      assert Handled(e, s, Apply(e, s, step), step.w, step.choice);
      WriteConcludes(e, s, Apply(e, s, step), step.w, step.choice, id);
    } else {
      QuietStaysConclusive(e, s, step, id);
    }
  }

  lemma OneStaysConclusive(e: Engine, s: State, step: Step, id: Id)
    requires Steady(e, s) && Enabled(e, s, step) && Undisturbed(s, step) && id in s.uploads
    ensures id in Apply(e, s, step).uploads && RowConcluded(Apply(e, s, step), id)
  {
    assert RowConcluded(s, id) && UploadTruth(s.uploads[id], true);
    assert id in s.world.tables.results ==> ResultOk(e, s, id);
    if step.Create? && step.id == id {
      assert Created(s, Apply(e, s, step), id, step.create);
      CreateStaysConclusive(s, Apply(e, s, step), id, step.create);
    } else {
      NonCreateStaysConclusive(e, s, step, id);
    }
  }

  lemma StepStaysConclusive(e: Engine, s: State, step: Step)
    requires Steady(e, s) && Enabled(e, s, step) && Undisturbed(s, step)
    ensures Conclusive(Apply(e, s, step))
  {
    hide BrokerOk, Effect, NextPc, Legal, HandlerOk, MessageOk, SettledOk, UploadOk, ResultOk;
    var s' := Apply(e, s, step);
    forall id | id in s'.uploads ensures RowConcluded(s', id) {
      if id in s.uploads {
        OneStaysConclusive(e, s, step, id);
      } else {
        RowsHaveUploads(e, s);
      }
    }
  }

  ghost predicate UndisturbedRun(e: Engine, s: State, steps: seq<Step>)
    requires IsRun(e, s, steps)
    decreases |steps|
  {
    steps == [] || (Undisturbed(s, steps[0]) && UndisturbedRun(e, Apply(e, s, steps[0]), steps[1..]))
  }

  lemma StepStaysSteady(e: Engine, s: State, step: Step)
    requires Steady(e, s) && Enabled(e, s, step) && Undisturbed(s, step)
    ensures Steady(e, Apply(e, s, step))
  {
    StepKeepsSafe(e, s, step);
    StepAttends(e, s, step);
    StepKeepsTruth(e, s, step, true);
    StepStaysConclusive(e, s, step);
  }

  /** In a run with definite outcomes whose handlers are not cut off between verdict and
      settlement, `completed` and `failed` never change again ... */
  lemma {:induction false} TerminalStaysTerminal(e: Engine, s: State, steps: seq<Step>, id: Id)
    requires Steady(e, s) && IsRun(e, s, steps) && UndisturbedRun(e, s, steps)
    requires id in s.uploads && TerminalRow(s, id)
    ensures SameRow(s, After(e, s, steps), id)
    decreases |steps|
  {
    if steps != [] {
      TerminalIsAbsorbing(e, s, steps[0], id);
      StepKeepsSafe(e, s, steps[0]);
      StepStaysSteady(e, s, steps[0]);
      TerminalStaysTerminal(e, Apply(e, s, steps[0]), steps[1..], id);
    }
  }

  lemma {:induction false} UndisturbedRunsAreSteady(e: Engine, s: State, steps: seq<Step>)
    requires Steady(e, s) && IsRun(e, s, steps) && UndisturbedRun(e, s, steps)
    ensures Steady(e, After(e, s, steps))
    decreases |steps|
  {
    if steps != [] {
      StepStaysSteady(e, s, steps[0]);
      UndisturbedRunsAreSteady(e, Apply(e, s, steps[0]), steps[1..]);
    }
  }

  /** The same from the very first step: whatever such a run has made terminal, no such
      continuation changes. */
  lemma TerminalIsForever(e: Engine, before: seq<Step>, more: seq<Step>, id: Id)
    requires IsRun(e, INITIAL, before) && UndisturbedRun(e, INITIAL, before)
    requires IsRun(e, After(e, INITIAL, before), more)
    requires UndisturbedRun(e, After(e, INITIAL, before), more)
    requires TerminalRow(After(e, INITIAL, before), id)
    ensures SameRow(After(e, INITIAL, before), After(e, After(e, INITIAL, before), more), id)
  {
    hide BrokerOk, Legal, Effect, NextPc, HandlerOk, MessageOk, SettledOk, UploadOk, ResultOk;
    InitialIsSafe(e);
    InitialAttended();
    InitialTruth(true);
    UndisturbedRunsAreSteady(e, INITIAL, before);
    RowsHaveUploads(e, After(e, INITIAL, before));
    TerminalStaysTerminal(e, After(e, INITIAL, before), more, id);
  }

  /** ... and a prediction is readable exactly when the status is `completed`. */
  lemma PredictionExactlyWhenCompleted(e: Engine, steps: seq<Step>, id: Id)
    requires IsRun(e, INITIAL, steps) && UndisturbedRun(e, INITIAL, steps)
    ensures var dto := FindRequest(After(e, INITIAL, steps).world.tables, id);
            dto.Some? ==> (dto.value.prediction.Some? <==> dto.value.status == Completed)
  {
    InitialIsSafe(e);
    InitialAttended();
    InitialTruth(true);
    UndisturbedRunsAreSteady(e, INITIAL, steps);
    var s := After(e, INITIAL, steps);
    RowsHaveUploads(e, s);
    if id in s.uploads { assert RowConcluded(s, id); }
  }

  // ---- "populated only when status = 'failed'" -----------------------------

  lemma WriteKeepsErrorComment(e: Engine, s: State, s': State, w: WorkerId, c: Choice, id: Id)
    requires Handled(e, s, s', w, c) && WritesRow(s, w, id) && !TerminalRow(s, id)
    requires ErrorOnlyWhenFailed(s.world.tables, id)
    ensures ErrorOnlyWhenFailed(s'.world.tables, id)
  {
  }

  lemma CreateKeepsErrorComment(s: State, s': State, id: Id, c: CreateChoice)
    requires Created(s, s', id, c) && ErrorOnlyWhenFailed(s.world.tables, id)
    ensures ErrorOnlyWhenFailed(s'.world.tables, id)
  {
  }

  lemma OpenRowKeepsErrorComment(e: Engine, s: State, step: Step, id: Id)
    requires WorkersOk(e, s) && MessagesOk(s) && s.foreign !! s.uploads.Keys && Enabled(e, s, step)
    requires id in s.uploads && !TerminalRow(s, id) && ErrorOnlyWhenFailed(s.world.tables, id)
    ensures ErrorOnlyWhenFailed(Apply(e, s, step).world.tables, id)
  {
    hide WorkersOk, MessagesOk, Legal, Effect, NextPc, CreateLegal, CreateAdvance;
    var s' := Apply(e, s, step);
    OnlyWriters(e, s, step, id);
    if step.Handle? && WritesRow(s, step.w, id) {
      assert Handled(e, s, s', step.w, step.choice);
      WriteKeepsErrorComment(e, s, s', step.w, step.choice, id);
    } else if step.Create? && step.id == id {
      assert Created(s, s', id, step.create);
      CreateKeepsErrorComment(s, s', id, step.create);
    }
  }

  lemma StepKeepsErrorComment(e: Engine, s: State, step: Step, id: Id)
    requires Steady(e, s) && Enabled(e, s, step) && Undisturbed(s, step)
    requires id in s.uploads && ErrorOnlyWhenFailed(s.world.tables, id)
    ensures ErrorOnlyWhenFailed(Apply(e, s, step).world.tables, id)
  {
    hide BrokerOk, Enabled, Apply, WorkersOk, MessagesOk, TablesOk, AllAttended, Truth, Conclusive;
    if TerminalRow(s, id) {
      TerminalIsAbsorbing(e, s, step, id);
    } else {
      OpenRowKeepsErrorComment(e, s, step, id);
    }
  }

  ghost predicate ErrorsFit(s: State) {
    forall id | id in s.uploads :: ErrorOnlyWhenFailed(s.world.tables, id)
  }

  lemma StepKeepsErrorsFit(e: Engine, s: State, step: Step)
    requires Steady(e, s) && Enabled(e, s, step) && Undisturbed(s, step) && ErrorsFit(s)
    ensures ErrorsFit(Apply(e, s, step))
  {
    hide BrokerOk, Effect, NextPc, Legal, HandlerOk, MessageOk, SettledOk, UploadOk, ResultOk;
    var s' := Apply(e, s, step);
    forall id | id in s'.uploads ensures ErrorOnlyWhenFailed(s'.world.tables, id) {
      if id in s.uploads {
        StepKeepsErrorComment(e, s, step, id);
      } else {
        RowsHaveUploads(e, s);
      }
    }
  }

  lemma {:induction false} UndisturbedRunsKeepErrorsFit(e: Engine, s: State, steps: seq<Step>)
    requires Steady(e, s) && IsRun(e, s, steps) && UndisturbedRun(e, s, steps) && ErrorsFit(s)
    ensures ErrorsFit(After(e, s, steps))
    decreases |steps|
  {
    if steps != [] {
      hide Steady, ErrorsFit;
      StepKeepsErrorsFit(e, s, steps[0]);
      StepStaysSteady(e, s, steps[0]);
      UndisturbedRunsKeepErrorsFit(e, Apply(e, s, steps[0]), steps[1..]);
    }
  }

  /** In such runs an error is readable exactly at status `failed`. */
  lemma ErrorExactlyWhenFailed(e: Engine, steps: seq<Step>, id: Id)
    requires IsRun(e, INITIAL, steps) && UndisturbedRun(e, INITIAL, steps)
    ensures var dto := FindRequest(After(e, INITIAL, steps).world.tables, id);
            dto.Some? ==> (dto.value.errorMessage.Some? <==> dto.value.status == Failed)
  {
    hide BrokerOk, Legal, Effect, NextPc, HandlerOk, MessageOk, SettledOk, UploadOk, ResultOk;
    InitialIsSafe(e);
    InitialAttended();
    InitialTruth(true);
    UndisturbedRunsAreSteady(e, INITIAL, steps);
    UndisturbedRunsKeepErrorsFit(e, INITIAL, steps);
    var s := After(e, INITIAL, steps);
    RowsHaveUploads(e, s);
    if id in s.world.tables.requests { assert RowOk(s, id) && ErrorOnlyWhenFailed(s.world.tables, id); }
  }
}
