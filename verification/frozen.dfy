/** The exact conditions once connections may be lost and settlements may raise as well: when nothing
    that can still happen writes a row, and when nothing changes a terminal status. */
module Frozen {
  import opened Domain
  import opened Database
  import opened Broker
  import opened Services
  import opened Worker
  import opened Pipeline
  import opened Safety
  import opened Orderly
  import opened Truthful
  import opened Moves
  import opened Exact

  /** A callback at pc may still write the row of its message, whatever is answered. */
  predicate MayWrite(pc: Pc) {
    pc.Marking? || pc.Downloading? || pc.Classifying? || pc.Saving? || pc.Acking? || pc.Failing?
  }

  /** The process has a delivery of m in store and will get to it: its callback can still return. */
  predicate WillStart(p: Process, m: MsgId) {
    (exists d :: d in p.inbox && d.msg == m) && (p.handler.Some? ==> !Over(p.handler.value.pc))
  }

  predicate InCallbackFor(p: Process, m: MsgId) {
    p.handler.Some? && p.handler.value.delivery.msg == m
  }

  predicate CanStillWrite(p: Process, m: MsgId) {
    (InCallbackFor(p, m) && MayWrite(p.handler.value.pc)) || WillStart(p, m)
  }

  /** The request handler is done, the message (if any) is settled, and no process is left that could
      write for it. */
  predicate Retired(s: State, id: Id)
    requires id in s.uploads
  {
    var u := s.uploads[id];
    && u.pc.Finished?
    && (u.msg.Some? ==>
          && SettledMsg(s.world.broker, u.msg.value)
          && forall w | w in s.workers :: !CanStillWrite(s.workers[w], u.msg.value))
  }

  /** Some continuation, with any fault, writes the row or the result of id. */
  ghost predicate EverChanges(e: Engine, s: State, id: Id) {
    exists steps, t :: Leads(e, s, steps, t) && !SameRow(s, t, id)
  }

  // ---- a retired row is frozen ----------------------------------------------

  /** A process that cannot write for a settled message does not become able to. */
  lemma StaysUnable(e: Engine, s: State, step: Step, m: MsgId, w: WorkerId)
    requires Enabled(e, s, step) && m !in s.world.broker.queue
    requires w in Apply(e, s, step).workers
    requires w in s.workers ==> !CanStillWrite(s.workers[w], m)
    ensures !CanStillWrite(Apply(e, s, step).workers[w], m)
  {
    if w in s.workers && step.Start? && step.w == w {
      assert step.d in s.workers[w].inbox;
    }
  }

  lemma SettledIsNotQueued(s: State, m: MsgId)
    requires BrokerOk(s.world.broker) && SettledMsg(s.world.broker, m)
    ensures m !in s.world.broker.queue
  {
  }

  lemma RetiredStep(e: Engine, s: State, step: Step, id: Id)
    requires Safe(e, s) && Enabled(e, s, step) && id in s.uploads && Retired(s, id)
    ensures SameRow(s, Apply(e, s, step), id)
    ensures id in Apply(e, s, step).uploads && Retired(Apply(e, s, step), id)
  {
    hide BrokerOk, TablesOk, CanStillWrite;
    var s' := Apply(e, s, step);
    OnlyWriters(e, s, step, id);
    assert id in s'.uploads && s'.uploads[id] == s.uploads[id];
    if s.uploads[id].msg.Some? {
      var m := s.uploads[id].msg.value;
      SettledStays(e, s, step, m);
      SettledIsNotQueued(s, m);
      forall w | w in s'.workers ensures !CanStillWrite(s'.workers[w], m) {
        StaysUnable(e, s, step, m, w);
      }
    }
    if step.Handle? && WritesRow(s, step.w, id) {
      WriterCanWrite(s, step.w, id);
    }
  }

  lemma WriterCanWrite(s: State, w: WorkerId, id: Id)
    requires WritesRow(s, w, id)
    ensures CanStillWrite(s.workers[w], s.uploads[id].msg.value)
  {
  }

  lemma {:induction false} RetiredIsFrozen(e: Engine, s: State, steps: seq<Step>, t: State, id: Id)
    requires Safe(e, s) && Leads(e, s, steps, t) && id in s.uploads && Retired(s, id)
    ensures SameRow(s, t, id)
    decreases |steps|
  {
    hide Safe, Retired;
    if steps != [] {
      RetiredStep(e, s, steps[0], id);
      StepKeepsSafe(e, s, steps[0]);
      RetiredIsFrozen(e, Apply(e, s, steps[0]), steps[1..], t, id);
    }
  }

  // ---- anything else can still be written -------------------------------------

  lemma LeadsSafely(e: Engine, s: State, steps: seq<Step>, t: State, id: Id)
    requires Safe(e, s) && Leads(e, s, steps, t)
    ensures Safe(e, t) && (id in t.uploads ==> UploadOk(t, id))
  {
    RunKeepsSafe(e, s, steps);
  }

  lemma ConnLossFrees(e: Engine, s: State, m: MsgId)
    requires m in s.world.broker.unacked && DeliveryOk(s.world.broker, m)
    ensures var step := ConnLost(s.world.broker.unacked[m].conn);
            Enabled(e, s, step)
            && var t := Apply(e, s, step);
               m in t.world.broker.queue && t.world.tables == s.world.tables && t.uploads == s.uploads
  {
  }

  /** Whoever holds the delivery of an unsettled message can lose the connection it came on. */
  lemma TakenBack(e: Engine, s: State, id: Id) returns (steps: seq<Step>, t: State)
    requires BrokerOk(s.world.broker) && Unsettled(s, id) && s.uploads[id].msg.value in s.world.broker.messages
    ensures Leads(e, s, steps, t) && t.world.tables == s.world.tables && t.uploads == s.uploads
    ensures s.uploads[id].msg.value in t.world.broker.queue
  {
    var m := s.uploads[id].msg.value;
    assert Conserved(s.world.broker, m);
    steps, t := [], s;
    if m in s.world.broker.unacked {
      assert DeliveryOk(s.world.broker, m);
      hide BrokerOk, Enabled, Apply;
      ConnLossFrees(e, s, m);
      steps, t := Extend(e, s, steps, t, ConnLost(s.world.broker.unacked[m].conn));
    }
  }

  /** A lost connection and a new one put an unsettled upload back to `processing`. */
  lemma Reclaim(e: Engine, s: State, id: Id, now: Time) returns (steps: seq<Step>, t: State, w: WorkerId)
    requires Safe(e, s) && Unsettled(s, id)
    ensures Leads(e, s, steps, t) && id in s.world.tables.requests
    ensures t.uploads == s.uploads && WorksOn(t, w, id, Downloading)
    ensures s.uploads[id].msg.value in t.world.broker.unacked
    ensures t.world.tables == AfterMarkProcessing(s.world.tables, id, now)
  {
    assert BrokerOk(s.world.broker) && s.uploads[id].msg.value in s.world.broker.messages by {
      assert UploadOk(s, id);
    }
    hide Leads, Path, Safe, Offered, WorksOn, UploadOk, BrokerOk;
    var a, s1 := TakenBack(e, s, id);
    LeadsSafely(e, s, a, s1, id);
    w := 0;
    var b, s2 := FreeByCrash(e, s1, w, id);
    PathLeads(e, s1, b, s2);
    LeadsSafely(e, s1, b, s2, id);
    var c, s3 := TakeUp(e, s2, w, id);
    PathLeads(e, s2, c, s3);
    LeadsSafely(e, s2, c, s3, id);
    var d;
    d, t := Mark(e, s3, w, id, now);
    PathLeads(e, s3, d, t);
    RunThen(e, s, a, s1, b, s2);
    RunThen(e, s, a + b, s2, c, s3);
    RunThen(e, s, a + b + c, s3, d, t);
    steps := a + b + c + d;
  }

  lemma PathLeads(e: Engine, s: State, steps: seq<Step>, t: State)
    requires Path(e, s, steps, t)
    ensures Leads(e, s, steps, t)
  {
  }

  // ---- callbacks with a stale delivery -----------------------------------------

  lemma CallbackOf(e: Engine, s: State, w: WorkerId, id: Id)
    requires Safe(e, s) && id in s.uploads && s.uploads[id].msg.Some?
    requires w in s.workers && InCallbackFor(s.workers[w], s.uploads[id].msg.value)
    ensures UploadOk(s, id) && id in s.world.tables.requests
    ensures s.uploads[id].msg.value in s.world.broker.messages
    ensures WorksOn(s, w, id, s.workers[w].handler.value.pc)
  {
    assert UploadOk(s, id) && ProcessOk(e, s, s.workers[w]);
    MessageCarriesJob(e, s, id);
  }

  /** Something the code did not expect, at the call at hand. */
  function Upset(pc: Pc): Choice {
    if pc.Downloading? then S3Replies(OtherFault)
    else if pc.Classifying? then EngineReplies(Some(OtherException), 0)
    else if pc.Acking? then BrokerReplies(false, Raised(OtherException))
    else DbReplies(false, Raised(OtherException), 0)
  }

  lemma UpsetCall(e: Engine, w: World, h: Handler)
    requires MayWrite(h.pc) && !h.pc.Failing? && h.job.Some? && h.delivery.msg in w.broker.messages
    ensures Legal(e, w, h, Upset(h.pc)) && Effect(w, h, Upset(h.pc)) == w
    ensures NextPc(e, h, Upset(h.pc)) == Failing(Unexpected)
  {
  }

  lemma Upsets(e: Engine, s: State, w: WorkerId, id: Id) returns (steps: seq<Step>, t: State, message: Sentence)
    requires id in s.uploads && s.uploads[id].msg.Some? && s.uploads[id].msg.value in s.world.broker.messages
    requires w in s.workers && s.workers[w].handler.Some? && WorksOn(s, w, id, s.workers[w].handler.value.pc)
    requires MayWrite(s.workers[w].handler.value.pc)
    ensures Leads(e, s, steps, t) && t.world == s.world && OnlyCallback(s, t, w)
    ensures WorksOn(t, w, id, Failing(message))
    ensures t.workers[w].handler.value.delivery == s.workers[w].handler.value.delivery
  {
    var h := s.workers[w].handler.value;
    steps, t := [], s;
    if h.pc.Failing? {
      message := h.pc.message;
    } else {
      UpsetCall(e, s.world, h);
      hide Legal, Effect, NextPc, Upset, MayWrite;
      steps, t := Extend(e, s, steps, t, Handle(w, Upset(h.pc)));
      message := Unexpected;
    }
  }

  lemma UploadsKept(s: State, t: State, w: WorkerId)
    requires OnlyCallback(s, t, w)
    ensures t.uploads == s.uploads
  {
  }

  lemma OnlyCallbackThen(s: State, t: State, u: State, w: WorkerId)
    requires OnlyCallback(s, t, w) && OnlyCallback(t, u, w)
    ensures OnlyCallback(s, u, w)
  {
  }

  /** A callback that may write can fail the row, however far it has got. */
  lemma CallbackCanFail(e: Engine, s: State, w: WorkerId, id: Id, now: Time)
    returns (steps: seq<Step>, t: State, message: Sentence)
    requires Safe(e, s) && id in s.uploads && s.uploads[id].msg.Some?
    requires w in s.workers && InCallbackFor(s.workers[w], s.uploads[id].msg.value)
    requires MayWrite(s.workers[w].handler.value.pc)
    ensures Leads(e, s, steps, t) && id in s.world.tables.requests && OnlyCallback(s, t, w)
    ensures t.world.tables == AfterMarkFailed(s.world.tables, id, Standard(message), now)
    ensures t.world.broker == s.world.broker && WorksOn(t, w, id, DeadLettering(true))
    ensures t.workers[w].handler.value.delivery == s.workers[w].handler.value.delivery
  {
    CallbackOf(e, s, w, id);
    hide Leads, Path, Safe, UploadOk, MayWrite, WorksOn, OnlyCallback;
    var a, u;
    a, u, message := Upsets(e, s, w, id);
    LeadsSafely(e, s, a, u, id);
    UploadsKept(s, u, w);
    var b;
    b, t := RecordFailure(e, u, w, id, message, now);
    PathLeads(e, u, b, t);
    RunThen(e, s, a, u, b, t);
    OnlyCallbackThen(s, u, t, w);
    steps := a + b;
  }

  lemma CallbackCanClaim(e: Engine, s: State, w: WorkerId, id: Id, now: Time) returns (steps: seq<Step>, t: State)
    requires Safe(e, s) && id in s.uploads && s.uploads[id].msg.Some?
    requires w in s.workers && InCallbackFor(s.workers[w], s.uploads[id].msg.value)
    requires s.workers[w].handler.value.pc.Marking?
    ensures Leads(e, s, steps, t) && id in s.world.tables.requests
    ensures t.world.tables == AfterMarkProcessing(s.world.tables, id, now)
    ensures t.uploads == s.uploads && WorksOn(t, w, id, Downloading)
  {
    CallbackOf(e, s, w, id);
    hide Path, Safe, WorksOn, UploadOk;
    steps, t := Mark(e, s, w, id, now);
    PathLeads(e, s, steps, t);
  }

  // ---- deliveries that wait behind another callback ------------------------------

  /** An answer that brings the callback on without touching anything. */
  function Shrug(pc: Pc): Choice {
    if pc.Downloading? then S3Replies(BotoCoreError)
    else if pc.Classifying? then EngineReplies(Some(OtherException), 0)
    else if Settling(pc) then BrokerReplies(false, Returned)
    else DbReplies(false, Raised(DatabaseError), 0)
  }

  lemma ShrugCall(e: Engine, w: World, h: Handler)
    requires !Over(h.pc) && h.delivery.msg in w.broker.messages && (h.job.None? ==> h.pc.NackMalformed?)
    ensures Legal(e, w, h, Shrug(h.pc)) && Effect(w, h, Shrug(h.pc)) == w
    ensures !NextPc(e, h, Shrug(h.pc)).Escaped? && Rank(NextPc(e, h, Shrug(h.pc))) < Rank(h.pc)
    ensures (Settling(h.pc) ==> NextPc(e, h, Shrug(h.pc)).Done?)
    ensures !Settling(h.pc) ==> h.job.Some? && !Over(NextPc(e, h, Shrug(h.pc)))
  {
  }

  /** The step of a callback that shrugs. */
  lemma ShrugStep(e: Engine, s: State, w: WorkerId) returns (step: Step)
    requires w in s.workers && s.workers[w].handler.Some?
    requires var h := s.workers[w].handler.value;
             && !Over(h.pc) && h.delivery.msg in s.world.broker.messages
             && (h.job.None? ==> h.pc.NackMalformed?)
    ensures Enabled(e, s, step)
    ensures var h := s.workers[w].handler.value;
            var h' := h.(pc := NextPc(e, h, Shrug(h.pc)));
            Fits(h.pc, Shrug(h.pc))
            && var p' := s.workers[w].(handler := if h'.pc.Done? then None else Some(h'));
               Apply(e, s, step) == s.(workers := s.workers[w := p'])
  {
    var h := s.workers[w].handler.value;
    ShrugCall(e, s.world, h);
    hide Legal, Effect, NextPc, Shrug;
    step := Handle(w, Shrug(h.pc));
    assert Apply(e, s, step).unrecorded == s.unrecorded by { ShrugSettlesNothing(h.pc); }
    assert Apply(e, s, step).world == s.world;
  }

  lemma ShrugSettlesNothing(pc: Pc)
    ensures pc.DeadLettering? ==> Shrug(pc) == BrokerReplies(false, Returned)
  {
  }

  lemma {:induction false} FinishQuietly(e: Engine, s: State, w: WorkerId) returns (steps: seq<Step>, t: State)
    requires w in s.workers && s.workers[w].handler.Some?
    requires var h := s.workers[w].handler.value;
             && !Over(h.pc) && h.delivery.msg in s.world.broker.messages
             && (h.job.None? ==> h.pc.NackMalformed?)
    ensures Leads(e, s, steps, t)
    ensures t == s.(workers := s.workers[w := s.workers[w].(handler := None)])
    decreases Rank(s.workers[w].handler.value.pc)
  {
    var h := s.workers[w].handler.value;
    ShrugCall(e, s.world, h);
    var step := ShrugStep(e, s, w);
    hide Legal, Effect, NextPc, Shrug, Enabled, Apply;
    var u := Apply(e, s, step);
    OneStep(e, s, step);
    if Settling(h.pc) {
      steps, t := [step], u;
    } else {
      var more;
      more, t := FinishQuietly(e, u, w);
      RunThen(e, s, [step], u, more, t);
      steps := [step] + more;
    }
  }

  lemma BeginsAtMarking(e: Engine, s: State, w: WorkerId, d: Delivery, id: Id)
    requires id in s.uploads && UploadOk(s, id) && s.uploads[id].msg == Some(d.msg)
    requires w in s.workers && d in s.workers[w].inbox && s.workers[w].handler.None?
    ensures Enabled(e, s, Start(w, d))
    ensures var t := Apply(e, s, Start(w, d));
            WorksOn(t, w, id, Marking) && t.world == s.world && t.uploads == s.uploads
  {
  }

  lemma Unblocked(e: Engine, s: State, w: WorkerId) returns (steps: seq<Step>, t: State)
    requires Safe(e, s) && w in s.workers && (s.workers[w].handler.Some? ==> !Over(s.workers[w].handler.value.pc))
    ensures Leads(e, s, steps, t) && t == s.(workers := s.workers[w := s.workers[w].(handler := None)])
  {
    if s.workers[w].handler.Some? {
      assert ProcessOk(e, s, s.workers[w]);
      steps, t := FinishQuietly(e, s, w);
    } else {
      steps, t := [], s;
      assert s.workers[w].(handler := None) == s.workers[w];
    }
  }

  /** A stored delivery gets its callback, once the one before it has ended. */
  lemma WaitingCanStart(e: Engine, s: State, w: WorkerId, d: Delivery, id: Id) returns (steps: seq<Step>, t: State)
    requires Safe(e, s) && id in s.uploads && s.uploads[id].msg == Some(d.msg)
    requires w in s.workers && d in s.workers[w].inbox
    requires s.workers[w].handler.Some? ==> !Over(s.workers[w].handler.value.pc)
    ensures Leads(e, s, steps, t) && WorksOn(t, w, id, Marking) && t.world == s.world && t.uploads == s.uploads
    ensures t.workers[w].handler.value.delivery == d
    ensures t.workers ==
            s.workers[w := s.workers[w].(inbox := s.workers[w].inbox - {d}, handler := t.workers[w].handler)]
  {
    hide Leads, Safe, UploadOk;
    var a, s1 := Unblocked(e, s, w);
    LeadsSafely(e, s, a, s1, id);
    BeginsAtMarking(e, s1, w, d, id);
    OneStep(e, s1, Start(w, d));
    t := Apply(e, s1, Start(w, d));
    RunThen(e, s, a, s1, [Start(w, d)], t);
    steps := a + [Start(w, d)];
  }

  lemma WaitingCanClaim(e: Engine, s: State, w: WorkerId, id: Id, now: Time) returns (steps: seq<Step>, t: State)
    requires Safe(e, s) && id in s.uploads && s.uploads[id].msg.Some?
    requires w in s.workers && WillStart(s.workers[w], s.uploads[id].msg.value)
    ensures Leads(e, s, steps, t) && id in s.world.tables.requests
    ensures t.world.tables == AfterMarkProcessing(s.world.tables, id, now)
    ensures t.uploads == s.uploads && WorksOn(t, w, id, Downloading)
  {
    var d :| d in s.workers[w].inbox && d.msg == s.uploads[id].msg.value;
    hide Leads, Path, Safe, UploadOk;
    var a, u := WaitingCanStart(e, s, w, d, id);
    LeadsSafely(e, s, a, u, id);
    var b;
    b, t := Mark(e, u, w, id, now);
    PathLeads(e, u, b, t);
    RunThen(e, s, a, u, b, t);
    steps := a + b;
  }

  // ---- both directions ---------------------------------------------------------

  lemma ProcessCanChange(e: Engine, s: State, w: WorkerId, id: Id)
    requires Safe(e, s) && id in s.uploads && s.uploads[id].msg.Some?
    requires w in s.workers && CanStillWrite(s.workers[w], s.uploads[id].msg.value)
    ensures EverChanges(e, s, id)
  {
    assert id in s.world.tables.requests by { assert UploadOk(s, id); }
    hide Leads, Safe, WillStart;
    var row := s.world.tables.requests[id];
    if WillStart(s.workers[w], s.uploads[id].msg.value) {
      var steps, t := WaitingCanClaim(e, s, w, id, OtherThan(row.startedAt));
      assert t.world.tables.requests[id].startedAt != row.startedAt;
    } else {
      var steps, t, message := CallbackCanFail(e, s, w, id, OtherThan(row.completedAt));
      assert t.world.tables.requests[id].completedAt != row.completedAt;
    }
  }

  lemma UnsettledEverChanges(e: Engine, s: State, id: Id)
    requires Safe(e, s) && Unsettled(s, id)
    ensures EverChanges(e, s, id)
  {
    assert id in s.world.tables.requests by { assert UploadOk(s, id); }
    hide Leads, Safe, Unsettled;
    var now := OtherThan(s.world.tables.requests[id].startedAt);
    var steps, t, w := Reclaim(e, s, id, now);
    assert t.world.tables.requests[id].startedAt == Some(now);
  }

  lemma HandlerEverChanges(e: Engine, s: State, id: Id)
    requires Safe(e, s) && id in s.uploads && !s.uploads[id].pc.Finished?
    ensures EverChanges(e, s, id)
  {
    assert UploadOk(s, id);
    hide UploadOk, Safe, SameRow, Leads;
    if s.uploads[id].pc.Putting? || s.uploads[id].pc.Inserting? {
      RowAppears(e, s, id);
    } else {
      CompensationCanChange(e, s, id);
    }
    var steps, t :| Path(e, s, steps, t) && !SameRow(s, t, id);
  }

  /** In every reachable state, whatever faults may follow: a row is frozen exactly when its request
      handler is done, its message is settled, and no process holds a delivery or a callback that
      could still write for it. */
  lemma FrozenExactlyWhenRetired(e: Engine, s: State, id: Id)
    requires Reachable(e, s) && id in s.uploads
    ensures Retired(s, id) <==> !EverChanges(e, s, id)
  {
    ReachableIsSafe(e, s);
    hide Safe, Leads, CanStillWrite, SameRow;
    if Retired(s, id) {
      forall steps, t | Leads(e, s, steps, t) ensures SameRow(s, t, id) {
        RetiredIsFrozen(e, s, steps, t, id);
      }
    } else if !s.uploads[id].pc.Finished? {
      HandlerEverChanges(e, s, id);
    } else if Unsettled(s, id) {
      UnsettledEverChanges(e, s, id);
    } else {
      var w :| w in s.workers && CanStillWrite(s.workers[w], s.uploads[id].msg.value);
      ProcessCanChange(e, s, w, id);
    }
  }

  // ---- and the status alone ------------------------------------------------------

  /** Some continuation, with any fault, shows another status for id. */
  ghost predicate StatusEverChanges(e: Engine, s: State, id: Id)
    requires id in s.world.tables.requests
  {
    exists steps, t :: Leads(e, s, steps, t) && !HasStatus(t, id, s.world.tables.requests[id].status)
  }

  predicate Inferring(pc: Pc) {
    pc.Downloading? || pc.Classifying? || pc.Saving?
  }

  /** The process may claim the row, fail a completed one, or complete a failed one. */
  predicate Threatens(e: Engine, s: State, p: Process, id: Id)
    requires id in s.uploads && s.uploads[id].msg.Some?
  {
    var m := s.uploads[id].msg.value;
    || WillStart(p, m)
    || (InCallbackFor(p, m)
        && var pc := p.handler.value.pc;
           || pc.Marking?
           || (HasStatus(s, id, Completed) && MayWrite(pc))
           || (Inferring(pc) && Answerable(e, s.uploads[id].bytes)))
  }

  predicate AnyoneThreatens(e: Engine, s: State, id: Id)
    requires id in s.uploads && s.uploads[id].msg.Some?
  {
    exists w :: w in s.workers && Threatens(e, s, s.workers[w], id)
  }

  /** AtRisk, or a process with a stale delivery may still change the status. */
  predicate EverAtRisk(e: Engine, s: State, id: Id)
    requires id in s.uploads && id in s.world.tables.requests
  {
    AtRisk(s, id) || (s.uploads[id].msg.Some? && AnyoneThreatens(e, s, id))
  }

  /** A failed row that nothing can bring back. */
  predicate FailedForGood(e: Engine, s: State, id: Id) {
    && id in s.uploads && HasStatus(s, id, Failed) && !NotYetQueued(s.uploads[id].pc)
    && (s.uploads[id].msg.Some? ==>
          SettledMsg(s.world.broker, s.uploads[id].msg.value) && !AnyoneThreatens(e, s, id))
  }

  /** What a callback holds between download and save are the upload's bytes and their answer. */
  lemma HeldAnswer(e: Engine, s: State, w: WorkerId, id: Id)
    requires Safe(e, s) && id in s.uploads && s.uploads[id].msg.Some?
    requires w in s.workers && InCallbackFor(s.workers[w], s.uploads[id].msg.value)
    ensures var pc := s.workers[w].handler.value.pc;
            && (pc.Classifying? ==> pc.bytes == s.uploads[id].bytes)
            && (pc.Saving? ==> e.classify(s.uploads[id].bytes) == Some(pc.result.prediction)
                               && pc.result.durationMs >= 0)
  {
    CallbackOf(e, s, w, id);
    assert UploadOk(s, id) && ProcessOk(e, s, s.workers[w]);
  }

  /** The write of a callback that does not threaten a failed row fails it again. */
  lemma HarmlessCall(e: Engine, s: State, step: Step, id: Id)
    requires Enabled(e, s, step) && HasStatus(s, id, Failed)
    requires step.Handle? && WritesRow(s, step.w, id) && !Threatens(e, s, s.workers[step.w], id)
    requires var pc := s.workers[step.w].handler.value.pc;
             pc.Saving? ==> e.classify(s.uploads[id].bytes) == Some(pc.result.prediction)
    ensures HasStatus(Apply(e, s, step), id, Failed)
  {
  }

  lemma FailedStaysFailed(e: Engine, s: State, step: Step, id: Id)
    requires Safe(e, s) && Enabled(e, s, step) && FailedForGood(e, s, id)
    ensures HasStatus(Apply(e, s, step), id, Failed)
  {
    hide BrokerOk, WorkersOk, MessagesOk, TablesOk, UploadOk, Enabled, Apply, Threatens;
    OnlyWriters(e, s, step, id);
    if step.Handle? && WritesRow(s, step.w, id) {
      HeldAnswer(e, s, step.w, id);
      HarmlessCall(e, s, step, id);
    } else if step.Create? && step.id == id && CreateWrites(s, id) {
      SafeUpload(e, s, id);
      LastWriteIsFailure(e, s, step, id);
    }
  }

  lemma SafeUpload(e: Engine, s: State, id: Id)
    requires Safe(e, s) && id in s.uploads
    ensures UploadOk(s, id)
  {
  }

  /** No process becomes a threat to a failed row whose message is settled. */
  lemma StaysHarmless(e: Engine, s: State, step: Step, id: Id, w: WorkerId)
    requires Enabled(e, s, step) && id in s.uploads && s.uploads[id].msg.Some?
    requires HasStatus(s, id, Failed) && HasStatus(Apply(e, s, step), id, Failed)
    requires s.uploads[id].msg.value !in s.world.broker.queue
    requires id in Apply(e, s, step).uploads && SameFile(s.uploads[id], Apply(e, s, step).uploads[id])
    requires Apply(e, s, step).uploads[id].msg == s.uploads[id].msg
    requires w in Apply(e, s, step).workers && (w in s.workers ==> !Threatens(e, s, s.workers[w], id))
    ensures !Threatens(e, Apply(e, s, step), Apply(e, s, step).workers[w], id)
  {
    hide Answerable;
    var m := s.uploads[id].msg.value;
    var p' := Apply(e, s, step).workers[w];
    if w in s.workers && step.Start? && step.w == w {
      assert step.d in s.workers[w].inbox;
    }
    assert !WillStart(p', m);
  }

  lemma FailedForGoodStep(e: Engine, s: State, step: Step, id: Id)
    requires Safe(e, s) && Enabled(e, s, step) && FailedForGood(e, s, id)
    ensures FailedForGood(e, Apply(e, s, step), id)
  {
    var s' := Apply(e, s, step);
    FailedStaysFailed(e, s, step, id);
    HandlerMovesOn(e, s, step, id);
    assert Grows(s, s') by { StepKeepsSafe(e, s, step); }
    if s.uploads[id].msg.Some? {
      var m := s.uploads[id].msg.value;
      SettledStays(e, s, step, m);
      SettledIsNotQueued(s, m);
      forall w | w in s'.workers ensures !Threatens(e, s', s'.workers[w], id) {
        StaysHarmless(e, s, step, id, w);
      }
    }
  }

  lemma {:induction false} FailedForGoodStays(e: Engine, s: State, steps: seq<Step>, t: State, id: Id)
    requires Safe(e, s) && Leads(e, s, steps, t) && FailedForGood(e, s, id)
    ensures HasStatus(t, id, Failed)
    decreases |steps|
  {
    hide Safe;
    if steps != [] {
      FailedForGoodStep(e, s, steps[0], id);
      StepKeepsSafe(e, s, steps[0]);
      FailedForGoodStays(e, Apply(e, s, steps[0]), steps[1..], t, id);
    }
  }

  // ---- a callback that may complete a failed row -----------------------------------

  lemma SavingCanComplete(e: Engine, s: State, w: WorkerId, id: Id) returns (steps: seq<Step>, t: State)
    requires Safe(e, s) && id in s.uploads && s.uploads[id].msg.Some? && Answerable(e, s.uploads[id].bytes)
    requires w in s.workers && InCallbackFor(s.workers[w], s.uploads[id].msg.value)
    requires s.workers[w].handler.value.pc.Saving?
    ensures Leads(e, s, steps, t) && HasStatus(t, id, Completed) && id in t.world.tables.results
    ensures t.uploads == s.uploads && WorksOn(t, w, id, Acking)
  {
    CallbackOf(e, s, w, id);
    HeldAnswer(e, s, w, id);
    hide Path, Safe, WorksOn, UploadOk;
    steps, t := SaveAnswer(e, s, w, id, s.workers[w].handler.value.pc.result);
    PathLeads(e, s, steps, t);
  }

  lemma ClassifyingCanComplete(e: Engine, s: State, w: WorkerId, id: Id) returns (steps: seq<Step>, t: State)
    requires Safe(e, s) && id in s.uploads && s.uploads[id].msg.Some? && Answerable(e, s.uploads[id].bytes)
    requires w in s.workers && InCallbackFor(s.workers[w], s.uploads[id].msg.value)
    requires s.workers[w].handler.value.pc.Classifying?
    ensures Leads(e, s, steps, t) && HasStatus(t, id, Completed) && id in t.world.tables.results
    ensures t.uploads == s.uploads && WorksOn(t, w, id, Acking)
  {
    CallbackOf(e, s, w, id);
    HeldAnswer(e, s, w, id);
    hide Path, Safe, UploadOk, Leads, Answerable;
    var a, u, r := ClassifyBytes(e, s, w, id);
    PathLeads(e, s, a, u);
    LeadsSafely(e, s, a, u, id);
    var b;
    b, t := SavingCanComplete(e, u, w, id);
    RunThen(e, s, a, u, b, t);
    steps := a + b;
  }

  lemma InferringCanComplete(e: Engine, s: State, w: WorkerId, id: Id) returns (steps: seq<Step>, t: State)
    requires Safe(e, s) && id in s.uploads && s.uploads[id].msg.Some? && Answerable(e, s.uploads[id].bytes)
    requires w in s.workers && InCallbackFor(s.workers[w], s.uploads[id].msg.value)
    requires Inferring(s.workers[w].handler.value.pc)
    ensures Leads(e, s, steps, t) && HasStatus(t, id, Completed) && id in t.world.tables.results
    ensures t.uploads == s.uploads && WorksOn(t, w, id, Acking)
  {
    hide Path, Safe, UploadOk, Leads, Answerable;
    var pc := s.workers[w].handler.value.pc;
    if pc.Saving? {
      steps, t := SavingCanComplete(e, s, w, id);
    } else if pc.Classifying? {
      steps, t := ClassifyingCanComplete(e, s, w, id);
    } else {
      CallbackOf(e, s, w, id);
      var a, u := FetchBytes(e, s, w, id);
      PathLeads(e, s, a, u);
      LeadsSafely(e, s, a, u, id);
      var b;
      b, t := ClassifyingCanComplete(e, u, w, id);
      RunThen(e, s, a, u, b, t);
      steps := a + b;
    }
  }

  // ---- both directions ---------------------------------------------------------------

  lemma ThreatIsReal(e: Engine, s: State, w: WorkerId, id: Id)
    requires Safe(e, s) && id in s.uploads && s.uploads[id].msg.Some? && TerminalRow(s, id)
    requires w in s.workers && Threatens(e, s, s.workers[w], id)
    ensures StatusEverChanges(e, s, id)
  {
    hide Leads, Safe, WillStart, Answerable;
    var status := s.world.tables.requests[id].status;
    var m := s.uploads[id].msg.value;
    var steps, t;
    if WillStart(s.workers[w], m) {
      steps, t := WaitingCanClaim(e, s, w, id, 0);
    } else if s.workers[w].handler.value.pc.Marking? {
      steps, t := CallbackCanClaim(e, s, w, id, 0);
    } else if HasStatus(s, id, Completed) && MayWrite(s.workers[w].handler.value.pc) {
      var message;
      steps, t, message := CallbackCanFail(e, s, w, id, 0);
    } else {
      steps, t := InferringCanComplete(e, s, w, id);
    }
    assert !HasStatus(t, id, status);
  }

  lemma EverRiskIsReal(e: Engine, s: State, id: Id)
    requires Safe(e, s) && id in s.uploads && TerminalRow(s, id) && EverAtRisk(e, s, id)
    ensures StatusEverChanges(e, s, id)
  {
    SafeUpload(e, s, id);
    hide Leads, Path, Safe, Unsettled, UploadOk, Threatens;
    var status := s.world.tables.requests[id].status;
    if Unsettled(s, id) {
      var steps, t, w := Reclaim(e, s, id, 0);
      assert !HasStatus(t, id, status);
    } else if AtRisk(s, id) {
      var steps, t := Compensate(e, s, id, 0);
      PathLeads(e, s, steps, t);
      assert !HasStatus(t, id, status);
    } else {
      var w :| w in s.workers && Threatens(e, s, s.workers[w], id);
      ThreatIsReal(e, s, w, id);
    }
  }

  /** A completed row nobody can touch is retired; a failed one is failed for good. */
  lemma NoRiskMeansSettled(e: Engine, s: State, id: Id)
    requires Safe(e, s) && id in s.uploads && TerminalRow(s, id) && !EverAtRisk(e, s, id)
    ensures if HasStatus(s, id, Completed) then Retired(s, id) else FailedForGood(e, s, id)
  {
  }

  /** In every reachable state, whatever faults may follow: a terminal status can still change exactly
      when the message is unsettled, or the backend may yet fail a completed row, or a process with a
      stale delivery may claim the row, fail a completed one or complete a failed one. */
  lemma TerminalExactlyWhenUnthreatened(e: Engine, s: State, id: Id)
    requires Reachable(e, s) && TerminalRow(s, id)
    ensures id in s.uploads && (StatusEverChanges(e, s, id) <==> EverAtRisk(e, s, id))
  {
    ReachableIsSafe(e, s);
    RowsHaveUploads(e, s);
    hide Safe, Leads, EverAtRisk, Retired, FailedForGood;
    if EverAtRisk(e, s, id) {
      EverRiskIsReal(e, s, id);
    } else {
      NoRiskMeansSettled(e, s, id);
      forall steps, t | Leads(e, s, steps, t) ensures HasStatus(t, id, s.world.tables.requests[id].status) {
        if HasStatus(s, id, Completed) {
          RetiredIsFrozen(e, s, steps, t, id);
        } else {
          FailedForGoodStays(e, s, steps, t, id);
        }
      }
    }
  }
}
