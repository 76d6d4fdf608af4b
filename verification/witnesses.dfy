/** Runs from the initial state that break the comments the code does not keep unconditionally. */
module Witnesses {
  import opened Domain
  import opened Database
  import opened Broker
  import opened Worker
  import opened Upload
  import opened Pipeline
  import opened Safety
  import opened Orderly
  import opened Moves

  predicate Uploadable(id: Id, u: Upload) {
    IsUuid(id) && u.pc == Putting && u.msg == None && u.bytes != []
  }

  /** An upload whose message the broker has taken, up to the wait for the confirmation. */
  lemma UploadedUnconfirmed(e: Engine, id: Id, u: Upload) returns (steps: seq<Step>, s: State)
    requires Uploadable(id, u)
    ensures Path(e, INITIAL, steps, s) && Tidy(e, s)
    ensures Unsettled(s, id) && s.uploads[id].pc.Confirming? && SameFile(u, s.uploads[id])
  {
    InitialIsSafe(e);
    InitialAttended();
    var a, s0 := ExtendPath(e, INITIAL, [], INITIAL, Arrive(id, u));
    PathKeepsTidy(e, INITIAL, a, s0);
    var b;
    b, s := Publish(e, s0, id);
    PathKeepsTidy(e, s0, b, s);
    PathThen(e, INITIAL, a, s0, b, s);
    steps := a + b;
  }

  lemma Confirm(e: Engine, s: State, id: Id, ok: bool) returns (steps: seq<Step>, t: State)
    requires Tidy(e, s) && Unsettled(s, id) && s.uploads[id].pc.Confirming?
    ensures Path(e, s, steps, t) && Tidy(e, t) && Unsettled(t, id) && SameFile(s.uploads[id], t.uploads[id])
    ensures t.uploads[id].pc == if ok then Finished(Accepted202) else Compensating
  {
    steps, t := ExtendPath(e, s, [], s, Create(id, ConfirmReplies(ok)));
    PathKeepsTidy(e, s, steps, t);
  }

  lemma Uploaded(e: Engine, id: Id, u: Upload) returns (steps: seq<Step>, s: State)
    requires Uploadable(id, u)
    ensures Path(e, INITIAL, steps, s) && Tidy(e, s)
    ensures Unsettled(s, id) && s.uploads[id].pc == Finished(Accepted202) && SameFile(u, s.uploads[id])
  {
    hide Path, Tidy;
    var a, s0 := UploadedUnconfirmed(e, id, u);
    var b;
    b, s := Confirm(e, s0, id, true);
    PathThen(e, INITIAL, a, s0, b, s);
    steps := a + b;
  }

  /** One attempt at an unsettled upload, up to its ack. */
  lemma Attempted(e: Engine, s: State, id: Id) returns (steps: seq<Step>, t: State, w: WorkerId)
    requires Tidy(e, s) && Unsettled(s, id) && Answerable(e, s.uploads[id].bytes)
    ensures Path(e, s, steps, t) && Tidy(e, t) && WorksOn(t, w, id, Acking) && Unsettled(t, id)
    ensures HasStatus(t, id, Completed) && id in t.world.tables.results && t.uploads == s.uploads
  {
    hide Path, Tidy, Answerable;
    var a, u;
    a, u, w := Claim(e, s, id, 0);
    var b;
    b, t := Answer(e, u, w, id);
    PathThen(e, s, a, u, b, t);
    WorkerIsUnsettled(e, t, w, id, Acking);
    steps := a + b;
  }

  /** A worker that dies between its commit and its ack: the redelivery puts a completed row back to
      `processing` while its prediction stays readable. So a terminal status can change, and a
      prediction can be visible at another status, with every call answered truthfully. */
  lemma CrashReopensCompletedRow(e: Engine, id: Id, u: Upload)
    returns (done: seq<Step>, completed: State, more: seq<Step>, reopened: State)
    requires Uploadable(id, u) && Answerable(e, u.bytes)
    ensures Path(e, INITIAL, done, completed) && HasStatus(completed, id, Completed)
    ensures done <= more && Path(e, INITIAL, more, reopened) && HasStatus(reopened, id, Processing)
    ensures Deaths(more) <= Deaths(done) + 1
    ensures var dto := FindRequest(reopened.world.tables, id).value;
            dto.prediction.Some? && dto.status != Completed
  {
    hide Path, Tidy, Answerable;
    var a, s := Uploaded(e, id, u);
    var b, w;
    b, completed, w := Attempted(e, s, id);
    PathThen(e, INITIAL, a, s, b, completed);
    done := a + b;
    var c;
    c, reopened, w := Claim(e, completed, id, 0);
    PathThen(e, INITIAL, done, completed, c, reopened);
    DeathsAdd(done, c);
    more := done + c;
  }

  /** A worker that dies between recording a failure and dead-lettering the message: the redelivery
      leaves the error text on a row that says `processing`. */
  lemma ErrorOutlivesFailure(e: Engine, id: Id, u: Upload) returns (steps: seq<Step>, s: State)
    requires Uploadable(id, u)
    ensures Path(e, INITIAL, steps, s) && HasStatus(s, id, Processing)
    ensures !ErrorOnlyWhenFailed(s.world.tables, id)
  {
    hide Path, Tidy;
    var a, s0 := Uploaded(e, id, u);
    var b, s1, w := Claim(e, s0, id, 0);
    var c, s2 := Break(e, s1, w, id, 0);
    WorkerIsUnsettled(e, s2, w, id, DeadLettering(true));
    var d;
    d, s, w := Claim(e, s2, id, 0);
    PathThen(e, INITIAL, a, s0, b, s1);
    PathThen(e, INITIAL, a + b, s1, c, s2);
    PathThen(e, INITIAL, a + b + c, s2, d, s);
    steps := a + b + c + d;
  }

  /** A publish confirmation lost after the worker was done: the backend fails a completed row and
      answers 503 for an upload that has its prediction. */
  lemma LostConfirmationOverturns(e: Engine, id: Id, u: Upload)
    returns (done: seq<Step>, completed: State, more: seq<Step>, failed: State)
    requires Uploadable(id, u) && Answerable(e, u.bytes)
    ensures Path(e, INITIAL, done, completed) && HasStatus(completed, id, Completed)
    ensures done <= more && Path(e, INITIAL, more, failed) && HasStatus(failed, id, Failed)
    ensures id in failed.uploads && failed.uploads[id].pc == Finished(Unavailable503)
    ensures FindRequest(failed.world.tables, id).value.prediction.Some?
  {
    hide Path, Tidy, Answerable;
    var a, s := UploadedUnconfirmed(e, id, u);
    var b, w;
    b, completed, w := Attempted(e, s, id);
    PathThen(e, INITIAL, a, s, b, completed);
    done := a + b;
    TidyUpload(e, completed, id);
    var c;
    c, failed := Compensate(e, completed, id, 0);
    PathThen(e, INITIAL, done, completed, c, failed);
    more := done + c;
  }

  lemma WorkerIsLive(e: Engine, s: State, w: WorkerId, id: Id, pc: Pc)
    requires Tidy(e, s) && WorksOn(s, w, id, pc)
    ensures Live(s.world.broker, s.workers[w].handler.value.delivery)
    ensures s.uploads[id].msg.value in s.world.broker.messages
  {
    hide UploadsOk, MessagesOk, TablesOk, WorkersOk;
    assert ProcessAttends(s, w) && s.workers[w].handler.value.delivery in Held(s.workers[w]);
    assert DeliveryOk(s.world.broker, s.uploads[id].msg.value);
  }

  lemma UnexpectedIsFailed(red: bool)
    ensures Caught(OtherException, red) == Failing(Unexpected)
  {
  }

  lemma AckRaises(e: Engine, s: State, w: WorkerId, id: Id) returns (step: Step, t: State)
    requires WorksOn(s, w, id, Acking) && Live(s.world.broker, s.workers[w].handler.value.delivery)
    requires s.uploads[id].msg.value in s.world.broker.messages
    ensures step == Handle(w, BrokerReplies(true, Raised(OtherException)))
    ensures Enabled(e, s, step) && t == Apply(e, s, step)
    ensures WorksOn(t, w, id, Failing(Unexpected))
    ensures t.world.tables == s.world.tables && t.uploads == s.uploads
    ensures s.uploads[id].msg.value in t.world.broker.acked
  {
    UnexpectedIsFailed(s.workers[w].handler.value.delivery.redelivered);
    hide Caught, ParseJob, BuildKey;
    step := Handle(w, BrokerReplies(true, Raised(OtherException)));
    t := Apply(e, s, step);
  }

  /** An ack that takes effect but raises: the catch-all fails the row of an acknowledged message,
      although the message was settled and the request handler done. */
  lemma RaisingAckOverturns(e: Engine, id: Id, u: Upload)
    returns (done: seq<Step>, acked: State, more: seq<Step>, failed: State)
    requires Uploadable(id, u) && Answerable(e, u.bytes)
    ensures Leads(e, INITIAL, done, acked) && HasStatus(acked, id, Completed) && Closed(acked, id)
    ensures acked.uploads[id].msg.Some? && acked.uploads[id].msg.value in acked.world.broker.acked
    ensures done <= more && Leads(e, INITIAL, more, failed) && HasStatus(failed, id, Failed)
  {
    hide Tidy, Answerable, Leads, UploadOk;
    var a, s := Uploaded(e, id, u);
    var b, s1, w := Attempted(e, s, id);
    TidyUpload(e, s1, id);
    WorkerIsLive(e, s1, w, id, Acking);
    var step;
    step, acked := AckRaises(e, s1, w, id);
    RunThen(e, INITIAL, a, s, b, s1);
    OneStep(e, s1, step);
    RunThen(e, INITIAL, a + b, s1, [step], acked);
    done := a + b + [step];
    var d;
    assert UploadOk(acked, id) by { RunFromTheStart(e, done, acked, id); }
    d, failed := RecordFailure(e, acked, w, id, Unexpected, 0);
    RunThen(e, INITIAL, done, acked, d, failed);
    more := done + d;
  }

  lemma RunFromTheStart(e: Engine, steps: seq<Step>, s: State, id: Id)
    requires Leads(e, INITIAL, steps, s) && id in s.uploads
    ensures UploadOk(s, id)
  {
    InitialIsSafe(e);
    RunKeepsSafe(e, INITIAL, steps);
  }
}
