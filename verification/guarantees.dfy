/** What the invariant of Safety means for the people using the pipeline, fault class by fault
    class: everything here holds in every reachable state, whatever has failed on the way. */
module Guarantees {
  import opened Domain
  import opened Database
  import opened Broker
  import opened Services
  import opened Worker
  import opened Upload
  import opened Pipeline
  import opened Safety

  /** Every answer a browser can read equals a direct call of the engine on the bytes that were
      uploaded under that id, and every `completed` answer carries one. */
  lemma AnswersAgreeWithEngine(e: Engine, s: State, id: Id)
    requires Reachable(e, s)
    ensures var dto := FindRequest(s.world.tables, id);
            dto.Some? ==>
              && id in s.uploads
              && (dto.value.status == Completed ==> dto.value.prediction.Some?)
              && (dto.value.prediction.Some? ==>
                    e.classify(s.uploads[id].bytes) == Some(dto.value.prediction.value.prediction)
                    && dto.value.prediction.value.modelArch == e.arch)
  {
    ReachableIsSafe(e, s);
    if id in s.world.tables.requests { assert RowOk(s, id); }
    if id in s.world.tables.results { assert ResultOk(e, s, id); }
  }

  /** Whatever else it says, an answer describes the upload it is about. */
  lemma AnswersDescribeTheUpload(e: Engine, s: State, id: Id)
    requires Reachable(e, s)
    ensures var dto := FindRequest(s.world.tables, id);
            dto.Some? ==>
              && id in s.uploads && dto.value.requestId == id
              && dto.value.originalName == s.uploads[id].originalName
              && dto.value.contentType == s.uploads[id].contentType
              && dto.value.sizeBytes == |s.uploads[id].bytes| > 0
  {
    ReachableIsSafe(e, s);
    if id in s.world.tables.requests { assert RowOk(s, id) && UploadOk(s, id); }
  }

  /** Each write of a callback reaches the reader as it was made: the claim, the answer, the failure. */
  lemma WritesAreReported(e: Engine, s: State, w: WorkerId, c: Choice)
    requires Safe(e, s) && Enabled(e, s, Handle(w, c)) && c.DbReplies? && c.applied
    requires var h := s.workers[w].handler.value; h.job.Some? && h.job.value.id in s.world.tables.requests
    ensures var h := s.workers[w].handler.value;
            var id := h.job.value.id;
            var before := FindRequest(s.world.tables, id).value;
            var after := FindRequest(Apply(e, s, Handle(w, c)).world.tables, id);
            after == match h.pc
                     case Marking => Some(before.(status := Processing, startedAt := Some(c.now)))
                     case Saving(result) => Some(before.(status := Completed, completedAt := Some(c.now),
                                                         errorMessage := None, prediction := Some(result)))
                     case Failing(message) => Some(before.(status := Failed, completedAt := Some(c.now),
                                                           errorMessage := Some(Standard(message))))
                     case _ => after
  {
  }

  /** The columns of every row agree with its status, and no stored error text was cut. */
  lemma RowsAreWellShaped(e: Engine, s: State, id: Id)
    requires Reachable(e, s) && id in s.world.tables.requests
    ensures var row := s.world.tables.requests[id];
            && RowShape(row, id in s.world.tables.results)
            && id in s.uploads && row.imageKey == KeyOf(id, s.uploads[id])
            && (row.status == Failed ==> 0 < |Rendered(row.errorMessage.value)| <= MAX_ERROR_LENGTH)
  {
    ReachableIsSafe(e, s);
    assert RowOk(s, id);
    var row := s.world.tables.requests[id];
    if row.status == Failed { SentencesAreNeverCut(row.errorMessage.value.sentence); }
  }

  /** A worker handling a message the backend published never finds its row or its object missing,
      whatever the interleaving. */
  lemma NoRace(e: Engine, s: State, w: WorkerId, c: Choice)
    requires Reachable(e, s) && Enabled(e, s, Handle(w, c))
    requires var h := s.workers[w].handler.value; h.job.Some? && h.job.value.id !in s.foreign
    ensures var h := s.workers[w].handler.value;
            && (h.pc.Marking? ==> c.reply != Raised(RequestNotFound))
            && (h.pc.Downloading? ==> Download(c.s3) != FetchRaised(ObjectNotFound))
            && (c.S3Replies? && c.s3.Content? ==>
                  h.job.value.id in s.uploads && c.s3.bytes == s.uploads[h.job.value.id].bytes)
  {
    ReachableIsSafe(e, s);
    assert ProcessOk(e, s, s.workers[w]);
    assert MessageOk(s, s.workers[w].handler.value.delivery.msg);
  }

  /** The ordering of the three writes, seen from the message: wherever it is, the row and the object
      it names exist, and the object holds the uploaded bytes. */
  lemma MessagesHaveRowAndObject(e: Engine, s: State, m: MsgId)
    requires Reachable(e, s) && m in s.world.broker.messages
    ensures var job := ParseJob(s.world.broker.messages[m].body);
            job.Some? && job.value.id !in s.foreign ==>
              && job.value.id in s.uploads && s.uploads[job.value.id].msg == Some(m)
              && job.value.id in s.world.tables.requests
              && s.world.tables.requests[job.value.id].imageKey == job.value.key
              && job.value.key in s.world.bucket
              && s.world.bucket[job.value.key] == s.uploads[job.value.id].bytes
  {
    ReachableIsSafe(e, s);
    assert MessageOk(s, m);
    var job := ParseJob(s.world.broker.messages[m].body);
    if job.Some? && job.value.id !in s.foreign { assert RowOk(s, job.value.id); }
  }

  /** Every message the broker ever accepted is in exactly one place, and one that is out for an
      answer is out on a live connection. */
  lemma MessagesAreConserved(e: Engine, s: State, m: MsgId)
    requires Reachable(e, s)
    ensures m < s.world.broker.nextMsg <==> m in s.world.broker.messages
    ensures m in s.world.broker.messages ==> Conserved(s.world.broker, m)
    ensures m in s.world.broker.unacked ==> s.world.broker.unacked[m].conn in s.world.broker.live
    ensures m in s.world.broker.queue || m in s.world.broker.unacked || SettledMsg(s.world.broker, m)
            ==> m in s.world.broker.messages
  {
    ReachableIsSafe(e, s);
    if m in s.world.broker.unacked { assert DeliveryOk(s.world.broker, m); }
  }

  /** A message is handed back by a handler at most once, and only if its connection never failed
      it; its deliveries are bounded by its losses. */
  lemma RetriesAreBounded(e: Engine, s: State, m: MsgId)
    requires Reachable(e, s) && m in s.world.broker.messages
    ensures var x := s.world.broker.messages[m];
            x.requeues <= 1 && x.deliveries <= 2 + x.losses
            && (!x.redelivered ==> x.deliveries <= 1)
  {
    ReachableIsSafe(e, s);
    assert Accounted(s.world.broker, m);
  }

  predicate SameHandBacks(b: Broker, b': Broker, m: MsgId)
    requires m in b.messages
  {
    m in b'.messages && (b.messages[m].redelivered ==> b'.messages[m].redelivered)
    && b'.messages[m].requeues == b.messages[m].requeues
  }

  lemma CallHandsBackOnlyFreshDeliveries(e: Engine, w: World, h: Handler, c: Choice, m: MsgId)
    requires BrokerOk(w.broker) && Legal(e, w, h, c) && m in w.broker.messages
    requires h.pc.Requeueing? ==> !h.delivery.redelivered
    requires w.broker.messages[m].redelivered
    ensures SameHandBacks(w.broker, Effect(w, h, c).broker, m)
  {
  }

  /** The step-by-step form: once a message is marked redelivered it is never handed back again. */
  lemma HandBackIsFinal(e: Engine, s: State, step: Step, m: MsgId)
    requires BrokerOk(s.world.broker) && WorkersOk(e, s) && Enabled(e, s, step) && m in s.world.broker.messages
    requires s.world.broker.messages[m].redelivered
    ensures SameHandBacks(s.world.broker, Apply(e, s, step).world.broker, m)
  {
    if step.Handle? {
      assert ProcessOk(e, s, s.workers[step.w]);
      CallHandsBackOnlyFreshDeliveries(e, s.world, s.workers[step.w].handler.value, step.choice, m);
    }
  }

  lemma {:induction false} NeverHandedBackAgain(e: Engine, s: State, steps: seq<Step>, m: MsgId)
    requires Safe(e, s) && IsRun(e, s, steps) && m in s.world.broker.messages
    requires s.world.broker.messages[m].redelivered
    ensures var b' := After(e, s, steps).world.broker;
            m in b'.messages && b'.messages[m].requeues == s.world.broker.messages[m].requeues
    decreases |steps|
  {
    if steps != [] {
      HandBackIsFinal(e, s, steps[0], m);
      StepKeepsSafe(e, s, steps[0]);
      NeverHandedBackAgain(e, Apply(e, s, steps[0]), steps[1..], m);
    }
  }

  /** An acknowledged message has a committed result. */
  lemma AckedMeansAnswered(e: Engine, s: State, m: MsgId)
    requires Reachable(e, s) && m in s.world.broker.acked
    ensures m in s.world.broker.messages
    ensures var job := ParseJob(s.world.broker.messages[m].body);
            job.Some? && job.value.id in s.world.tables.results
            && job.value.id in s.uploads && s.uploads[job.value.id].msg == Some(m)
  {
    ReachableIsSafe(e, s);
    assert m in s.world.broker.messages && MessageOk(s, m) && SettledOk(s, m);
    var id := ParseJob(s.world.broker.messages[m].body).value.id;
    assert ResultOk(e, s, id);
  }

  /** What the three endings of `create` leave behind. */
  lemma CompensationIsComplete(e: Engine, s: State, id: Id)
    requires Reachable(e, s) && id in s.uploads
    ensures var u := s.uploads[id];
            var b, t := s.world.broker, s.world.tables;
            && (u.pc == Finished(Accepted202) ==>
                  && u.msg.Some? && u.msg.value in b.messages && b.messages[u.msg.value].body == BodyOf(id, u)
                  && id in t.requests && Stored(s, id))
            && (u.pc == Finished(Unavailable503) ==>
                  id in t.requests && t.requests[id].status != Pending
                  && (u.msg.None? ==> t.requests[id].status == Failed))
  {
    ReachableIsSafe(e, s);
    assert UploadOk(s, id);
  }

  /** A row left `pending` with no message anywhere: its handler is still at work, or it crashed,
      or markFailed raised, or the INSERT committed and its reply was lost. */
  predicate StrandedReason(pc: CreatePc) {
    || pc == Publishing
    || pc == Compensating
    || pc == Finished(Crashed)
    || pc == Finished(CompensationRaised(false))
    || pc == Finished(InsertRaised(true))
  }

  /** A row that still says `pending` is always accounted for. */
  lemma PendingIsExplained(e: Engine, s: State, id: Id)
    requires Reachable(e, s) && id in s.world.tables.requests
    requires s.world.tables.requests[id].status == Pending
    ensures id in s.uploads
    ensures var u := s.uploads[id];
            if u.msg.None? then StrandedReason(u.pc)
            else
              var m, b := u.msg.value, s.world.broker;
              m in b.queue || m in b.unacked || (m in b.dead && m in s.unrecorded)
  {
    ReachableIsSafe(e, s);
    assert RowOk(s, id) && UploadOk(s, id);
    var u := s.uploads[id];
    if u.msg.Some? {
      var m := u.msg.value;
      PublishedJobParses(id, KeyOf(id, u), u.contentType);
      assert MessageOk(s, m) && SettledOk(s, m) && Conserved(s.world.broker, m);
    }
  }

  /** The compensating write itself: a 503 is only sent once the row says `failed`. */
  lemma UnavailableMeansFailed(e: Engine, s: State, id: Id, c: CreateChoice)
    requires Safe(e, s) && Enabled(e, s, Create(id, c))
    requires Apply(e, s, Create(id, c)).uploads[id].pc == Finished(Unavailable503)
    ensures var t := Apply(e, s, Create(id, c)).world.tables;
            && id in t.requests && t.requests[id].status == Failed
            && t.requests[id].errorMessage == Some(Standard(NotQueued))
            && FindRequest(t, id).Some? && FindRequest(t, id).value.status == Failed
            && FindRequest(t, id).value.errorMessage == Some(Standard(NotQueued))
  {
    assert UploadOk(s, id);
  }
}
