/** What may happen next: continuations that any state with the right message or handler allows. */
module Moves {
  import opened Domain
  import opened Database
  import opened Broker
  import opened Services
  import opened Worker
  import opened Upload
  import opened Pipeline
  import opened Safety
  import opened Orderly

  /** The upload's message was accepted and is neither acknowledged nor dead-lettered. */
  predicate Unsettled(s: State, id: Id) {
    id in s.uploads && s.uploads[id].msg.Some? && !SettledMsg(s.world.broker, s.uploads[id].msg.value)
  }

  /** Process w is in the callback for the message of upload id, at pc. */
  predicate WorksOn(s: State, w: WorkerId, id: Id, pc: Pc) {
    && w in s.workers && s.workers[w].handler.Some?
    && id in s.uploads
    && var h := s.workers[w].handler.value;
       && h.pc == pc && h.job == Some(Job(id, KeyOf(id, s.uploads[id])))
       && s.uploads[id].msg == Some(h.delivery.msg)
  }

  /** Only the callback of process w has moved between s and t, apart from the services. */
  predicate OnlyCallback(s: State, t: State, w: WorkerId) {
    && t.uploads == s.uploads && w in s.workers && w in t.workers
    && t.workers == s.workers[w := s.workers[w].(handler := t.workers[w].handler)]
  }

  lemma WorkerIsUnsettled(e: Engine, s: State, w: WorkerId, id: Id, pc: Pc)
    requires Tidy(e, s) && WorksOn(s, w, id, pc)
    ensures id in s.uploads && Unsettled(s, id)
  {
    hide UploadsOk, MessagesOk, TablesOk, WorkersOk;
    var d := s.workers[w].handler.value.delivery;
    assert ProcessAttends(s, w) && d in Held(s.workers[w]);
    assert Conserved(s.world.broker, d.msg);
  }

  lemma TidyUpload(e: Engine, s: State, id: Id)
    requires Tidy(e, s) && id in s.uploads
    ensures UploadOk(s, id)
  {
  }

  // ---- taking up a queued message -----------------------------------------

  /** The message of upload id waits in the queue and process w is free to connect for it. */
  predicate Offered(s: State, w: WorkerId, id: Id) {
    && (w in s.workers ==> !s.workers[w].connected)
    && id in s.uploads && s.uploads[id].msg.Some?
    && s.uploads[id].msg.value in s.world.broker.queue
  }

  /** An upload whose message exists has its row, and the message carries its job. */
  lemma MessageCarriesJob(e: Engine, s: State, id: Id)
    requires id in s.uploads && UploadOk(s, id) && s.uploads[id].msg.Some?
    ensures IsUuid(id) && id in s.world.tables.requests && s.uploads[id].msg.value in s.world.broker.messages
    ensures ParseJob(s.world.broker.messages[s.uploads[id].msg.value].body)
            == Some(Job(id, KeyOf(id, s.uploads[id])))
  {
  }

  lemma TakeUp(e: Engine, s: State, w: WorkerId, id: Id) returns (steps: seq<Step>, t: State)
    requires Offered(s, w, id) && UploadOk(s, id)
    ensures Path(e, s, steps, t) && WorksOn(t, w, id, Marking)
    ensures t.world.tables == s.world.tables && t.uploads == s.uploads && t.workers[w].connected
    ensures t.world.broker.messages.Keys == s.world.broker.messages.Keys
    ensures s.uploads[id].msg.value in t.world.broker.unacked && Deaths(steps) == 0
  {
    MessageCarriesJob(e, s, id);
    hide UploadOk, CreateLegal, CreateAdvance, Legal, Effect, NextPc;
    var m := s.uploads[id].msg.value;
    steps, t := ExtendPath(e, s, [], s, Connect(w));
    var d := NextDelivery(t.world.broker, m, ConnOf(t, w));
    steps, t := ExtendPath(e, s, steps, t, HandOut(w, m));
    steps, t := ExtendPath(e, s, steps, t, Start(w, d));
  }

  /** The claim of a callback that has just begun. */
  lemma Mark(e: Engine, s: State, w: WorkerId, id: Id, now: Time) returns (steps: seq<Step>, t: State)
    requires WorksOn(s, w, id, Marking) && UploadOk(s, id)
    ensures Path(e, s, steps, t) && WorksOn(t, w, id, Downloading)
    ensures t.world.tables == AfterMarkProcessing(s.world.tables, id, now)
    ensures t.uploads == s.uploads && id in s.world.tables.requests
    ensures t.world.broker == s.world.broker && Deaths(steps) == 0
  {
    MessageCarriesJob(e, s, id);
    steps, t := ExtendPath(e, s, [], s, Handle(w, DbReplies(true, Returned, now)));
  }

  /** Where an unsettled message is, and whose crash would free it. */
  lemma HolderOrQueue(s: State, m: MsgId) returns (w: WorkerId)
    requires BrokerOk(s.world.broker) && AllAttended(s)
    requires m in s.world.broker.messages && !SettledMsg(s.world.broker, m)
    ensures if m in s.world.broker.unacked
            then w in s.workers && s.workers[w].connected && s.world.broker.unacked[m].conn == ConnOf(s, w)
            else m in s.world.broker.queue
  {
    assert Conserved(s.world.broker, m);
    w := 0;
    if m in s.world.broker.unacked {
      assert Attended(s, m);
      w := s.world.broker.unacked[m].conn.worker;
      assert ProcessAttends(s, w);
    }
  }

  lemma CrashFrees(e: Engine, s: State, w: WorkerId, m: MsgId)
    requires w in s.workers && s.workers[w].connected
    requires m in s.world.broker.queue
             || (m in s.world.broker.unacked && s.world.broker.unacked[m].conn == ConnOf(s, w))
    ensures Enabled(e, s, Crash(w))
    ensures var t := Apply(e, s, Crash(w));
            && m in t.world.broker.queue && w in t.workers && !t.workers[w].connected
            && t.world.tables == s.world.tables && t.uploads == s.uploads
  {
  }

  /** At most one crash, of process w, offers the message. */
  lemma FreeByCrash(e: Engine, s: State, w: WorkerId, id: Id) returns (steps: seq<Step>, t: State)
    requires id in s.uploads && s.uploads[id].msg.Some?
    requires var m := s.uploads[id].msg.value;
             || m in s.world.broker.queue
             || (m in s.world.broker.unacked && w in s.workers && s.workers[w].connected
                 && s.world.broker.unacked[m].conn == ConnOf(s, w))
    ensures Path(e, s, steps, t) && Offered(t, w, id)
    ensures t.world.tables == s.world.tables && t.uploads == s.uploads && Deaths(steps) <= 1
  {
    hide Enabled, Apply;
    EmptyPath(e, s);
    steps, t := [], s;
    if w in s.workers && s.workers[w].connected {
      CrashFrees(e, s, w, s.uploads[id].msg.value);
      steps, t := ExtendPath(e, s, steps, t, Crash(w));
    }
  }

  lemma Offer(e: Engine, s: State, id: Id) returns (steps: seq<Step>, t: State, w: WorkerId)
    requires Tidy(e, s) && Unsettled(s, id)
    ensures Path(e, s, steps, t) && Offered(t, w, id)
    ensures t.world.tables == s.world.tables && t.uploads == s.uploads && Deaths(steps) <= 1
  {
    var m := s.uploads[id].msg.value;
    assert m in s.world.broker.messages by { assert UploadOk(s, id); }
    w := HolderOrQueue(s, m);
    steps, t := FreeByCrash(e, s, w, id);
  }

  /** However far an attempt has got, an unsettled upload can be put back to `processing` by at most
      one crash of the process that holds it. */
  lemma Claim(e: Engine, s: State, id: Id, now: Time) returns (steps: seq<Step>, t: State, w: WorkerId)
    requires Tidy(e, s) && Unsettled(s, id)
    ensures Path(e, s, steps, t) && Tidy(e, t) && WorksOn(t, w, id, Downloading)
    ensures t.world.tables == AfterMarkProcessing(s.world.tables, id, now)
    ensures t.uploads == s.uploads && id in s.world.tables.requests && Deaths(steps) <= 1
  {
    hide BrokerOk, MessagesOk, TablesOk, WorkersOk, AllAttended, Offered, WorksOn, UploadOk;
    var a, b, c, t0, t1;
    a, t0, w := Offer(e, s, id);
    PathKeepsTidy(e, s, a, t0);
    b, t1 := TakeUp(e, t0, w, id);
    PathKeepsTidy(e, t0, b, t1);
    c, t := Mark(e, t1, w, id, now);
    PathKeepsTidy(e, t1, c, t);
    PathThen(e, s, a, t0, b, t1);
    PathThen(e, s, a + b, t1, c, t);
    DeathsAdd(a, b);
    DeathsAdd(a + b, c);
    steps := a + b + c;
  }

  // ---- how an attempt can go on ---------------------------------------------

  /** The engine answers these bytes with something the result table takes. */
  predicate Answerable(e: Engine, bytes: Bytes) {
    var answer := e.classify(bytes);
    answer.Some? && 0.0 <= answer.value.confidence <= 1.0
  }

  lemma FetchBytes(e: Engine, s: State, w: WorkerId, id: Id) returns (steps: seq<Step>, t: State)
    requires WorksOn(s, w, id, Downloading) && UploadOk(s, id)
    ensures Path(e, s, steps, t) && WorksOn(t, w, id, Classifying(s.uploads[id].bytes))
    ensures t.world.tables == s.world.tables && t.uploads == s.uploads
  {
    MessageCarriesJob(e, s, id);
    steps, t := ExtendPath(e, s, [], s, Handle(w, S3Replies(Content(s.uploads[id].bytes))));
  }

  lemma ClassifyBytes(e: Engine, s: State, w: WorkerId, id: Id) returns (steps: seq<Step>, t: State, r: ResultRow)
    requires id in s.uploads && WorksOn(s, w, id, Classifying(s.uploads[id].bytes)) && UploadOk(s, id)
    requires Answerable(e, s.uploads[id].bytes)
    ensures Path(e, s, steps, t) && WorksOn(t, w, id, Saving(r)) && 0.0 <= r.prediction.confidence <= 1.0
    ensures r.durationMs == 0 && t.world.tables == s.world.tables && t.uploads == s.uploads
  {
    MessageCarriesJob(e, s, id);
    steps, t := ExtendPath(e, s, [], s, Handle(w, EngineReplies(None, 0)));
    r := ResultRow(e.classify(s.uploads[id].bytes).value, e.arch, e.valAcc, 0);
  }

  lemma SaveAnswer(e: Engine, s: State, w: WorkerId, id: Id, r: ResultRow) returns (steps: seq<Step>, t: State)
    requires WorksOn(s, w, id, Saving(r)) && UploadOk(s, id)
    requires 0.0 <= r.prediction.confidence <= 1.0 && r.durationMs >= 0
    ensures Path(e, s, steps, t) && WorksOn(t, w, id, Acking)
    ensures HasStatus(t, id, Completed) && id in t.world.tables.results && t.uploads == s.uploads
  {
    MessageCarriesJob(e, s, id);
    steps, t := ExtendPath(e, s, [], s, Handle(w, DbReplies(true, Returned, 0)));
  }

  /** The smooth ending of an attempt, up to its ack. */
  lemma Answer(e: Engine, s: State, w: WorkerId, id: Id) returns (steps: seq<Step>, t: State)
    requires Tidy(e, s) && WorksOn(s, w, id, Downloading)
    requires Answerable(e, s.uploads[id].bytes)
    ensures Path(e, s, steps, t) && Tidy(e, t) && WorksOn(t, w, id, Acking)
    ensures HasStatus(t, id, Completed) && id in t.world.tables.results && t.uploads == s.uploads
  {
    hide *;
    WorkerIsUnsettled(e, s, w, id, Downloading);
    TidyUpload(e, s, id);
    var a, u := FetchBytes(e, s, w, id);
    PathKeepsTidy(e, s, a, u);
    TidyUpload(e, u, id);
    var b, v, r := ClassifyBytes(e, u, w, id);
    PathKeepsTidy(e, u, b, v);
    TidyUpload(e, v, id);
    var c;
    c, t := SaveAnswer(e, v, w, id, r);
    PathKeepsTidy(e, v, c, t);
    PathThen(e, s, a, u, b, v);
    PathThen(e, s, a + b, v, c, t);
    steps := a + b + c;
  }

  lemma FaultyFetch(e: Engine, w: World, h: Handler)
    requires h.pc.Downloading? && h.job.Some? && h.delivery.msg in w.broker.messages
    ensures Legal(e, w, h, S3Replies(OtherFault)) && Effect(w, h, S3Replies(OtherFault)) == w
    ensures NextPc(e, h, S3Replies(OtherFault)) == Failing(Unexpected)
  {
  }

  lemma FetchBreaks(e: Engine, s: State, w: WorkerId, id: Id) returns (steps: seq<Step>, t: State)
    requires WorksOn(s, w, id, Downloading) && UploadOk(s, id)
    ensures Path(e, s, steps, t) && WorksOn(t, w, id, Failing(Unexpected))
    ensures t.world == s.world && t.uploads == s.uploads
  {
    MessageCarriesJob(e, s, id);
    FaultyFetch(e, s.world, s.workers[w].handler.value);
    hide Legal, Effect, NextPc, UploadOk;
    steps, t := ExtendPath(e, s, [], s, Handle(w, S3Replies(OtherFault)));
  }

  lemma RecordFailure(e: Engine, s: State, w: WorkerId, id: Id, message: Sentence, now: Time)
    returns (steps: seq<Step>, t: State)
    requires WorksOn(s, w, id, Failing(message)) && UploadOk(s, id)
    ensures Path(e, s, steps, t) && WorksOn(t, w, id, DeadLettering(true)) && OnlyCallback(s, t, w)
    ensures t.world.tables == AfterMarkFailed(s.world.tables, id, Standard(message), now)
    ensures t.world.broker == s.world.broker && id in s.world.tables.requests
    ensures t.workers[w].handler.value.delivery == s.workers[w].handler.value.delivery
  {
    MessageCarriesJob(e, s, id);
    steps, t := ExtendPath(e, s, [], s, Handle(w, DbReplies(true, Returned, now)));
  }

  /** The unlucky one: an unexpected fault, recorded as a failure. */
  lemma Break(e: Engine, s: State, w: WorkerId, id: Id, now: Time) returns (steps: seq<Step>, t: State)
    requires Tidy(e, s) && WorksOn(s, w, id, Downloading)
    ensures Path(e, s, steps, t) && Tidy(e, t) && WorksOn(t, w, id, DeadLettering(true))
    ensures t.world.tables == AfterMarkFailed(s.world.tables, id, Standard(Unexpected), now)
    ensures t.uploads == s.uploads && id in s.world.tables.requests
  {
    hide *;
    WorkerIsUnsettled(e, s, w, id, Downloading);
    TidyUpload(e, s, id);
    var a, u := FetchBreaks(e, s, w, id);
    PathKeepsTidy(e, s, a, u);
    TidyUpload(e, u, id);
    var b;
    b, t := RecordFailure(e, u, w, id, Unexpected, now);
    PathKeepsTidy(e, u, b, t);
    PathThen(e, s, a, u, b, t);
    steps := a + b;
  }

  // ---- what a request handler can still do ------------------------------------

  predicate NotYetQueued(pc: CreatePc) {
    pc.Putting? || pc.Inserting? || pc.Publishing?
  }

  /** The writes before the publish. */
  lemma Store(e: Engine, s: State, id: Id) returns (steps: seq<Step>, t: State)
    requires id in s.uploads && UploadOk(s, id) && NotYetQueued(s.uploads[id].pc)
    ensures Path(e, s, steps, t) && id in t.uploads && t.uploads[id].pc.Publishing?
    ensures SameFile(s.uploads[id], t.uploads[id]) && t.world.tables.results == s.world.tables.results
    ensures id in t.world.tables.requests && t.world.broker == s.world.broker
    ensures id in s.world.tables.requests ==> t.world.tables == s.world.tables
  {
    EmptyPath(e, s);
    hide Legal, Effect, NextPc;
    steps, t := [], s;
    if t.uploads[id].pc.Putting? {
      steps, t := ExtendPath(e, s, steps, t, Create(id, PutReplies(true, true)));
    }
    if t.uploads[id].pc.Inserting? {
      steps, t := ExtendPath(e, s, steps, t, Create(id, SqlReplies(true, true, 0)));
    }
  }

  /** A request handler that has not published yet can get its message accepted. */
  lemma Publish(e: Engine, s: State, id: Id) returns (steps: seq<Step>, t: State)
    requires Safe(e, s) && id in s.uploads && NotYetQueued(s.uploads[id].pc)
    ensures Path(e, s, steps, t) && Unsettled(t, id) && t.uploads[id].pc.Confirming?
    ensures SameFile(s.uploads[id], t.uploads[id]) && t.world.tables.results == s.world.tables.results
    ensures id in t.world.tables.requests
    ensures id in s.world.tables.requests ==> t.world.tables == s.world.tables
  {
    assert UploadOk(s, id);
    assert s.world.broker.nextMsg !in s.world.broker.messages;
    hide UploadsOk, MessagesOk, TablesOk, WorkersOk, UploadOk, Legal, Effect, NextPc, NotYetQueued;
    steps, t := Store(e, s, id);
    steps, t := ExtendPath(e, s, steps, t, Create(id, PublishReplies(true)));
  }

  /** One that has a row but is not done can fail it. */
  lemma Compensate(e: Engine, s: State, id: Id, now: Time) returns (steps: seq<Step>, t: State)
    requires id in s.uploads && UploadOk(s, id)
    requires s.uploads[id].pc.Publishing? || s.uploads[id].pc.Confirming? || s.uploads[id].pc.Compensating?
    ensures Path(e, s, steps, t) && id in s.world.tables.requests
    ensures t.world.tables == AfterMarkFailed(s.world.tables, id, Standard(NotQueued), now)
    ensures t.workers == s.workers && t.uploads.Keys == s.uploads.Keys
    ensures t.uploads[id] == s.uploads[id].(pc := Finished(Unavailable503))
  {
    steps, t := [], s;
    if s.uploads[id].pc.Publishing? {
      steps, t := ExtendPath(e, s, steps, t, Create(id, PublishReplies(false)));
    } else if s.uploads[id].pc.Confirming? {
      steps, t := ExtendPath(e, s, steps, t, Create(id, ConfirmReplies(false)));
    }
    steps, t := ExtendPath(e, s, steps, t, Create(id, SqlReplies(true, true, now)));
  }
}
