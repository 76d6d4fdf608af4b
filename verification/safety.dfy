/** What every reachable state satisfies, under every interleaving and every fault. */
module Safety {
  import opened Domain
  import opened Database
  import opened Broker
  import opened Services
  import opened Worker
  import opened Upload
  import opened Pipeline

  // ---- what never goes back ---------------------------------------------

  predicate Started(t: Tables, id: Id) {
    id in t.requests && t.requests[id].startedAt.Some? && t.requests[id].status != Pending
  }

  predicate LeftPending(t: Tables, id: Id) {
    id in t.requests && t.requests[id].status != Pending
  }

  predicate SameFile(a: Upload, b: Upload) {
    a.bytes == b.bytes && a.extension == b.extension
    && a.contentType == b.contentType && a.originalName == b.originalName
  }

  ghost predicate TablesGrow(t: Tables, t': Tables) {
    && (forall id | id in t.requests :: id in t'.requests && SameUpload(t.requests[id], t'.requests[id]))
    && (forall id | Started(t, id) :: Started(t', id))
    && (forall id | LeftPending(t, id) :: LeftPending(t', id))
    && t.results.Keys <= t'.results.Keys
  }

  ghost predicate BrokerGrows(b: Broker, b': Broker) {
    && (forall m | m in b.messages :: m in b'.messages && b'.messages[m].body == b.messages[m].body)
    && b.nextTag <= b'.nextTag
  }

  ghost predicate Grows(s: State, s': State) {
    && (forall k | k in s.world.bucket :: k in s'.world.bucket && s'.world.bucket[k] == s.world.bucket[k])
    && TablesGrow(s.world.tables, s'.world.tables)
    && BrokerGrows(s.world.broker, s'.world.broker)
    && (forall id | id in s.uploads :: id in s'.uploads && SameFile(s.uploads[id], s'.uploads[id])
                      && (s.uploads[id].msg.Some? ==> s'.uploads[id].msg == s.uploads[id].msg))
    && s.foreign <= s'.foreign
  }

  // ---- the invariant ----------------------------------------------------

  /** The object of an upload, if stored, holds the bytes that were uploaded. */
  predicate Stored(s: State, id: Id)
    requires id in s.uploads
  {
    var u := s.uploads[id];
    KeyOf(id, u) in s.world.bucket && s.world.bucket[KeyOf(id, u)] == u.bytes
  }

  /** Object, row and message of one upload agree with how far its handler got. */
  predicate UploadOk(s: State, id: Id)
    requires id in s.uploads
  {
    var u := s.uploads[id];
    var t := s.world.tables;
    && IsUuid(id) && u.bytes != []
    && (KeyOf(id, u) in s.world.bucket ==> Stored(s, id))
    && (u.msg.Some? ==>
          && u.msg.value in s.world.broker.messages
          && s.world.broker.messages[u.msg.value].body == BodyOf(id, u)
          && id in t.requests && Stored(s, id))
    && (u.msg.None? && id in t.requests ==>
          && Stored(s, id) && id !in t.results
          && (t.requests[id] == RowOf(id, u) || t.requests[id].status == Failed))
    && match u.pc
       case Putting => id !in t.requests && u.msg.None?
       case Inserting => Stored(s, id) && id !in t.requests && u.msg.None?
       case Publishing => id in t.requests && u.msg.None? && t.requests[id] == RowOf(id, u)
       case Confirming => u.msg.Some?
       case Compensating => id in t.requests && (u.msg.None? ==> t.requests[id] == RowOf(id, u))
       case Finished(outcome) =>
         match outcome
         case Accepted202 => u.msg.Some?
         case Unavailable503 =>
           LeftPending(t, id) && (u.msg.None? ==> t.requests[id].status == Failed)
         case PutRaised => id !in t.requests && u.msg.None?
         case InsertRaised(committed) => u.msg.None? && (id in t.requests <==> committed)
         case CompensationRaised(committed) => id in t.requests && (committed ==> LeftPending(t, id))
         case Crashed => true
  }

  /** A message names an upload whose object and row exist, or is foreign, or unreadable. */
  predicate MessageOk(s: State, m: MsgId)
    requires m in s.world.broker.messages
  {
    var job := ParseJob(s.world.broker.messages[m].body);
    job.Some? ==>
      || job.value.id in s.foreign
      || (job.value.id in s.uploads
          && s.uploads[job.value.id].msg == Some(m)
          && job.value.key == KeyOf(job.value.id, s.uploads[job.value.id])
          && Stored(s, job.value.id)
          && job.value.id in s.world.tables.requests)
  }

  predicate RowOk(s: State, id: Id)
    requires id in s.world.tables.requests
  {
    var t := s.world.tables;
    && id in s.uploads
    && SameUpload(RowOf(id, s.uploads[id]), t.requests[id])
    && RowShape(t.requests[id], id in t.results)
  }

  /** The stored answer is the engine's answer on the uploaded bytes. */
  ghost predicate ResultOk(e: Engine, s: State, id: Id)
    requires id in s.world.tables.results
  {
    var r := s.world.tables.results[id];
    && id in s.world.tables.requests && id in s.uploads
    && e.classify(s.uploads[id].bytes) == Some(r.prediction)
    && r.modelArch == e.arch && r.modelValAcc == e.valAcc
    && 0.0 <= r.prediction.confidence <= 1.0
  }

  predicate HeldOk(s: State, d: Delivery) {
    d.msg in s.world.broker.messages && d.tag < s.world.broker.nextTag
  }

  ghost predicate HandlerOk(e: Engine, s: State, h: Handler) {
    && HeldOk(s, h.delivery)
    && h.job == ParseJob(s.world.broker.messages[h.delivery.msg].body)
    && (h.job.None? ==> h.pc.NackMalformed? || Over(h.pc))
    && (h.job.Some? ==>
          var id, key := h.job.value.id, h.job.value.key;
          && !h.pc.NackMalformed?
          && (h.pc.Downloading? || h.pc.Classifying? || h.pc.Saving? || h.pc.Acking? ==>
                Started(s.world.tables, id))
          && (h.pc.Classifying? ==> key in s.world.bucket && h.pc.bytes == s.world.bucket[key])
          && (h.pc.Saving? ==>
                && key in s.world.bucket
                && e.classify(s.world.bucket[key]) == Some(h.pc.result.prediction)
                && h.pc.result.modelArch == e.arch && h.pc.result.modelValAcc == e.valAcc
                && h.pc.result.durationMs >= 0)
          && (h.pc.Acking? ==> id in s.world.tables.results)
          && (h.pc == DeadLettering(true) ==> id in s.foreign || LeftPending(s.world.tables, id))
          && (h.pc.Requeueing? ==> !h.delivery.redelivered))
  }

  ghost predicate ProcessOk(e: Engine, s: State, p: Process) {
    && (p.handler.Some? ==> HandlerOk(e, s, p.handler.value) && p.handler.value.delivery !in p.inbox)
    && (forall d | d in p.inbox :: HeldOk(s, d))
  }

  /** What settling a message says about its row. */
  predicate SettledOk(s: State, m: MsgId) {
    var b, t := s.world.broker, s.world.tables;
    m in b.messages ==>
      var id := JobId(b.messages[m].body);
      && (m in b.acked ==> id.Some? && id.value in t.results)
      && (m in b.dead && m !in s.unrecorded && id.Some? ==> id.value in s.foreign || LeftPending(t, id.value))
  }

  /** Some upload put the object under this key. */
  ghost predicate Owned(s: State, key: Key) {
    exists id :: id in s.uploads && KeyOf(id, s.uploads[id]) == key
  }

  ghost predicate UploadsOk(s: State) {
    && s.foreign !! s.uploads.Keys
    && (forall key | key in s.world.bucket :: Owned(s, key))
    && (forall id | id in s.uploads :: UploadOk(s, id))
  }

  ghost predicate MessagesOk(s: State) {
    forall m | m in s.world.broker.messages :: MessageOk(s, m) && SettledOk(s, m)
  }

  ghost predicate TablesOk(e: Engine, s: State) {
    && (forall id | id in s.world.tables.requests :: RowOk(s, id))
    && (forall id | id in s.world.tables.results :: ResultOk(e, s, id))
  }

  ghost predicate WorkersOk(e: Engine, s: State) {
    forall w | w in s.workers :: ProcessOk(e, s, s.workers[w])
  }

  ghost predicate Safe(e: Engine, s: State) {
    && BrokerOk(s.world.broker)
    && UploadsOk(s)
    && MessagesOk(s)
    && TablesOk(e, s)
    && WorkersOk(e, s)
  }

  // ---- facts that survive growth ----------------------------------------

  lemma HandlerSurvives(e: Engine, s: State, s': State, h: Handler)
    requires Grows(s, s') && HandlerOk(e, s, h)
    ensures HandlerOk(e, s', h)
  {
  }

  lemma MessageSurvives(s: State, s': State, m: MsgId)
    requires Grows(s, s') && m in s.world.broker.messages && MessageOk(s, m)
    ensures m in s'.world.broker.messages && MessageOk(s', m)
  {
  }

  lemma SettledSurvives(s: State, s': State, m: MsgId)
    requires Grows(s, s') && m in s.world.broker.messages && SettledOk(s, m)
    requires m in s'.world.broker.acked ==> m in s.world.broker.acked
    requires m in s'.world.broker.dead && m !in s'.unrecorded ==> m in s.world.broker.dead && m !in s.unrecorded
    ensures SettledOk(s', m)
  {
  }

  /** An upload's own facts survive any step that leaves its handler alone and touches its row only
      once a message exists. */
  lemma UploadSurvives(s: State, s': State, id: Id)
    requires Grows(s, s') && id in s.uploads && UploadOk(s, id)
    requires s'.uploads[id] == s.uploads[id]
    requires KeyOf(id, s.uploads[id]) in s'.world.bucket ==> KeyOf(id, s.uploads[id]) in s.world.bucket
    requires id in s'.world.tables.requests ==> id in s.world.tables.requests
    requires s.uploads[id].msg.None? ==>
               && (id in s'.world.tables.results ==> id in s.world.tables.results)
               && (id in s'.world.tables.requests ==>
                     s'.world.tables.requests[id] == s.world.tables.requests[id])
    ensures UploadOk(s', id)
  {
  }

  lemma OwnersSurvive(s: State, s': State)
    requires Grows(s, s')
    requires forall key | key in s.world.bucket :: Owned(s, key)
    requires forall key | key in s'.world.bucket :: key in s.world.bucket || Owned(s', key)
    ensures forall key | key in s'.world.bucket :: Owned(s', key)
  {
  }

  lemma ProcessesSurvive(e: Engine, s: State, s': State, changed: set<WorkerId>)
    requires WorkersOk(e, s) && Grows(s, s')
    requires forall x | x in s'.workers && x !in changed :: x in s.workers && s'.workers[x] == s.workers[x]
    ensures forall x | x in s'.workers && x !in changed :: ProcessOk(e, s', s'.workers[x])
  {
  }

  // ---- steps that only move messages and processes -----------------------

  /** Bucket, tables and uploads stay; at most one process changes. */
  predicate OnlyTraffic(s: State, s': State) {
    && s'.world.bucket == s.world.bucket
    && s'.world.tables == s.world.tables
    && s'.uploads == s.uploads
    && s.foreign <= s'.foreign
  }

  lemma TrafficKeepsUploads(s: State, s': State)
    requires UploadsOk(s) && OnlyTraffic(s, s') && Grows(s, s') && s'.foreign !! s'.uploads.Keys
    ensures UploadsOk(s')
  {
  }

  lemma TrafficKeepsTables(e: Engine, s: State, s': State)
    requires TablesOk(e, s) && OnlyTraffic(s, s')
    ensures TablesOk(e, s')
  {
  }

  lemma MessagesSurvive(s: State, s': State)
    requires MessagesOk(s) && Grows(s, s')
    requires s'.world.broker.messages.Keys == s.world.broker.messages.Keys
    requires s'.world.broker.acked == s.world.broker.acked && s'.world.broker.dead == s.world.broker.dead
    requires s'.unrecorded == s.unrecorded
    ensures MessagesOk(s')
  {
  }

  /** All but message m survive; m is the caller's. */
  lemma OtherMessagesSurvive(s: State, s': State, m: MsgId)
    requires MessagesOk(s) && Grows(s, s')
    requires s'.world.broker.messages.Keys <= s.world.broker.messages.Keys + {m}
    requires s'.world.broker.acked <= s.world.broker.acked + {m}
    requires s'.world.broker.dead <= s.world.broker.dead + {m}
    requires s.unrecorded <= s'.unrecorded <= s.unrecorded + {m}
    requires m in s'.world.broker.messages ==> MessageOk(s', m) && SettledOk(s', m)
    ensures MessagesOk(s')
  {
  }

  lemma TrafficKeepsSafe(e: Engine, s: State, s': State, changed: set<WorkerId>)
    requires Safe(e, s) && OnlyTraffic(s, s') && Grows(s, s')
    requires s'.foreign !! s'.uploads.Keys
    requires BrokerOk(s'.world.broker) && MessagesOk(s')
    requires forall x | x in s'.workers && x !in changed :: x in s.workers && s'.workers[x] == s.workers[x]
    requires forall x | x in s'.workers && x in changed :: ProcessOk(e, s', s'.workers[x])
    ensures Safe(e, s')
  {
    TrafficKeepsUploads(s, s');
    TrafficKeepsTables(e, s, s');
    ProcessesSurvive(e, s, s', changed);
  }

  /** One process moves, nothing else. */
  lemma LocalKeepsSafe(e: Engine, s: State, s': State, w: WorkerId)
    requires Safe(e, s) && s' == s.(workers := s'.workers)
    requires forall x | x in s'.workers && x != w :: x in s.workers && s'.workers[x] == s.workers[x]
    requires w in s'.workers ==> ProcessOk(e, s', s'.workers[w])
    ensures Grows(s, s') && Safe(e, s')
  {
    hide MessageOk, SettledOk, UploadOk, ResultOk, RowOk;
    MessagesSurvive(s, s');
    TrafficKeepsSafe(e, s, s', {w});
  }

  lemma DropKeepsSafe(e: Engine, s: State, s': State, c: Conn, changed: set<WorkerId>)
    requires Safe(e, s)
    requires s' == WithBroker(s, Drop(s.world.broker, c)).(workers := s'.workers)
    requires forall x | x in s'.workers && x !in changed :: x in s.workers && s'.workers[x] == s.workers[x]
    requires forall x | x in s'.workers && x in changed :: s'.workers[x].inbox == {} && s'.workers[x].handler == None
    ensures Grows(s, s') && Safe(e, s')
  {
    hide MessageOk, SettledOk, UploadOk, ResultOk, RowOk;
    DropKeepsBroker(s.world.broker, c);
    assert Grows(s, s');
    MessagesSurvive(s, s');
    TrafficKeepsSafe(e, s, s', changed);
  }

  lemma ForeignMessageOk(s: State, s': State, body: Body)
    requires BrokerOk(s.world.broker)
    requires s' == WithBroker(s, Accept(s.world.broker, body))
                   .(foreign := if JobId(body).Some? then s.foreign + {JobId(body).value} else s.foreign)
    ensures Grows(s, s')
    ensures MessageOk(s', s.world.broker.nextMsg) && SettledOk(s', s.world.broker.nextMsg)
  {
  }

  lemma ForeignKeepsSafe(e: Engine, s: State, body: Body)
    requires Safe(e, s) && Enabled(e, s, ForeignPublish(body))
    ensures Grows(s, Apply(e, s, ForeignPublish(body))) && Safe(e, Apply(e, s, ForeignPublish(body)))
  {
    var s' := Apply(e, s, ForeignPublish(body));
    AcceptKeepsBroker(s.world.broker, body);
    ForeignMessageOk(s, s', body);
    OtherMessagesSurvive(s, s', s.world.broker.nextMsg);
    TrafficKeepsSafe(e, s, s', {});
  }

  lemma ConnectKeepsSafe(e: Engine, s: State, w: WorkerId)
    requires Safe(e, s) && Enabled(e, s, Connect(w))
    ensures Grows(s, Apply(e, s, Connect(w))) && Safe(e, Apply(e, s, Connect(w)))
  {
    var s' := Apply(e, s, Connect(w));
    OpenKeepsBroker(s.world.broker, Conn(w, s'.workers[w].epoch));
    assert Grows(s, s');
    MessagesSurvive(s, s');
    TrafficKeepsSafe(e, s, s', {w});
  }

  lemma HandOutMoves(e: Engine, s: State, s': State, w: WorkerId, m: MsgId)
    requires WorkersOk(e, s) && BrokerOk(s.world.broker) && Enabled(e, s, HandOut(w, m))
    requires s' == Apply(e, s, HandOut(w, m))
    ensures Grows(s, s') && ProcessOk(e, s', s'.workers[w])
    ensures s'.world.broker.messages.Keys == s.world.broker.messages.Keys
  {
    var p, p' := s.workers[w], s'.workers[w];
    assert ProcessOk(e, s, p);
    if p.handler.Some? {
      HandlerSurvives(e, s, s', p.handler.value);
    }
    forall d | d in p'.inbox ensures HeldOk(s', d) {
      if d in p.inbox { assert HeldOk(s, d); }
    }
  }

  lemma HandOutKeepsSafe(e: Engine, s: State, w: WorkerId, m: MsgId)
    requires Safe(e, s) && Enabled(e, s, HandOut(w, m))
    ensures Grows(s, Apply(e, s, HandOut(w, m))) && Safe(e, Apply(e, s, HandOut(w, m)))
  {
    var s' := Apply(e, s, HandOut(w, m));
    DeliverKeepsBroker(s.world.broker, m, ConnOf(s, w));
    HandOutMoves(e, s, s', w, m);
    MessagesSurvive(s, s');
    TrafficKeepsSafe(e, s, s', {w});
  }

  lemma StartKeepsSafe(e: Engine, s: State, w: WorkerId, d: Delivery)
    requires Safe(e, s) && Enabled(e, s, Start(w, d))
    ensures Grows(s, Apply(e, s, Start(w, d))) && Safe(e, Apply(e, s, Start(w, d)))
  {
    var s' := Apply(e, s, Start(w, d));
    var p := s.workers[w];
    assert ProcessOk(e, s, p) && HeldOk(s, d);
    assert HandlerOk(e, s', s'.workers[w].handler.value);
    assert ProcessOk(e, s', s'.workers[w]);
    LocalKeepsSafe(e, s, s', w);
  }

  // ---- the callback's calls ---------------------------------------------

  /** What the call at hand must have achieved for the handler to move on from it. */
  predicate Achieved(s: State, h: Handler, c: Choice)
    requires Fits(h.pc, c) && h.job.Some?
  {
    var id, key := h.job.value.id, h.job.value.key;
    match h.pc
    case Marking => c.reply.Returned? ==> Started(s.world.tables, id)
    case Downloading => c.s3.Content? ==> key in s.world.bucket && c.s3.bytes == s.world.bucket[key]
    case Saving(_) => c.reply.Returned? ==> id in s.world.tables.results
    case Failing(_) => c.reply.Returned? ==> id in s.foreign || LeftPending(s.world.tables, id)
    case _ => true
  }

  lemma NextHandlerOk(e: Engine, s: State, h: Handler, c: Choice)
    requires HandlerOk(e, s, h) && Fits(h.pc, c)
    requires h.job.Some? ==> Achieved(s, h, c)
    ensures HandlerOk(e, s, h.(pc := NextPc(e, h, c)))
  {
  }

  lemma NextProcessOk(e: Engine, s: State, s': State, p: Process, c: Choice)
    requires ProcessOk(e, s, p) && p.handler.Some? && Grows(s, s')
    requires Fits(p.handler.value.pc, c)
    requires p.handler.value.job.Some? ==> Achieved(s', p.handler.value, c)
    ensures var h' := p.handler.value.(pc := NextPc(e, p.handler.value, c));
            ProcessOk(e, s', p.(handler := if h'.pc.Done? then None else Some(h')))
  {
    HandlerSurvives(e, s, s', p.handler.value);
    NextHandlerOk(e, s', p.handler.value, c);
    forall d | d in p.inbox ensures HeldOk(s', d) { assert HeldOk(s, d); }
  }

  lemma SettleKeepsBroker(b: Broker, d: Delivery, call: ChannelCall)
    requires BrokerOk(b) && Live(b, d)
    requires call.NackCall? && call.requeue ==> !d.redelivered
    ensures d.msg in b.messages && BrokerOk(Settle(b, d, call)) && BrokerGrows(b, Settle(b, d, call))
    ensures Settle(b, d, call).messages.Keys == b.messages.Keys
  {
    assert DeliveryOk(b, d.msg);
    if call.AckCall? {
      AckKeepsBroker(b, d);
    } else if call.requeue {
      RequeueKeepsBroker(b, d);
    } else {
      DeadLetterKeepsBroker(b, d);
    }
  }

  /** Settling a message is truthful about its row because the handler was. */
  lemma SettleIsTruthful(e: Engine, s: State, s': State, h: Handler, c: Choice)
    requires HandlerOk(e, s, h) && Settling(h.pc) && Fits(h.pc, c)
    requires SettledOk(s, h.delivery.msg) && OnlyTraffic(s, s')
    requires BrokerGrows(s.world.broker, s'.world.broker)
    requires s'.world.broker.acked ==
               (if h.pc.Acking? && c.applied then s.world.broker.acked + {h.delivery.msg} else s.world.broker.acked)
    requires s'.world.broker.dead == (if (h.pc.DeadLettering? || h.pc.NackMalformed?) && c.applied
                                      then s.world.broker.dead + {h.delivery.msg} else s.world.broker.dead)
    requires s'.unrecorded == (if h.pc == DeadLettering(false) && c.applied
                               then s.unrecorded + {h.delivery.msg} else s.unrecorded)
    ensures SettledOk(s', h.delivery.msg)
  {
  }

  /** s' is s after the callback of w made its call, answered by c. */
  ghost predicate Handled(e: Engine, s: State, s': State, w: WorkerId, c: Choice) {
    && w in s.workers && s.workers[w].handler.Some?
    && var h := s.workers[w].handler.value;
       && Legal(e, s.world, h, c)
       && s'.world == Effect(s.world, h, c)
       && s'.uploads == s.uploads && s'.foreign == s.foreign
       && s'.unrecorded == (if h.pc == DeadLettering(false) && c.applied
                            then s.unrecorded + {h.delivery.msg} else s.unrecorded)
       && var h' := h.(pc := NextPc(e, h, c));
          s'.workers == s.workers[w := s.workers[w].(handler := if h'.pc.Done? then None else Some(h'))]
  }

  lemma SettleIsTraffic(e: Engine, w: World, h: Handler, c: Choice)
    requires BrokerOk(w.broker) && Legal(e, w, h, c) && Settling(h.pc)
    requires h.pc.Requeueing? ==> !h.delivery.redelivered
    ensures var w' := Effect(w, h, c);
            && w'.bucket == w.bucket && w'.tables == w.tables
            && BrokerOk(w'.broker) && BrokerGrows(w.broker, w'.broker)
            && w'.broker.messages.Keys == w.broker.messages.Keys
  {
    if c.applied {
      SettleKeepsBroker(w.broker, h.delivery, CallAt(h));
    }
  }

  lemma SettleMoves(e: Engine, s: State, s': State, w: WorkerId, c: Choice)
    requires BrokerOk(s.world.broker) && WorkersOk(e, s)
    requires Handled(e, s, s', w, c) && Settling(s.workers[w].handler.value.pc)
    ensures OnlyTraffic(s, s') && Grows(s, s') && BrokerOk(s'.world.broker)
    ensures s'.world.broker.messages.Keys == s.world.broker.messages.Keys
    ensures ProcessOk(e, s', s'.workers[w])
    ensures forall x | x in s'.workers && x != w :: x in s.workers && s'.workers[x] == s.workers[x]
  {
    hide BrokerOk, Effect, NextPc;
    assert ProcessOk(e, s, s.workers[w]);
    SettleIsTraffic(e, s.world, s.workers[w].handler.value, c);
    NextProcessOk(e, s, s', s.workers[w], c);
  }

  lemma SettleKeepsMessages(e: Engine, s: State, s': State, w: WorkerId, c: Choice)
    requires WorkersOk(e, s) && MessagesOk(s) && OnlyTraffic(s, s') && Grows(s, s')
    requires Handled(e, s, s', w, c) && Settling(s.workers[w].handler.value.pc)
    requires s'.world.broker.messages.Keys == s.world.broker.messages.Keys
    ensures MessagesOk(s')
  {
    var h := s.workers[w].handler.value;
    assert ProcessOk(e, s, s.workers[w]);
    assert SettledOk(s, h.delivery.msg);
    SettleIsTruthful(e, s, s', h, c);
    MessageSurvives(s, s', h.delivery.msg);
    OtherMessagesSurvive(s, s', h.delivery.msg);
  }

  lemma SettleKeepsSafe(e: Engine, s: State, s': State, w: WorkerId, c: Choice)
    requires Safe(e, s) && Handled(e, s, s', w, c) && Settling(s.workers[w].handler.value.pc)
    ensures Grows(s, s') && Safe(e, s')
  {
    hide BrokerOk, Effect, NextPc, Legal, MessageOk, SettledOk, UploadOk, ProcessOk, ResultOk, RowOk;
    SettleMoves(e, s, s', w, c);
    SettleKeepsMessages(e, s, s', w, c);
    TrafficKeepsSafe(e, s, s', {w});
  }

  predicate Reading(pc: Pc) {
    pc.Downloading? || pc.Classifying?
  }

  lemma ReadMoves(e: Engine, s: State, s': State, w: WorkerId, c: Choice)
    requires WorkersOk(e, s) && Handled(e, s, s', w, c) && Reading(s.workers[w].handler.value.pc)
    ensures s' == s.(workers := s'.workers) && s'.workers.Keys == s.workers.Keys
    ensures forall x | x in s.workers && x != w :: s'.workers[x] == s.workers[x]
    ensures ProcessOk(e, s', s'.workers[w])
  {
    assert ProcessOk(e, s, s.workers[w]);
    assert Grows(s, s');
    NextProcessOk(e, s, s', s.workers[w], c);
  }

  lemma ReadKeepsSafe(e: Engine, s: State, s': State, w: WorkerId, c: Choice)
    requires Safe(e, s) && Handled(e, s, s', w, c) && Reading(s.workers[w].handler.value.pc)
    ensures Grows(s, s') && Safe(e, s')
  {
    ReadMoves(e, s, s', w, c);
    LocalKeepsSafe(e, s, s', w);
  }

  predicate Writing(pc: Pc) {
    pc.Marking? || pc.Saving? || pc.Failing?
  }

  /** t' differs from t at most at one id, forward. */
  ghost predicate RowStep(t: Tables, t': Tables, id: Id) {
    && TablesGrow(t, t')
    && t'.requests.Keys == t.requests.Keys
    && (forall x | x in t.requests && x != id :: t'.requests[x] == t.requests[x])
    && (forall x | x != id :: x in t'.results <==> x in t.results)
    && (forall x | x in t'.results && x != id :: t'.results[x] == t.results[x])
  }

  lemma ClaimIsRowStep(t: Tables, id: Id, now: Time)
    ensures RowStep(t, AfterMarkProcessing(t, id, now), id)
    ensures id in t.requests ==> Started(AfterMarkProcessing(t, id, now), id)
  {
  }

  lemma FailIsRowStep(t: Tables, id: Id, message: ErrorText, now: Time)
    ensures RowStep(t, AfterMarkFailed(t, id, message, now), id)
    ensures id in t.requests ==> LeftPending(AfterMarkFailed(t, id, message, now), id)
  {
  }

  lemma SaveIsRowStep(t: Tables, id: Id, r: ResultRow, now: Time)
    requires Started(t, id)
    ensures RowStep(t, AfterSaveSuccess(t, id, r, now), id)
    ensures id in AfterSaveSuccess(t, id, r, now).results
  {
  }

  lemma WriteIsRowStep(e: Engine, s: State, h: Handler, c: Choice)
    requires HandlerOk(e, s, h) && Legal(e, s.world, h, c) && Writing(h.pc)
    ensures RowStep(s.world.tables, Effect(s.world, h, c).tables, h.job.value.id)
    ensures Effect(s.world, h, c).broker == s.world.broker && Effect(s.world, h, c).bucket == s.world.bucket
  {
    var t, id := s.world.tables, h.job.value.id;
    if c.applied {
      match h.pc
      case Marking => ClaimIsRowStep(t, id, c.now);
      case Saving(r) => SaveIsRowStep(t, id, r, c.now);
      case Failing(m) => FailIsRowStep(t, id, Standard(m), c.now);
    }
  }

  lemma WriteAchieves(e: Engine, s: State, s': State, h: Handler, c: Choice)
    requires HandlerOk(e, s, h) && Legal(e, s.world, h, c) && Writing(h.pc)
    requires MessageOk(s, h.delivery.msg)
    requires s'.world == Effect(s.world, h, c) && s'.foreign == s.foreign
    ensures Achieved(s', h, c)
  {
  }

  /** A call that writes a row leaves it well shaped, and a saved answer is the engine's. */
  lemma WrittenRowOk(e: Engine, s: State, s': State, h: Handler, c: Choice)
    requires HandlerOk(e, s, h) && Legal(e, s.world, h, c) && Writing(h.pc)
    requires h.job.value.id in s.world.tables.requests
    requires RowOk(s, h.job.value.id) && h.job.value.id !in s.foreign && MessageOk(s, h.delivery.msg)
    requires h.job.value.id in s.world.tables.results ==> ResultOk(e, s, h.job.value.id)
    requires s'.world == Effect(s.world, h, c) && s'.uploads == s.uploads
    ensures RowOk(s', h.job.value.id)
    ensures h.job.value.id in s'.world.tables.results ==> ResultOk(e, s', h.job.value.id)
  {
    match h.pc
    case Marking =>
    case Saving(_) =>
    case Failing(_) =>
  }

  lemma RowStepKeepsUploads(s: State, s': State, id: Id)
    requires UploadsOk(s) && Grows(s, s')
    requires RowStep(s.world.tables, s'.world.tables, id)
    requires s'.world.bucket == s.world.bucket && s'.uploads == s.uploads && s'.foreign == s.foreign
    requires id in s.world.tables.requests ==> id in s.uploads && s.uploads[id].msg.Some?
    requires id !in s.world.tables.requests ==> (id in s'.world.tables.results ==> id in s.world.tables.results)
    ensures UploadsOk(s')
  {
    OwnersSurvive(s, s');
    forall x | x in s'.uploads ensures UploadOk(s', x) {
      UploadSurvives(s, s', x);
    }
  }

  lemma RowStepKeepsTables(e: Engine, s: State, s': State, id: Id)
    requires TablesOk(e, s)
    requires RowStep(s.world.tables, s'.world.tables, id)
    requires s'.uploads == s.uploads
    requires id in s'.world.tables.requests ==> RowOk(s', id)
    requires id in s'.world.tables.results ==> ResultOk(e, s', id)
    ensures TablesOk(e, s')
  {
    forall x | x in s'.world.tables.requests ensures RowOk(s', x) {
      if x != id { assert RowOk(s, x); }
    }
    forall x | x in s'.world.tables.results ensures ResultOk(e, s', x) {
      if x != id { assert ResultOk(e, s, x); }
    }
  }

  /** Facts about the handler's row that the tables and its message give. */
  lemma RowOfHandler(e: Engine, s: State, h: Handler)
    requires Safe(e, s) && HandlerOk(e, s, h) && h.job.Some?
    ensures MessageOk(s, h.delivery.msg)
    ensures var id := h.job.value.id;
            id in s.world.tables.requests ==>
              && id in s.uploads && id !in s.foreign && s.uploads[id].msg == Some(h.delivery.msg)
              && RowOk(s, id) && (id in s.world.tables.results ==> ResultOk(e, s, id))
    ensures h.job.value.id !in s.world.tables.requests ==> h.job.value.id !in s.world.tables.results
  {
  }

  lemma WriteKeepsTables(e: Engine, s: State, s': State, h: Handler, c: Choice)
    requires Safe(e, s) && HandlerOk(e, s, h) && Legal(e, s.world, h, c) && Writing(h.pc)
    requires s'.world == Effect(s.world, h, c) && s'.uploads == s.uploads && s'.foreign == s.foreign
    requires Grows(s, s')
    ensures TablesOk(e, s') && UploadsOk(s')
  {
    var id := h.job.value.id;
    RowOfHandler(e, s, h);
    WriteIsRowStep(e, s, h, c);
    if id in s.world.tables.requests {
      WrittenRowOk(e, s, s', h, c);
    } else {
      assert s'.world.tables == s.world.tables;
    }
    RowStepKeepsTables(e, s, s', id);
    RowStepKeepsUploads(s, s', id);
  }

  lemma WriteMoves(e: Engine, s: State, s': State, w: WorkerId, c: Choice)
    requires Safe(e, s) && Handled(e, s, s', w, c) && Writing(s.workers[w].handler.value.pc)
    ensures Grows(s, s') && ProcessOk(e, s', s'.workers[w])
    ensures s'.world.broker == s.world.broker && s'.unrecorded == s.unrecorded
  {
    hide BrokerOk, NextPc, UploadOk, SettledOk, RowOk, ResultOk;
    var h := s.workers[w].handler.value;
    assert ProcessOk(e, s, s.workers[w]);
    WriteIsRowStep(e, s, h, c);
    assert MessageOk(s, h.delivery.msg);
    WriteAchieves(e, s, s', h, c);
    NextProcessOk(e, s, s', s.workers[w], c);
  }

  lemma WriteKeepsSafe(e: Engine, s: State, s': State, w: WorkerId, c: Choice)
    requires Safe(e, s) && Handled(e, s, s', w, c) && Writing(s.workers[w].handler.value.pc)
    ensures Grows(s, s') && Safe(e, s')
  {
    assert ProcessOk(e, s, s.workers[w]);
    WriteMoves(e, s, s', w, c);
    WriteKeepsTables(e, s, s', s.workers[w].handler.value, c);
    MessagesSurvive(s, s');
    ProcessesSurvive(e, s, s', {w});
  }

  lemma HandleKeepsSafe(e: Engine, s: State, w: WorkerId, c: Choice)
    requires Safe(e, s) && Enabled(e, s, Handle(w, c))
    ensures Grows(s, Apply(e, s, Handle(w, c))) && Safe(e, Apply(e, s, Handle(w, c)))
  {
    hide BrokerOk, Effect, NextPc, ProcessOk, MessageOk, SettledOk, UploadOk, ResultOk, RowOk;
    var s' := Apply(e, s, Handle(w, c));
    var pc := s.workers[w].handler.value.pc;
    assert Handled(e, s, s', w, c);
    if Settling(pc) {
      SettleKeepsSafe(e, s, s', w, c);
    } else if Writing(pc) {
      WriteKeepsSafe(e, s, s', w, c);
    } else {
      ReadKeepsSafe(e, s, s', w, c);
    }
  }

  // ---- the upload handler's calls ----------------------------------------

  /** s' is s after the request handler of id made its call, answered by c. */
  ghost predicate Created(s: State, s': State, id: Id, c: CreateChoice) {
    && id in s.uploads && CreateLegal(s.world, id, s.uploads[id], c)
    && var (world, u) := CreateAdvance(s.world, id, s.uploads[id], c);
       s' == s.(world := world, uploads := s.uploads[id := u])
  }

  lemma CreateGrowsTables(s: State, s': State, id: Id, c: CreateChoice)
    requires Created(s, s', id, c) && UploadOk(s, id)
    ensures TablesGrow(s.world.tables, s'.world.tables)
  {
    if s.uploads[id].pc.Compensating? && c.applied {
      FailIsRowStep(s.world.tables, id, Standard(NotQueued), c.now);
    }
  }

  lemma CreateGrowsBucket(s: State, s': State, id: Id, c: CreateChoice)
    requires Created(s, s', id, c) && UploadOk(s, id)
    ensures forall k | k in s.world.bucket :: k in s'.world.bucket && s'.world.bucket[k] == s.world.bucket[k]
  {
    hide BuildKey, IsUuid, AfterInsert, AfterMarkFailed, Accept;
  }

  lemma CreateGrowsBroker(s: State, s': State, id: Id, c: CreateChoice)
    requires Created(s, s', id, c) && s.world.broker.nextMsg !in s.world.broker.messages
    ensures BrokerGrows(s.world.broker, s'.world.broker)
  {
    hide BuildKey, IsUuid, EncodeJob, AfterInsert, AfterMarkFailed;
  }

  lemma CreateGrows(s: State, s': State, id: Id, c: CreateChoice)
    requires Created(s, s', id, c) && UploadOk(s, id) && BrokerOk(s.world.broker)
    ensures Grows(s, s')
  {
    CreateGrowsTables(s, s', id, c);
    CreateGrowsBucket(s, s', id, c);
    CreateGrowsBroker(s, s', id, c);
    hide BrokerOk, TablesGrow, BrokerGrows, UploadOk, BuildKey, EncodeJob, IsUuid, AfterInsert, AfterMarkFailed, Accept;
  }

  lemma CreatedUploadOk(e: Engine, s: State, s': State, id: Id, c: CreateChoice)
    requires Created(s, s', id, c) && UploadOk(s, id) && BrokerOk(s.world.broker)
    requires id in s.world.tables.results ==> id in s.world.tables.requests
    requires id in s.world.tables.requests ==> RowOk(s, id)
    ensures UploadOk(s', id)
  {
    match s.uploads[id].pc
    case Putting =>
    case Inserting =>
    case Publishing =>
    case Confirming =>
    case Compensating =>
  }

  lemma CreateKeepsOther(s: State, s': State, id: Id, c: CreateChoice, x: Id)
    requires Created(s, s', id, c) && x in s.uploads && x != id
    requires UploadOk(s, id) && UploadOk(s, x) && Grows(s, s')
    ensures UploadOk(s', x)
  {
    KeyIdentifiesUpload(x, s.uploads[x].extension, id, s.uploads[id].extension);
    UploadSurvives(s, s', x);
  }

  lemma CreateKeepsOwn(e: Engine, s: State, s': State, id: Id, c: CreateChoice)
    requires UploadsOk(s) && TablesOk(e, s) && BrokerOk(s.world.broker) && Created(s, s', id, c)
    ensures Grows(s, s') && UploadOk(s', id)
  {
    assert id in s.world.tables.results ==> ResultOk(e, s, id);
    assert id in s.world.tables.requests ==> RowOk(s, id);
    CreateGrows(s, s', id, c);
    CreatedUploadOk(e, s, s', id, c);
  }

  lemma CreateKeepsUploads(s: State, s': State, id: Id, c: CreateChoice)
    requires UploadsOk(s) && Created(s, s', id, c) && Grows(s, s') && UploadOk(s', id)
    ensures UploadsOk(s')
  {
    forall key | key in s'.world.bucket ensures key in s.world.bucket || Owned(s', key) {
      assert id in s'.uploads && (key !in s.world.bucket ==> KeyOf(id, s'.uploads[id]) == key);
    }
    OwnersSurvive(s, s');
    forall x | x in s'.uploads ensures UploadOk(s', x) {
      if x != id { CreateKeepsOther(s, s', id, c, x); }
    }
  }

  lemma CreateKeepsRow(s: State, s': State, id: Id, c: CreateChoice)
    requires Created(s, s', id, c) && UploadOk(s, id)
    requires id in s.world.tables.requests ==> RowOk(s, id)
    requires id in s.world.tables.results ==> id in s.world.tables.requests
    ensures id in s'.world.tables.requests ==> RowOk(s', id)
    ensures s.world.tables.requests.Keys <= s'.world.tables.requests.Keys
    ensures s'.world.tables.results == s.world.tables.results
    ensures forall x | x in s'.world.tables.requests && x != id ::
              x in s.world.tables.requests && s'.world.tables.requests[x] == s.world.tables.requests[x]
  {
  }

  lemma CreateKeepsFiles(s: State, s': State, id: Id, c: CreateChoice)
    requires Created(s, s', id, c)
    ensures forall x | x in s.uploads :: x in s'.uploads && SameFile(s.uploads[x], s'.uploads[x])
  {
  }

  lemma CreateKeepsTables(e: Engine, s: State, s': State, id: Id, c: CreateChoice)
    requires TablesOk(e, s) && Created(s, s', id, c) && UploadOk(s, id)
    ensures TablesOk(e, s')
  {
    assert id in s.world.tables.results ==> ResultOk(e, s, id);
    assert id in s.world.tables.requests ==> RowOk(s, id);
    CreateKeepsFiles(s, s', id, c);
    CreateKeepsRow(s, s', id, c);
    hide Created, UploadOk, RowShape, BuildKey;
    forall x | x in s'.world.tables.requests ensures RowOk(s', x) {
      if x != id { assert RowOk(s, x); }
    }
    forall x | x in s'.world.tables.results ensures ResultOk(e, s', x) {
      assert ResultOk(e, s, x);
    }
  }

  lemma PublishedMessageOk(s: State, s': State, id: Id, c: CreateChoice)
    requires Created(s, s', id, c) && s.uploads[id].pc.Publishing? && c.accepted
    requires UploadOk(s, id) && UploadOk(s', id) && BrokerOk(s.world.broker)
    ensures var m := s.world.broker.nextMsg;
            m in s'.world.broker.messages && MessageOk(s', m) && SettledOk(s', m)
  {
  }

  lemma CreateKeepsMessages(s: State, s': State, id: Id, c: CreateChoice)
    requires MessagesOk(s) && Created(s, s', id, c) && Grows(s, s')
    requires UploadOk(s, id) && UploadOk(s', id) && BrokerOk(s.world.broker)
    ensures MessagesOk(s') && BrokerOk(s'.world.broker)
  {
    if s.uploads[id].pc.Publishing? && c.accepted {
      AcceptKeepsBroker(s.world.broker, BodyOf(id, s.uploads[id]));
      PublishedMessageOk(s, s', id, c);
      forall m | m in s'.world.broker.messages ensures MessageOk(s', m) && SettledOk(s', m) {
        if m != s.world.broker.nextMsg {
          MessageSurvives(s, s', m);
          SettledSurvives(s, s', m);
        }
      }
    } else {
      assert s'.world.broker == s.world.broker;
      MessagesSurvive(s, s');
    }
  }

  lemma CreateKeepsSafe(e: Engine, s: State, id: Id, c: CreateChoice)
    requires Safe(e, s) && Enabled(e, s, Create(id, c))
    ensures Grows(s, Apply(e, s, Create(id, c))) && Safe(e, Apply(e, s, Create(id, c)))
  {
    hide BrokerOk, ProcessOk, CreateLegal, CreateAdvance, MessageOk, SettledOk, ResultOk, RowOk;
    var s' := Apply(e, s, Create(id, c));
    assert Created(s, s', id, c);
    CreateKeepsOwn(e, s, s', id, c);
    CreateKeepsUploads(s, s', id, c);
    CreateKeepsTables(e, s, s', id, c);
    CreateKeepsMessages(s, s', id, c);
    ProcessesSurvive(e, s, s', {});
  }

  // ---- arrivals and crashes of request handlers ---------------------------

  lemma BookkeepingKeepsUploads(s: State, s': State, id: Id)
    requires UploadsOk(s) && Grows(s, s') && s' == s.(uploads := s'.uploads)
    requires s'.uploads.Keys == s.uploads.Keys + {id} && id !in s.foreign
    requires forall x | x in s.uploads && x != id :: s'.uploads[x] == s.uploads[x]
    requires UploadOk(s', id)
    ensures UploadsOk(s')
  {
    OwnersSurvive(s, s');
    forall x | x in s'.uploads ensures UploadOk(s', x) {
      if x != id { UploadSurvives(s, s', x); }
    }
  }

  lemma BookkeepingKeepsTables(e: Engine, s: State, s': State)
    requires TablesOk(e, s) && Grows(s, s') && s' == s.(uploads := s'.uploads)
    ensures TablesOk(e, s')
  {
  }

  /** Only the bookkeeping of one upload changes. */
  lemma BookkeepingKeepsSafe(e: Engine, s: State, s': State, id: Id)
    requires Safe(e, s) && Grows(s, s') && s' == s.(uploads := s'.uploads)
    requires UploadsOk(s')
    ensures Safe(e, s')
  {
    BookkeepingKeepsTables(e, s, s');
    MessagesSurvive(s, s');
    ProcessesSurvive(e, s, s', {});
  }

  lemma RowsHaveUploads(e: Engine, s: State)
    requires TablesOk(e, s)
    ensures s.world.tables.requests.Keys <= s.uploads.Keys
  {
  }

  /** A fresh id owns no object and no row yet. */
  lemma FreshUploadOk(e: Engine, s: State, id: Id, u: Upload)
    requires TablesOk(e, s) && UploadsOk(s) && Enabled(e, s, Arrive(id, u))
    ensures UploadOk(s.(uploads := s.uploads[id := u]), id)
  {
    RowsHaveUploads(e, s);
    assert KeyOf(id, u) !in s.world.bucket by {
      if KeyOf(id, u) in s.world.bucket {
        assert Owned(s, KeyOf(id, u));
        var x :| x in s.uploads && KeyOf(x, s.uploads[x]) == KeyOf(id, u);
        assert UploadOk(s, x);
        KeyIdentifiesUpload(x, s.uploads[x].extension, id, u.extension);
        assert false;
      }
    }
  }

  lemma ArriveKeepsSafe(e: Engine, s: State, id: Id, u: Upload)
    requires Safe(e, s) && Enabled(e, s, Arrive(id, u))
    ensures Grows(s, Apply(e, s, Arrive(id, u))) && Safe(e, Apply(e, s, Arrive(id, u)))
  {
    var s' := Apply(e, s, Arrive(id, u));
    FreshUploadOk(e, s, id, u);
    assert Grows(s, s');
    BookkeepingKeepsUploads(s, s', id);
    BookkeepingKeepsSafe(e, s, s', id);
  }

  lemma CrashKeepsUploads(s: State, s': State, id: Id)
    requires UploadsOk(s) && id in s.uploads
    requires s' == s.(uploads := s.uploads[id := s.uploads[id].(pc := Finished(Crashed))])
    ensures Grows(s, s') && UploadsOk(s')
  {
    assert UploadOk(s, id);
    BookkeepingKeepsUploads(s, s', id);
  }

  lemma BackendCrashKeepsSafe(e: Engine, s: State, id: Id)
    requires Safe(e, s) && Enabled(e, s, BackendCrash(id))
    ensures Grows(s, Apply(e, s, BackendCrash(id))) && Safe(e, Apply(e, s, BackendCrash(id)))
  {
    var s' := Apply(e, s, BackendCrash(id));
    CrashKeepsUploads(s, s', id);
    BookkeepingKeepsSafe(e, s, s', id);
  }

  // ---- every step, every run ---------------------------------------------

  lemma StepKeepsSafe(e: Engine, s: State, step: Step)
    requires Safe(e, s) && Enabled(e, s, step)
    ensures Grows(s, Apply(e, s, step)) && Safe(e, Apply(e, s, step))
  {
    match step
    case Arrive(id, u) => ArriveKeepsSafe(e, s, id, u);
    case Create(id, c) => CreateKeepsSafe(e, s, id, c);
    case BackendCrash(id) => BackendCrashKeepsSafe(e, s, id);
    case ForeignPublish(body) => ForeignKeepsSafe(e, s, body);
    case Connect(w) => ConnectKeepsSafe(e, s, w);
    case HandOut(w, m) => HandOutKeepsSafe(e, s, w, m);
    case Start(w, d) => StartKeepsSafe(e, s, w, d);
    case Handle(w, c) => HandleKeepsSafe(e, s, w, c);
    case Close(w) => DropKeepsSafe(e, s, Apply(e, s, step), ConnOf(s, w), {w});
    case Crash(w) => DropKeepsSafe(e, s, Apply(e, s, step), ConnOf(s, w), {w});
    case ConnLost(c) => DropKeepsSafe(e, s, Apply(e, s, step), c, {});
  }

  lemma InitialIsSafe(e: Engine)
    ensures Safe(e, INITIAL)
  {
  }

  lemma {:induction false} RunKeepsSafe(e: Engine, s: State, steps: seq<Step>)
    requires Safe(e, s) && IsRun(e, s, steps)
    ensures Safe(e, After(e, s, steps))
    decreases |steps|
  {
    if steps != [] {
      StepKeepsSafe(e, s, steps[0]);
      RunKeepsSafe(e, Apply(e, s, steps[0]), steps[1..]);
    }
  }

  ghost predicate Reachable(e: Engine, s: State) {
    exists steps :: IsRun(e, INITIAL, steps) && After(e, INITIAL, steps) == s
  }

  lemma ReachableIsSafe(e: Engine, s: State)
    requires Reachable(e, s)
    ensures Safe(e, s)
  {
    var steps :| IsRun(e, INITIAL, steps) && After(e, INITIAL, steps) == s;
    InitialIsSafe(e);
    RunKeepsSafe(e, INITIAL, steps);
  }
}
