/** The worker's message handler, twice: as a machine that can be interrupted between any two
    calls it makes, and as the sequential callback `_on_message`, proved to be one run of it. */
module Worker {
  import opened Domain
  import opened Database
  import opened Broker
  import opened Services

  /** The call the handler is about to make. */
  datatype Pc =
    | NackMalformed
    | Marking
    | Downloading
    | Classifying(bytes: Bytes)
    | Saving(result: ResultRow)
    | Acking
    | Requeueing
    | Failing(message: Sentence)
    | DeadLettering(recorded: bool) // recorded: mark_failed returned
    | Done                          // the callback returned
    | Escaped                       // an exception left the callback

  /** `job` is what parse_job read; it is None exactly for a malformed body. */
  datatype Handler = Handler(delivery: Delivery, job: Option<Job>, pc: Pc)

  function Begin(d: Delivery, body: Body): Handler {
    var job := ParseJob(body);
    Handler(d, job, if job.None? then NackMalformed else Marking)
  }

  predicate Settling(pc: Pc) {
    pc.NackMalformed? || pc.Acking? || pc.Requeueing? || pc.DeadLettering?
  }

  predicate Over(pc: Pc) {
    pc.Done? || pc.Escaped?
  }

  /** How the environment answers the call at hand. */
  datatype Choice =
    | DbReplies(applied: bool, reply: Reply, now: Time)
    | S3Replies(s3: S3Reply)
    | EngineReplies(fault: Option<Exc>, durationMs: nat)
    | BrokerReplies(applied: bool, reply: Reply)

  /** Where an exception raised inside the try block leads. */
  function Caught(e: Exc, redelivered: bool): Pc {
    if Retries(e, redelivered) then Requeueing else Failing(UserMessage(e))
  }

  /** The kind of answer each call gets. */
  predicate Fits(pc: Pc, c: Choice) {
    match pc
    case Marking => c.DbReplies?
    case Downloading => c.S3Replies?
    case Classifying(_) => c.EngineReplies?
    case Saving(_) => c.DbReplies?
    case Failing(_) => c.DbReplies?
    case Done => false
    case Escaped => false
    case _ => c.BrokerReplies?
  }

  function NextPc(e: Engine, h: Handler, c: Choice): Pc
    requires Fits(h.pc, c)
  {
    var red := h.delivery.redelivered;
    match h.pc
    case Marking => if c.reply.Returned? then Downloading else Caught(c.reply.exc, red)
    case Downloading =>
      var fetch := Download(c.s3);
      if fetch.Fetched? then Classifying(fetch.bytes) else Caught(fetch.exc, red)
    case Classifying(bytes) =>
      if c.fault.Some? then Caught(c.fault.value, red)
      else
        var answer := e.classify(bytes);
        if answer.None? then Caught(InvalidImage, red)
        else Saving(ResultRow(answer.value, e.arch, e.valAcc, c.durationMs))
    case Saving(_) => if c.reply.Returned? then Acking else Caught(c.reply.exc, red)
    case Acking => if c.reply.Returned? then Done else Caught(c.reply.exc, red)
    case Failing(_) =>
      if c.reply.Returned? then DeadLettering(true)
      else if c.reply.exc == DatabaseError then DeadLettering(false)
      else Escaped
    case _ => if c.reply.Returned? then Done else Escaped
  }

  /** The answers a call can get. */
  predicate Legal(e: Engine, w: World, h: Handler, c: Choice) {
    && Fits(h.pc, c)
    && h.delivery.msg in w.broker.messages
    && (h.job.None? ==> h.pc.NackMalformed?)
    && match h.pc
       case Marking => MarkProcessingOutcome(w.tables, h.job.value.id, c.applied, c.reply)
       case Downloading => HonestReply(w.bucket, h.job.value.key, c.s3)
       case Classifying(_) => c.fault.Some? ==> c.fault.value == OtherException
       case Saving(result) => SaveSuccessOutcome(w.tables, h.job.value.id, result, c.applied, c.reply)
       case Failing(_) => MarkFailedOutcome(h.job.value.id, c.applied, c.reply)
       case _ => SettleOutcome(w.broker, h.delivery, c.applied, c.reply)
  }

  function CallAt(h: Handler): ChannelCall {
    if h.pc.Acking? then AckCall(h.delivery.tag)
    else NackCall(h.delivery.tag, h.pc.Requeueing?)
  }

  /** The effect of the call at hand, when the environment says it took place. */
  function Effect(w: World, h: Handler, c: Choice): World
    requires Fits(h.pc, c)
    requires h.job.None? ==> h.pc.NackMalformed?
    requires h.delivery.msg in w.broker.messages
  {
    match h.pc
    case Marking =>
      if c.applied then w.(tables := AfterMarkProcessing(w.tables, h.job.value.id, c.now)) else w
    case Downloading => w
    case Classifying(_) => w
    case Saving(result) =>
      if c.applied then w.(tables := AfterSaveSuccess(w.tables, h.job.value.id, result, c.now)) else w
    case Failing(message) =>
      if c.applied then w.(tables := AfterMarkFailed(w.tables, h.job.value.id, Standard(message), c.now)) else w
    case _ =>
      if c.applied then w.(broker := Settle(w.broker, h.delivery, CallAt(h))) else w
  }

  function Advance(e: Engine, w: World, h: Handler, c: Choice): (World, Handler)
    requires Legal(e, w, h, c)
  {
    (Effect(w, h, c), h.(pc := NextPc(e, h, c)))
  }

  // ---- runs of one uninterrupted handler --------------------------------

  ghost predicate LegalRun(e: Engine, w: World, h: Handler, cs: seq<Choice>)
    decreases |cs|
  {
    cs == []
    || (Legal(e, w, h, cs[0])
        && var (w', h') := Advance(e, w, h, cs[0]);
           LegalRun(e, w', h', cs[1..]))
  }

  ghost function RunHandler(e: Engine, w: World, h: Handler, cs: seq<Choice>): (World, Handler)
    requires LegalRun(e, w, h, cs)
    decreases |cs|
  {
    if cs == [] then (w, h)
    else var (w', h') := Advance(e, w, h, cs[0]);
         RunHandler(e, w', h', cs[1..])
  }

  lemma {:induction false} RunExtends(e: Engine, w: World, h: Handler, cs: seq<Choice>, c: Choice)
    requires LegalRun(e, w, h, cs)
    requires var (w', h') := RunHandler(e, w, h, cs); Legal(e, w', h', c)
    ensures LegalRun(e, w, h, cs + [c])
    ensures RunHandler(e, w, h, cs + [c])
            == var (w', h') := RunHandler(e, w, h, cs); Advance(e, w', h', c)
    decreases |cs|
  {
    if cs == [] {
      assert (cs + [c])[1..] == [];
    } else {
      var (w1, h1) := Advance(e, w, h, cs[0]);
      assert (cs + [c])[1..] == cs[1..] + [c];
      RunExtends(e, w1, h1, cs[1..], c);
    }
  }

  /** Calls still to come if nothing interrupts the handler. */
  function Rank(pc: Pc): nat {
    match pc
    case NackMalformed => 1
    case Marking => 8
    case Downloading => 7
    case Classifying(_) => 6
    case Saving(_) => 5
    case Acking => 4
    case Requeueing => 1
    case Failing(_) => 3
    case DeadLettering(_) => 2
    case Done => 0
    case Escaped => 0
  }

  /** Every call brings the handler strictly closer to the end of the callback. */
  lemma RankDecreases(e: Engine, h: Handler, c: Choice)
    requires Fits(h.pc, c)
    ensures Rank(NextPc(e, h, c)) < Rank(h.pc)
  {
  }

  function Settlements(cs: seq<Choice>): nat {
    if cs == [] then 0
    else (if cs[0].BrokerReplies? then 1 else 0) + Settlements(cs[1..])
  }

  predicate NothingRaisedByBroker(cs: seq<Choice>) {
    forall c | c in cs && c.BrokerReplies? :: c.reply.Returned?
  }

  lemma OverIsFinal(e: Engine, w: World, h: Handler, cs: seq<Choice>)
    requires LegalRun(e, w, h, cs) && Over(h.pc)
    ensures cs == []
  {
  }

  /** Every way through the callback, over the whole exception hierarchy, settles its tag exactly
      once when the channel does not raise; the only other exit is an unexpected exception out of
      mark_failed, which settles nothing. */
  lemma {:induction false} SettlesExactlyOnce(e: Engine, w: World, h: Handler, cs: seq<Choice>)
    requires LegalRun(e, w, h, cs) && !Over(h.pc)
    requires Over(RunHandler(e, w, h, cs).1.pc)
    requires NothingRaisedByBroker(cs)
    ensures Settlements(cs) == if RunHandler(e, w, h, cs).1.pc.Done? then 1 else 0
    decreases |cs|
  {
    assert cs != [];
    var (w', h') := Advance(e, w, h, cs[0]);
    if Over(h'.pc) {
      OverIsFinal(e, w', h', cs[1..]);
    } else {
      assert NothingRaisedByBroker(cs[1..]) by {
        assert forall c | c in cs[1..] :: c in cs;
      }
      SettlesExactlyOnce(e, w', h', cs[1..]);
    }
  }

  /** The engine may raise anything; only an undecodable image is its own doing. */
  datatype EngineFault = NoFault | Crashes

  /** Everything the environment decides during one callback. */
  datatype Script = Script(
    mark: DbFault,
    get: S3Reply,
    engine: EngineFault,
    durationMs: nat,
    save: DbFault,
    settle: ChannelFault,
    fail: DbFault,
    settleFailed: ChannelFault,
    now: Time)

  /** Exactly one call was made on the channel, for this delivery's tag. */
  predicate OneSettlement(before: seq<ChannelCall>, after: seq<ChannelCall>, d: Delivery) {
    |after| == |before| + 1 && after[..|before|] == before && after[|before|].tag == d.tag
  }

  /** The bookkeeping of a callback in progress: the machine's run so far ends where the
      objects are. */
  ghost predicate At(e: Engine, w0: World, h0: Handler, cs: seq<Choice>, w: World, h: Handler) {
    LegalRun(e, w0, h0, cs) && RunHandler(e, w0, h0, cs) == (w, h)
  }

  // ---- how a callback ends, in terms of what its services were like ------------

  predicate StoreUnreachable(reply: S3Reply) {
    || reply.BotoCoreError?
    || (reply.ClientError? && reply.code != "NoSuchKey" && reply.code != "404" && reply.code != "NoSuchBucket")
  }

  predicate ObjectMissing(reply: S3Reply) {
    reply.ClientError? && (reply.code == "NoSuchKey" || reply.code == "404" || reply.code == "NoSuchBucket")
  }

  /** A failure can be recorded and the message rejected. */
  predicate RecordsFailures(script: Script) {
    script.fail.Healthy? && script.settleFailed.Sound?
  }

  ghost predicate OtherRowsKept(t: Tables, t': Tables, id: Id) {
    && t'.requests.Keys == t.requests.Keys
    && (forall x | x in t.requests && x != id :: t'.requests[x] == t.requests[x])
    && (forall x | x != id :: x in t'.results <==> x in t.results)
    && (forall x | x in t.results && x != id && x in t'.results :: t'.results[x] == t.results[x])
  }

  /** The message waits in the queue again, marked, and nobody owes it an answer. */
  predicate HandedBack(b: Broker, b': Broker, d: Delivery) {
    && d.msg in b'.queue && d.msg !in b'.unacked && b'.dead == b.dead && b'.acked == b.acked
    && d.msg in b'.messages && b'.messages[d.msg].redelivered
  }

  predicate Rejected(b: Broker, b': Broker, d: Delivery) {
    d.msg in b'.dead && d.msg !in b'.unacked && b'.queue == b.queue && b'.acked == b.acked
  }

  predicate Acknowledged(b: Broker, b': Broker, d: Delivery) {
    d.msg in b'.acked && d.msg !in b'.unacked && b'.queue == b.queue && b'.dead == b.dead
  }

  /** The row reads as failed for this reason, and no result was touched. */
  ghost predicate ReadsFailed(t: Tables, t': Tables, id: Id, sentence: Sentence, now: Time) {
    && OtherRowsKept(t, t', id) && t'.results == t.results
    && id in t.requests && id in t'.requests
    && var r, r' := t.requests[id], t'.requests[id];
       && SameUpload(r, r') && r'.status == Failed && r'.errorMessage == Some(Standard(sentence))
       && r'.startedAt == r.startedAt && r'.completedAt == Some(now)
  }

  ghost predicate ReadsProcessing(t: Tables, t': Tables, id: Id, now: Time) {
    && OtherRowsKept(t, t', id) && t'.results == t.results
    && id in t.requests && id in t'.requests
    && var r, r' := t.requests[id], t'.requests[id];
       && SameUpload(r, r') && r'.status == Processing && r'.errorMessage == r.errorMessage
       && r'.startedAt == Some(now) && r'.completedAt == r.completedAt
  }

  ghost predicate ReadsCompleted(t: Tables, t': Tables, id: Id, result: ResultRow, now: Time) {
    && OtherRowsKept(t, t', id) && id in t'.results && t'.results[id] == result
    && id in t.requests && id in t'.requests
    && var r, r' := t.requests[id], t'.requests[id];
       && SameUpload(r, r') && r'.status == Completed && r'.errorMessage.None?
       && r'.startedAt == r.startedAt && r'.completedAt == Some(now)
  }

  /** One consumer process. The connection life cycle is in the Reconnect module. */
  class MessageHandler {
    const engine: Engine
    const storage: map<Key, Bytes>
    const database: Postgres
    const channel: Channel

    constructor (engine: Engine, storage: map<Key, Bytes>, database: Postgres, channel: Channel)
      ensures this.engine == engine && this.storage == storage
      ensures this.database == database && this.channel == channel
    {
      this.engine := engine;
      this.storage := storage;
      this.database := database;
      this.channel := channel;
    }

    ghost function Now(): World
      reads this, database, channel
    {
      World(storage, database.Contents(), channel.broker)
    }

    /** _fail: the row gets its sentence if the database takes it; the message is rejected in any case. */
    method Fail(d: Delivery, job: Job, message: Sentence, script: Script,
                ghost w0: World, ghost h0: Handler, ghost cs0: seq<Choice>)
      returns (escaped: bool, ghost cs: seq<Choice>)
      requires d.msg in channel.broker.messages
      requires At(engine, w0, h0, cs0, Now(), Handler(d, Some(job), Failing(message)))
      modifies database, channel
      ensures At(engine, w0, h0, cs, Now(), Handler(d, Some(job), if escaped then Escaped else Done))
      ensures channel.calls == old(channel.calls)
              || channel.calls == old(channel.calls) + [NackCall(d.tag, false)]
      ensures !escaped ==> channel.calls == old(channel.calls) + [NackCall(d.tag, false)]
      ensures !script.fail.Broken? && !script.settleFailed.RaisesAfter? && !script.settleFailed.RaisesInstead?
              ==> !escaped
      ensures script.settleFailed.Sound? && !escaped && Live(old(channel.broker), d) ==>
                Rejected(old(channel.broker), channel.broker, d)
      ensures script.fail.Healthy? && IsUuid(job.id) ==>
                database.Contents() == AfterMarkFailed(old(database.Contents()), job.id, Standard(message), script.now)
    {
      cs := cs0;
      var reply, applied := database.MarkFailed(job.id, Standard(message), script.now, script.fail);
      RunExtends(engine, w0, h0, cs, DbReplies(applied, reply, script.now));
      cs := cs + [DbReplies(applied, reply, script.now)];
      if reply.Raised? && reply.exc != DatabaseError {
        return true, cs;
      }
      ghost var h := Handler(d, Some(job), DeadLettering(reply.Returned?));
      assert At(engine, w0, h0, cs, Now(), h);
      reply, applied := channel.Send(d, NackCall(d.tag, false), script.settleFailed);
      RunExtends(engine, w0, h0, cs, BrokerReplies(applied, reply));
      cs := cs + [BrokerReplies(applied, reply)];
      escaped := reply.Raised?;
    }

    /** The except chain of _on_message. */
    method Recover(d: Delivery, job: Job, exc: Exc, script: Script,
                   ghost w0: World, ghost h0: Handler, ghost cs0: seq<Choice>)
      returns (escaped: bool, ghost cs: seq<Choice>)
      requires d.msg in channel.broker.messages
      requires At(engine, w0, h0, cs0, Now(), Handler(d, Some(job), Caught(exc, d.redelivered)))
      modifies database, channel
      ensures At(engine, w0, h0, cs, Now(), Handler(d, Some(job), if escaped then Escaped else Done))
      ensures !escaped ==> channel.calls == old(channel.calls) + [NackCall(d.tag, Retries(exc, d.redelivered))]
      ensures Retries(exc, d.redelivered) ==> database.Contents() == old(database.Contents())
      ensures Retries(exc, d.redelivered) && script.settle.Sound? && Live(old(channel.broker), d) ==>
                !escaped && HandedBack(old(channel.broker), channel.broker, d)
      ensures !Retries(exc, d.redelivered) && RecordsFailures(script) && IsUuid(job.id) ==>
                && !escaped
                && (Live(old(channel.broker), d) ==> Rejected(old(channel.broker), channel.broker, d))
                && database.Contents()
                   == AfterMarkFailed(old(database.Contents()), job.id, Standard(UserMessage(exc)), script.now)
    {
      ClausesRetryExactly(exc, d.redelivered);
      cs := cs0;
      if Catches(PERMANENT, exc) {
        escaped, cs := Fail(d, job, UserMessage(exc), script, w0, h0, cs);
      } else if Catches(TRANSIENT, exc) {
        if !d.redelivered {
          var reply, applied := channel.Send(d, NackCall(d.tag, true), script.settle);
          RunExtends(engine, w0, h0, cs, BrokerReplies(applied, reply));
          cs := cs + [BrokerReplies(applied, reply)];
          return reply.Raised?, cs;
        }
        escaped, cs := Fail(d, job, UserMessage(exc), script, w0, h0, cs);
      } else {
        escaped, cs := Fail(d, job, UserMessage(exc), script, w0, h0, cs);
      }
    }

    /** The last call of the try block. A raising ack is caught like any other exception, after the result
        is committed. */
    method Acknowledge(d: Delivery, job: Job, script: Script,
                       ghost w0: World, ghost h0: Handler, ghost cs0: seq<Choice>)
      returns (escaped: bool, ghost cs: seq<Choice>)
      requires d.msg in channel.broker.messages
      requires At(engine, w0, h0, cs0, Now(), Handler(d, Some(job), Acking))
      modifies database, channel
      ensures At(engine, w0, h0, cs, Now(), Handler(d, Some(job), if escaped then Escaped else Done))
      ensures script.settle.Sound? ==>
                && !escaped && channel.calls == old(channel.calls) + [AckCall(d.tag)]
                && database.Contents() == old(database.Contents())
                && (Live(old(channel.broker), d) ==> Acknowledged(old(channel.broker), channel.broker, d))
    {
      hide LegalRun, RunHandler;
      cs := cs0;
      var reply, applied := channel.Send(d, AckCall(d.tag), script.settle);
      RunExtends(engine, w0, h0, cs, BrokerReplies(applied, reply));
      cs := cs + [BrokerReplies(applied, reply)];
      escaped := false;
      if reply.Raised? {
        escaped, cs := Recover(d, job, reply.exc, script, w0, h0, cs);
      }
    }

    /** What saving and settling come to, case by case. */
    ghost predicate SaveEnds(result: ResultRow, d: Delivery, id: Id, script: Script,
                             t: Tables, b: Broker, calls: seq<ChannelCall>,
                             t': Tables, b': Broker, calls': seq<ChannelCall>)
    {
      IsUuid(id) && id in t.requests && Live(b, d) ==>
        && (script.save.Healthy? && script.settle.Sound?
            && 0.0 <= result.prediction.confidence <= 1.0 && result.durationMs >= 0 ==>
              && calls' == calls + [AckCall(d.tag)] && Acknowledged(b, b', d)
              && ReadsCompleted(t, t', id, result, script.now))
        && (script.save.Unreachable? && !d.redelivered && script.settle.Sound? ==>
              calls' == calls + [NackCall(d.tag, true)] && HandedBack(b, b', d) && t' == t)
        && (script.save.Unreachable? && d.redelivered && RecordsFailures(script) ==>
              && calls' == calls + [NackCall(d.tag, false)] && Rejected(b, b', d)
              && ReadsFailed(t, t', id, DatabaseDown, script.now))
    }

    /** The part of the try block after the forward pass. */
    method Finish(d: Delivery, job: Job, result: ResultRow, script: Script,
                  ghost w0: World, ghost h0: Handler, ghost cs0: seq<Choice>)
      returns (escaped: bool, ghost cs: seq<Choice>)
      requires d.msg in channel.broker.messages
      requires At(engine, w0, h0, cs0, Now(), Handler(d, Some(job), Saving(result)))
      modifies database, channel
      ensures At(engine, w0, h0, cs, Now(), Handler(d, Some(job), if escaped then Escaped else Done))
      ensures !escaped && script.settle.Sound? ==> OneSettlement(old(channel.calls), channel.calls, d)
      ensures SaveEnds(result, d, job.id, script, old(database.Contents()), old(channel.broker), old(channel.calls),
                       database.Contents(), channel.broker, channel.calls)
    {
      hide LegalRun, RunHandler, HandedBack, Rejected, Acknowledged, Live, IsUuid;
      SentencePerException(DatabaseError);
      cs := cs0;
      var reply, applied := database.SaveSuccess(job.id, result, script.now, script.save);
      RunExtends(engine, w0, h0, cs, DbReplies(applied, reply, script.now));
      cs := cs + [DbReplies(applied, reply, script.now)];
      if reply.Raised? {
        escaped, cs := Recover(d, job, reply.exc, script, w0, h0, cs);
        return;
      }
      escaped, cs := Acknowledge(d, job, script, w0, h0, cs);
    }

    /** What the forward pass and what follows it come to. */
    ghost predicate InferenceEnds(bytes: Bytes, d: Delivery, id: Id, script: Script,
                                  t: Tables, b: Broker, calls: seq<ChannelCall>,
                                  t': Tables, b': Broker, calls': seq<ChannelCall>)
    {
      var answer := engine.classify(bytes);
      && (script.engine.NoFault? && answer.Some? ==>
            SaveEnds(ResultRow(answer.value, engine.arch, engine.valAcc, script.durationMs), d, id, script,
                     t, b, calls, t', b', calls'))
      && (IsUuid(id) && id in t.requests && Live(b, d) && RecordsFailures(script)
          && (script.engine.Crashes? || answer.None?) ==>
            && calls' == calls + [NackCall(d.tag, false)] && Rejected(b, b', d)
            && ReadsFailed(t, t', id, if script.engine.Crashes? then Unexpected else Undecodable, script.now))
    }

    /** The part of the try block after the download. */
    method Infer(d: Delivery, job: Job, bytes: Bytes, script: Script,
                 ghost w0: World, ghost h0: Handler, ghost cs0: seq<Choice>)
      returns (escaped: bool, ghost cs: seq<Choice>)
      requires d.msg in channel.broker.messages
      requires At(engine, w0, h0, cs0, Now(), Handler(d, Some(job), Classifying(bytes)))
      modifies database, channel
      ensures At(engine, w0, h0, cs, Now(), Handler(d, Some(job), if escaped then Escaped else Done))
      ensures !escaped && script.settle.Sound? ==> OneSettlement(old(channel.calls), channel.calls, d)
      ensures InferenceEnds(bytes, d, job.id, script, old(database.Contents()), old(channel.broker), old(channel.calls),
                            database.Contents(), channel.broker, channel.calls)
    {
      hide LegalRun, RunHandler, SaveEnds;
      SentencePerException(InvalidImage);
      SentencePerException(OtherException);
      cs := cs0;
      var fault := if script.engine.Crashes? then Some(OtherException) else None;
      RunExtends(engine, w0, h0, cs, EngineReplies(fault, script.durationMs));
      cs := cs + [EngineReplies(fault, script.durationMs)];
      if fault.Some? {
        escaped, cs := Recover(d, job, OtherException, script, w0, h0, cs);
        return;
      }
      var answer := engine.classify(bytes);
      if answer.None? {
        escaped, cs := Recover(d, job, InvalidImage, script, w0, h0, cs);
        return;
      }
      var result := ResultRow(answer.value, engine.arch, engine.valAcc, script.durationMs);
      escaped, cs := Finish(d, job, result, script, w0, h0, cs);
    }

    /** What download and what follows it come to. */
    ghost predicate DownloadEnds(d: Delivery, id: Id, script: Script,
                                 t: Tables, b: Broker, calls: seq<ChannelCall>,
                                 t': Tables, b': Broker, calls': seq<ChannelCall>)
    {
      && (script.get.Content? ==> InferenceEnds(script.get.bytes, d, id, script, t, b, calls, t', b', calls'))
      && (IsUuid(id) && id in t.requests && Live(b, d) && StoreUnreachable(script.get)
          && !d.redelivered && script.settle.Sound? ==>
            calls' == calls + [NackCall(d.tag, true)] && HandedBack(b, b', d) && t' == t)
      && (IsUuid(id) && id in t.requests && Live(b, d) && RecordsFailures(script)
          && ((StoreUnreachable(script.get) && d.redelivered)
              || ObjectMissing(script.get) || script.get.OtherFault?) ==>
            && calls' == calls + [NackCall(d.tag, false)] && Rejected(b, b', d)
            && ReadsFailed(t, t', id, if script.get.OtherFault? then Unexpected
                                      else if ObjectMissing(script.get) then ObjectGone
                                      else StoreDown, script.now))
    }

    /** The part of the try block after the claim. */
    method Work(d: Delivery, job: Job, script: Script,
                ghost w0: World, ghost h0: Handler, ghost cs0: seq<Choice>)
      returns (escaped: bool, ghost cs: seq<Choice>)
      requires d.msg in channel.broker.messages && HonestReply(storage, job.key, script.get)
      requires At(engine, w0, h0, cs0, Now(), Handler(d, Some(job), Downloading))
      modifies database, channel
      ensures At(engine, w0, h0, cs, Now(), Handler(d, Some(job), if escaped then Escaped else Done))
      ensures !escaped && script.settle.Sound? ==> OneSettlement(old(channel.calls), channel.calls, d)
      ensures DownloadEnds(d, job.id, script, old(database.Contents()), old(channel.broker), old(channel.calls),
                           database.Contents(), channel.broker, channel.calls)
    {
      hide LegalRun, RunHandler, InferenceEnds;
      DownloadSplits(script.get);
      SentencePerException(ObjectNotFound);
      SentencePerException(StorageError);
      SentencePerException(OtherException);
      cs := cs0;
      var fetch := Download(script.get);
      RunExtends(engine, w0, h0, cs, S3Replies(script.get));
      cs := cs + [S3Replies(script.get)];
      if fetch.FetchRaised? {
        escaped, cs := Recover(d, job, fetch.exc, script, w0, h0, cs);
        return;
      }
      escaped, cs := Infer(d, job, fetch.bytes, script, w0, h0, cs);
    }

    /** What a whole callback comes to when it can claim the row: the rest happens to the claimed row. */
    ghost predicate ClaimEnds(d: Delivery, id: Id, script: Script,
                              t: Tables, b: Broker, calls: seq<ChannelCall>,
                              t': Tables, b': Broker, calls': seq<ChannelCall>)
    {
      && (script.mark.Healthy? && IsUuid(id) && id in t.requests ==>
            exists claimed :: ReadsProcessing(t, claimed, id, script.now)
                              && DownloadEnds(d, id, script, claimed, b, calls, t', b', calls'))
      && (script.mark.Healthy? && IsUuid(id) && id !in t.requests && Live(b, d) && RecordsFailures(script) ==>
            calls' == calls + [NackCall(d.tag, false)] && Rejected(b, b', d) && t' == t)
      && (script.mark.Unreachable? && Live(b, d) && !d.redelivered && script.settle.Sound? ==>
            calls' == calls + [NackCall(d.tag, true)] && HandedBack(b, b', d) && t' == t)
      && (script.mark.Unreachable? && IsUuid(id) && id in t.requests && Live(b, d) && d.redelivered
          && RecordsFailures(script) ==>
            && calls' == calls + [NackCall(d.tag, false)] && Rejected(b, b', d)
            && ReadsFailed(t, t', id, DatabaseDown, script.now))
    }

    lemma UnreachableStoreEnds(d: Delivery, id: Id, script: Script,
                               t: Tables, b: Broker, calls: seq<ChannelCall>,
                               t': Tables, b': Broker, calls': seq<ChannelCall>)
      requires ClaimEnds(d, id, script, t, b, calls, t', b', calls')
      requires script.mark.Healthy? && IsUuid(id) && id in t.requests && Live(b, d) && StoreUnreachable(script.get)
      ensures !d.redelivered && script.settle.Sound? ==>
                && calls' == calls + [NackCall(d.tag, true)] && HandedBack(b, b', d)
                && ReadsProcessing(t, t', id, script.now)
      ensures d.redelivered && RecordsFailures(script) ==>
                && calls' == calls + [NackCall(d.tag, false)] && Rejected(b, b', d)
                && id in t'.requests && t'.requests[id].status == Failed
                && t'.requests[id].errorMessage == Some(Standard(StoreDown))
    {
      hide InferenceEnds, HandedBack, Rejected, RecordsFailures;
      var claimed :| ReadsProcessing(t, claimed, id, script.now)
                     && DownloadEnds(d, id, script, claimed, b, calls, t', b', calls');
      assert StoreUnreachable(script.get) && !ObjectMissing(script.get) && !script.get.OtherFault?;
    }

    /** The try block and its except clauses. */
    method Process(d: Delivery, job: Job, script: Script, ghost w0: World, ghost h0: Handler, ghost cs0: seq<Choice>)
      returns (escaped: bool, ghost cs: seq<Choice>)
      requires d.msg in channel.broker.messages && HonestReply(storage, job.key, script.get)
      requires At(engine, w0, h0, cs0, Now(), Handler(d, Some(job), Marking))
      modifies database, channel
      ensures At(engine, w0, h0, cs, Now(), Handler(d, Some(job), if escaped then Escaped else Done))
      ensures !escaped && script.settle.Sound? ==> OneSettlement(old(channel.calls), channel.calls, d)
      ensures ClaimEnds(d, job.id, script, old(database.Contents()), old(channel.broker), old(channel.calls),
                        database.Contents(), channel.broker, channel.calls)
    {
      hide LegalRun, RunHandler, DownloadEnds;
      SentencePerException(DatabaseError);
      cs := cs0;
      var reply, applied := database.MarkProcessing(job.id, script.now, script.mark);
      RunExtends(engine, w0, h0, cs, DbReplies(applied, reply, script.now));
      cs := cs + [DbReplies(applied, reply, script.now)];
      if reply.Raised? {
        escaped, cs := Recover(d, job, reply.exc, script, w0, h0, cs);
        return;
      }
      assert script.mark.Healthy? && IsUuid(job.id) && job.id in old(database.requests) ==>
          ReadsProcessing(old(database.Contents()), database.Contents(), job.id, script.now);
      escaped, cs := Work(d, job, script, w0, h0, cs);
    }

    /** _on_message, from the first call to the last. */
    method OnMessage(d: Delivery, body: Body, script: Script) returns (escaped: bool, ghost cs: seq<Choice>)
      requires d.msg in channel.broker.messages
      requires ParseJob(body).Some? ==> HonestReply(storage, ParseJob(body).value.key, script.get)
      modifies database, channel
      ensures At(engine, old(Now()), Begin(d, body), cs, Now(),
                 Begin(d, body).(pc := if escaped then Escaped else Done))
      ensures !escaped && script.settle.Sound? ==> OneSettlement(old(channel.calls), channel.calls, d)
      ensures ParseJob(body).None? && script.settle.Sound? && Live(old(channel.broker), d) ==>
                && !escaped && channel.calls == old(channel.calls) + [NackCall(d.tag, false)]
                && Rejected(old(channel.broker), channel.broker, d)
                && database.Contents() == old(database.Contents())
      ensures ParseJob(body).Some? ==>
                ClaimEnds(d, ParseJob(body).value.id, script,
                          old(database.Contents()), old(channel.broker), old(channel.calls),
                          database.Contents(), channel.broker, channel.calls)
      // an image store that cannot be reached: one more attempt, then a failure that says so
      ensures ParseJob(body).Some? && script.mark.Healthy? && StoreUnreachable(script.get) ==>
                var id := ParseJob(body).value.id;
                IsUuid(id) && id in old(database.requests) && Live(old(channel.broker), d) ==>
                  && (!d.redelivered && script.settle.Sound? ==>
                        && channel.calls == old(channel.calls) + [NackCall(d.tag, true)]
                        && HandedBack(old(channel.broker), channel.broker, d)
                        && ReadsProcessing(old(database.Contents()), database.Contents(), id, script.now))
                  && (d.redelivered && RecordsFailures(script) ==>
                        && channel.calls == old(channel.calls) + [NackCall(d.tag, false)]
                        && Rejected(old(channel.broker), channel.broker, d)
                        && id in database.requests && database.requests[id].status == Failed
                        && database.requests[id].errorMessage == Some(Standard(StoreDown)))
    {
      ghost var w0 := Now();
      ghost var h0 := Begin(d, body);
      cs := [];
      assert At(engine, w0, h0, cs, Now(), h0);
      hide ClaimEnds, LegalRun, RunHandler;

      var parsed := ParseJob(body);
      if parsed.None? {
        var reply, applied := channel.Send(d, NackCall(d.tag, false), script.settle);
        RunExtends(engine, w0, h0, cs, BrokerReplies(applied, reply));
        cs := cs + [BrokerReplies(applied, reply)];
        return reply.Raised?, cs;
      }
      escaped, cs := Process(d, parsed.value, script, w0, h0, cs);
      if script.mark.Healthy? && StoreUnreachable(script.get)
         && IsUuid(parsed.value.id) && parsed.value.id in w0.tables.requests && Live(w0.broker, d) {
        UnreachableStoreEnds(d, parsed.value.id, script, w0.tables, w0.broker, old(channel.calls),
                             database.Contents(), channel.broker, channel.calls);
      }
    }
  }
}
