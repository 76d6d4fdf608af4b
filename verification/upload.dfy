/** The backend's `create` handler: three ordered writes and the compensation for the third,
    as an interruptible machine and as the sequential request handler. */
module Upload {
  import opened Domain
  import opened Database
  import opened Broker
  import opened Services

  /** How a request handler ended; a raise is answered with a 500. */
  datatype Outcome =
    | Accepted202
    | Unavailable503
    | PutRaised
    | InsertRaised(committed: bool)
    | CompensationRaised(committed: bool)
    | Crashed

  /** The await the handler is suspended at. */
  datatype CreatePc =
    | Putting
    | Inserting
    | Publishing
    | Confirming
    | Compensating
    | Finished(outcome: Outcome)

  /** One request handler, named by the id it drew. `msg` is history: the message the broker
      accepted from it. */
  datatype Upload = Upload(
    bytes: Bytes,
    extension: string,
    contentType: string,
    originalName: string,
    pc: CreatePc,
    msg: Option<MsgId>)

  function KeyOf(id: Id, u: Upload): Key {
    BuildKey(id, u.extension)
  }

  function RowOf(id: Id, u: Upload): Row {
    FreshRow(KeyOf(id, u), u.originalName, u.contentType, |u.bytes|)
  }

  function BodyOf(id: Id, u: Upload): Body {
    EncodeJob(id, KeyOf(id, u), u.contentType)
  }

  datatype CreateChoice =
    | PutReplies(applied: bool, ok: bool)
    | SqlReplies(applied: bool, ok: bool, now: Time)
    | PublishReplies(accepted: bool)
    | ConfirmReplies(ok: bool)

  predicate CreateLegal(w: World, id: Id, u: Upload, c: CreateChoice) {
    match u.pc
    case Putting => c.PutReplies? && (c.ok ==> c.applied)
    case Inserting =>
      c.SqlReplies? && (c.ok ==> c.applied) && (c.applied ==> InsertAllowed(w.tables, id, RowOf(id, u)))
    case Publishing => c.PublishReplies?
    case Confirming => c.ConfirmReplies?
    case Compensating => c.SqlReplies? && (c.ok ==> c.applied) && (c.applied ==> IsUuid(id))
    case Finished(_) => false
  }

  function CreateAdvance(w: World, id: Id, u: Upload, c: CreateChoice): (World, Upload)
    requires CreateLegal(w, id, u, c)
  {
    match u.pc
    case Putting =>
      (if c.applied then w.(bucket := w.bucket[KeyOf(id, u) := u.bytes]) else w,
       u.(pc := if c.ok then Inserting else Finished(PutRaised)))
    case Inserting =>
      (if c.applied then w.(tables := AfterInsert(w.tables, id, RowOf(id, u))) else w,
       u.(pc := if c.ok then Publishing else Finished(InsertRaised(c.applied))))
    case Publishing =>
      if c.accepted
      then (w.(broker := Accept(w.broker, BodyOf(id, u))),
            u.(pc := Confirming, msg := Some(w.broker.nextMsg)))
      else (w, u.(pc := Compensating))
    case Confirming => (w, u.(pc := if c.ok then Finished(Accepted202) else Compensating))
    case Compensating =>
      (if c.applied then w.(tables := AfterMarkFailed(w.tables, id, Standard(NotQueued), c.now)) else w,
       u.(pc := Finished(if c.ok then Unavailable503 else CompensationRaised(c.applied))))
  }

  ghost predicate CreateRun(w: World, id: Id, u: Upload, cs: seq<CreateChoice>)
    decreases |cs|
  {
    cs == []
    || (CreateLegal(w, id, u, cs[0])
        && var (w', u') := CreateAdvance(w, id, u, cs[0]);
           CreateRun(w', id, u', cs[1..]))
  }

  ghost function RunCreate(w: World, id: Id, u: Upload, cs: seq<CreateChoice>): (World, Upload)
    requires CreateRun(w, id, u, cs)
    decreases |cs|
  {
    if cs == [] then (w, u)
    else var (w', u') := CreateAdvance(w, id, u, cs[0]);
         RunCreate(w', id, u', cs[1..])
  }

  lemma {:induction false} CreateExtends(w: World, id: Id, u: Upload, cs: seq<CreateChoice>, c: CreateChoice)
    requires CreateRun(w, id, u, cs)
    requires var (w', u') := RunCreate(w, id, u, cs); CreateLegal(w', id, u', c)
    ensures CreateRun(w, id, u, cs + [c])
    ensures RunCreate(w, id, u, cs + [c])
            == var (w', u') := RunCreate(w, id, u, cs); CreateAdvance(w', id, u', c)
    decreases |cs|
  {
    if cs == [] {
      assert (cs + [c])[1..] == [];
    } else {
      var (w1, u1) := CreateAdvance(w, id, u, cs[0]);
      assert (cs + [c])[1..] == cs[1..] + [c];
      CreateExtends(w1, id, u1, cs[1..], c);
    }
  }

  /** An uploaded file; its name has been through safeFilename. */
  datatype FilePart = FilePart(buffer: Bytes, safeName: string)
  datatype DetectedType = DetectedType(mime: string, extension: string)

  datatype Response = BadRequest400 | UnsupportedMedia415 | Accepted | Unavailable | InternalError

  function StatusOf(outcome: Outcome): Response {
    match outcome
    case Accepted202 => Accepted
    case Unavailable503 => Unavailable
    case _ => InternalError
  }

  datatype UploadScript = UploadScript(put: NetFault, insert: DbFault, publish: NetFault, fail: DbFault, now: Time)

  class InferenceController {
    const s3: S3Service
    const database: Postgres
    const queue: QueueService

    constructor (s3: S3Service, database: Postgres, queue: QueueService)
      ensures this.s3 == s3 && this.database == database && this.queue == queue
    {
      this.s3 := s3;
      this.database := database;
      this.queue := queue;
    }

    ghost function Now(): World
      reads this, s3, database, queue
    {
      World(s3.objects, database.Contents(), queue.broker)
    }

    ghost predicate At(w0: World, id: Id, u0: Upload, cs: seq<CreateChoice>, u: Upload)
      reads this, s3, database, queue
    {
      CreateRun(w0, id, u0, cs) && RunCreate(w0, id, u0, cs) == (Now(), u)
    }

    /** POST /api/inference. `file` is what multer parsed, `detected` what its bytes say, and
        `id` the UUID drawn for it. A 202 is backed by all three writes; a 503 leaves a failed row. */
    method Create(file: Option<FilePart>, detected: Option<DetectedType>, id: Id, script: UploadScript)
      returns (r: Response, ghost cs: seq<CreateChoice>)
      requires IsUuid(id)
      modifies s3, database, queue
      ensures r.BadRequest400? <==> file.None?
      ensures r.UnsupportedMedia415? <==> file.Some? && detected.None?
      ensures r.BadRequest400? || r.UnsupportedMedia415? ==> Now() == old(Now())
      ensures !r.BadRequest400? && !r.UnsupportedMedia415? ==>
                var u0 := Upload(file.value.buffer, detected.value.extension, detected.value.mime,
                                 file.value.safeName, Putting, None);
                CreateRun(old(Now()), id, u0, cs)
                && var (w, u) := RunCreate(old(Now()), id, u0, cs);
                   w == Now() && u.pc.Finished? && StatusOf(u.pc.outcome) == r
      // what is answered, by what went wrong
      ensures file.Some? && detected.Some? ==>
                var stored := script.put.Healthy? && script.insert.Healthy?
                              && id !in old(database.requests) && |file.value.buffer| > 0;
                && (r == Accepted <==> stored && script.publish.Healthy?)
                && (r == Unavailable <==> stored && !script.publish.Healthy? && script.fail.Healthy?)
                && (r == InternalError <==> !stored || (!script.publish.Healthy? && !script.fail.Healthy?))
      ensures r == Accepted ==>
                var key := BuildKey(id, detected.value.extension);
                && s3.objects == old(s3.objects)[key := file.value.buffer]
                && database.requests == old(database.requests)[id :=
                     FreshRow(key, file.value.safeName, detected.value.mime, |file.value.buffer|)]
                && queue.broker == Accept(old(queue.broker), EncodeJob(id, key, detected.value.mime))
      ensures r == Unavailable ==>
                && id in database.requests && database.requests[id].status == Failed
                && database.requests[id].errorMessage == Some(Standard(NotQueued))
    {
      cs := [];
      if file.None? {
        return BadRequest400, cs;
      }
      if detected.None? {
        return UnsupportedMedia415, cs;
      }
      var name := file.value.safeName;
      var key := BuildKey(id, detected.value.extension);
      ghost var w0 := Now();
      ghost var u0 := Upload(file.value.buffer, detected.value.extension, detected.value.mime, name, Putting, None);
      assert At(w0, id, u0, cs, u0);

      var ok, applied := s3.PutImage(key, file.value.buffer, script.put);
      CreateExtends(w0, id, u0, cs, PutReplies(applied, ok));
      cs := cs + [PutReplies(applied, ok)];
      if !ok {
        return InternalError, cs;
      }
      assert At(w0, id, u0, cs, u0.(pc := Inserting));

      var reply;
      reply, applied := database.CreateRequest(
        id, FreshRow(key, name, detected.value.mime, |file.value.buffer|), script.insert);
      CreateExtends(w0, id, u0, cs, SqlReplies(applied, reply.Returned?, script.now));
      cs := cs + [SqlReplies(applied, reply.Returned?, script.now)];
      if reply.Raised? {
        // The handler cannot know whether the INSERT committed.
        return InternalError, cs;
      }
      assert At(w0, id, u0, cs, u0.(pc := Publishing));

      ok, applied := queue.PublishJob(id, key, detected.value.mime, script.publish);
      CreateExtends(w0, id, u0, cs, PublishReplies(applied));
      cs := cs + [PublishReplies(applied)];
      ghost var u := u0.(pc := if applied then Confirming else Compensating,
                         msg := if applied then Some(w0.broker.nextMsg) else None);
      assert At(w0, id, u0, cs, u);
      if applied {
        CreateExtends(w0, id, u0, cs, ConfirmReplies(ok));
        cs := cs + [ConfirmReplies(ok)];
      }
      if ok {
        return Accepted, cs;
      }
      assert At(w0, id, u0, cs, u.(pc := Compensating));
      reply, applied := database.MarkFailed(id, Standard(NotQueued), script.now, script.fail);
      CreateExtends(w0, id, u0, cs, SqlReplies(applied, reply.Returned?, script.now));
      cs := cs + [SqlReplies(applied, reply.Returned?, script.now)];
      if reply.Raised? {
        return InternalError, cs;
      }
      return Unavailable, cs;
    }
  }
}
