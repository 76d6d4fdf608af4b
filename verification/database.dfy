/** The two Postgres tables: every statement either service issues, and what a reader sees. */
module Database {
  import opened Domain

  datatype Status = Pending | Processing | Completed | Failed

  predicate Terminal(status: Status) {
    status == Completed || status == Failed
  }

  datatype Row = Row(
    imageKey: Key,
    originalName: string,
    contentType: string,
    sizeBytes: int,
    status: Status,
    errorMessage: Option<ErrorText>,
    startedAt: Option<Time>,
    completedAt: Option<Time>)

  datatype ResultRow = ResultRow(
    prediction: Prediction,
    modelArch: string,
    modelValAcc: Option<real>,
    durationMs: int)

  datatype Tables = Tables(requests: map<Id, Row>, results: map<Id, ResultRow>)

  function FreshRow(key: Key, name: string, contentType: string, size: int): Row {
    Row(key, name, contentType, size, Pending, None, None, None)
  }

  /** What an upload was described as when its row was inserted. */
  predicate SameUpload(r: Row, r': Row) {
    && r'.imageKey == r.imageKey && r'.originalName == r.originalName
    && r'.contentType == r.contentType && r'.sizeBytes == r.sizeBytes
  }

  // ---- statements -------------------------------------------------------

  function AfterInsert(t: Tables, id: Id, row: Row): Tables {
    t.(requests := t.requests[id := row])
  }

  /** The INSERT's constraints: a UUID, a new primary key, CHECK (size_bytes > 0). */
  predicate InsertAllowed(t: Tables, id: Id, row: Row) {
    IsUuid(id) && id !in t.requests && row.sizeBytes > 0
  }

  function AfterMarkProcessing(t: Tables, id: Id, now: Time): Tables {
    if id in t.requests
    then t.(requests := t.requests[id := t.requests[id].(status := Processing, startedAt := Some(now))])
    else t
  }

  function AfterMarkFailed(t: Tables, id: Id, message: ErrorText, now: Time): Tables {
    if id in t.requests
    then t.(requests := t.requests[id :=
             t.requests[id].(status := Failed, errorMessage := Some(Clipped(message)), completedAt := Some(now))])
    else t
  }

  function AfterSaveSuccess(t: Tables, id: Id, result: ResultRow, now: Time): Tables {
    if id in t.requests
    then Tables(
           t.requests[id := t.requests[id].(status := Completed, completedAt := Some(now), errorMessage := None)],
           t.results[id := result])
    else t
  }

  /** The upsert's constraints: the foreign key and the two CHECKs on inference_results. */
  predicate SaveAllowed(t: Tables, id: Id, result: ResultRow) {
    id in t.requests && 0.0 <= result.prediction.confidence <= 1.0 && result.durationMs >= 0
  }

  // ---- the read side ----------------------------------------------------

  datatype JobDto = JobDto(
    requestId: Id,
    status: Status,
    originalName: string,
    contentType: string,
    sizeBytes: int,
    startedAt: Option<Time>,
    completedAt: Option<Time>,
    errorMessage: Option<ErrorText>,
    prediction: Option<ResultRow>)

  /** findRequest: the LEFT JOIN of the two tables, then toJobDto. */
  function FindRequest(t: Tables, id: Id): Option<JobDto> {
    if id !in t.requests then None
    else
      var row := t.requests[id];
      Some(JobDto(id, row.status, row.originalName, row.contentType, row.sizeBytes,
                  row.startedAt, row.completedAt, row.errorMessage,
                  if id in t.results then Some(t.results[id]) else None))
  }

  // ---- row shape --------------------------------------------------------

  /** What the columns of a row say at each status; `answered` is "a result row exists". */
  predicate RowShape(row: Row, answered: bool) {
    match row.status
    case Pending =>
      row.startedAt.None? && row.completedAt.None? && row.errorMessage.None? && !answered
    case Processing => row.startedAt.Some?
    case Completed =>
      answered && row.startedAt.Some? && row.completedAt.Some? && row.errorMessage.None?
    case Failed => row.completedAt.Some? && row.errorMessage.Some? && row.errorMessage.value.Standard?
  }

  // ---- comments the statements do not keep unconditionally ---------------

  /** "Non-null only once status is completed", as the reader of one id sees it. */
  predicate PredictionOnlyWhenCompleted(t: Tables, id: Id) {
    var dto := FindRequest(t, id);
    dto.Some? && dto.value.prediction.Some? ==> dto.value.status == Completed
  }

  /** "Populated only when status = 'failed'." */
  predicate ErrorOnlyWhenFailed(t: Tables, id: Id) {
    id in t.requests && t.requests[id].errorMessage.Some? ==> t.requests[id].status == Failed
  }

  /** A second save of the same prediction (a redelivery) leaves the reader's answer as it was,
      up to the recorded duration and completion time. */
  lemma RepeatedSaveIsHarmless(t: Tables, id: Id, first: ResultRow, again: ResultRow, a: Time, b: Time, c: Time)
    requires id in t.requests && first.prediction == again.prediction
    requires first.modelArch == again.modelArch && first.modelValAcc == again.modelValAcc
    ensures
      var once := FindRequest(AfterSaveSuccess(t, id, first, a), id);
      var claimed := AfterMarkProcessing(AfterSaveSuccess(t, id, first, a), id, b);
      var twice := FindRequest(AfterSaveSuccess(claimed, id, again, c), id);
      && once.Some? && twice.Some? && once.value.prediction.Some?
      && twice.value == once.value.(startedAt := Some(b), completedAt := Some(c),
                                    prediction := Some(once.value.prediction.value.(durationMs := again.durationMs)))
  {
  }

  /** How Postgres, or the network in front of it, may treat one call. */
  datatype DbFault = Healthy | Unreachable | ReplyLost | Broken(applied: bool)

  /** What each call may do: whether its transaction committed, and how it ended. */
  predicate MarkProcessingOutcome(t: Tables, id: Id, applied: bool, reply: Reply) {
    && (applied ==> IsUuid(id) && id in t.requests)
    && (reply.Returned? ==> applied)
    && (reply.Raised? ==> reply.exc == DatabaseError || reply.exc == OtherException || reply.exc == RequestNotFound)
    && (reply == Raised(RequestNotFound) ==> !applied && IsUuid(id) && id !in t.requests)
  }

  predicate SaveSuccessOutcome(t: Tables, id: Id, result: ResultRow, applied: bool, reply: Reply) {
    && (applied ==> SaveAllowed(t, id, result))
    && (reply.Returned? ==> applied)
    && (reply.Raised? ==> reply.exc == DatabaseError || reply.exc == OtherException)
  }

  predicate MarkFailedOutcome(id: Id, applied: bool, reply: Reply) {
    && (applied ==> IsUuid(id))
    && (reply.Returned? ==> applied)
    && (reply.Raised? ==> reply.exc == DatabaseError || reply.exc == OtherException)
  }

  /** The tables as the services' connections see them: one method per statement. */
  class Postgres {
    var requests: map<Id, Row>
    var results: map<Id, ResultRow>

    ghost function Contents(): Tables
      reads this
    {
      Tables(requests, results)
    }

    constructor ()
      ensures Contents() == Tables(map[], map[])
    {
      requests, results := map[], map[];
    }

    /** Commits a finished transaction, or fails to say whether it did. */
    method Commit(draft: map<Id, Row>, draftResults: map<Id, ResultRow>, fault: DbFault)
      returns (reply: Reply, ghost applied: bool)
      requires !fault.Unreachable?
      modifies this
      ensures Contents() == if applied then Tables(draft, draftResults) else old(Contents())
      ensures reply.Returned? ==> applied
      ensures fault.Healthy? <==> reply.Returned?
      ensures fault.ReplyLost? ==> applied && reply == Raised(DatabaseError)
      ensures fault.Broken? ==> applied == fault.applied && reply == Raised(OtherException)
    {
      applied := !fault.Broken? || fault.applied;
      if !fault.Broken? || fault.applied {
        requests, results := draft, draftResults;
      }
      match fault
      case Healthy => reply := Returned;
      case ReplyLost => reply := Raised(DatabaseError);
      case Broken(_) => reply := Raised(OtherException);
    }

    /** database.py: mark_processing. */
    method MarkProcessing(id: Id, now: Time, fault: DbFault) returns (reply: Reply, ghost applied: bool)
      modifies this
      ensures MarkProcessingOutcome(old(Contents()), id, applied, reply)
      ensures !fault.Broken? ==> reply != Raised(OtherException)
      ensures Contents() == if applied then AfterMarkProcessing(old(Contents()), id, now) else old(Contents())
      ensures fault.Healthy? && IsUuid(id) ==>
                reply == if id in old(requests) then Returned else Raised(RequestNotFound)
      ensures !IsUuid(id) ==> reply == Raised(DatabaseError)
      ensures fault.Unreachable? ==> !applied && reply == Raised(DatabaseError)
      ensures fault.ReplyLost? && IsUuid(id) && id in old(requests) ==> applied && reply == Raised(DatabaseError)
    {
      applied := false;
      if fault.Unreachable? || !IsUuid(id) {
        return Raised(DatabaseError), false;
      }
      if id !in requests {
        return Raised(if fault.Broken? then OtherException else RequestNotFound), false;
      }
      var draft := requests[id := requests[id].(status := Processing, startedAt := Some(now))];
      reply, applied := Commit(draft, results, fault);
    }

    /** database.py: save_success, both statements in one transaction. */
    method SaveSuccess(id: Id, result: ResultRow, now: Time, fault: DbFault)
      returns (reply: Reply, ghost applied: bool)
      modifies this
      ensures SaveSuccessOutcome(old(Contents()), id, result, applied, reply)
      ensures !fault.Broken? ==> reply != Raised(OtherException)
      ensures Contents() == if applied then AfterSaveSuccess(old(Contents()), id, result, now) else old(Contents())
      ensures fault.Healthy? ==> (reply.Returned? <==> SaveAllowed(old(Contents()), id, result))
      ensures fault.Unreachable? ==> !applied && reply == Raised(DatabaseError)
      ensures fault.ReplyLost? && SaveAllowed(old(Contents()), id, result) ==> applied && reply == Raised(DatabaseError)
    {
      applied := false;
      if fault.Unreachable? || id !in requests
         || !(0.0 <= result.prediction.confidence <= 1.0) || result.durationMs < 0 {
        return Raised(DatabaseError), false;
      }
      var draftResults := results[id := result];
      var draft := requests[id :=
        requests[id].(status := Completed, completedAt := Some(now), errorMessage := None)];
      reply, applied := Commit(draft, draftResults, fault);
    }

    /** database.py: mark_failed, which cuts the message. databaseService.ts: markFailed does not, and
        stores one sentence that needs no cutting. A missing row is no error. */
    method MarkFailed(id: Id, message: ErrorText, now: Time, fault: DbFault)
      returns (reply: Reply, ghost applied: bool)
      modifies this
      ensures MarkFailedOutcome(id, applied, reply)
      ensures !fault.Broken? ==> reply != Raised(OtherException)
      ensures Contents()
              == if applied then AfterMarkFailed(old(Contents()), id, message, now) else old(Contents())
      ensures reply.Returned? <==> fault.Healthy? && IsUuid(id)
      ensures fault.Unreachable? ==> !applied && reply == Raised(DatabaseError)
      ensures fault.ReplyLost? && IsUuid(id) ==> applied && reply == Raised(DatabaseError)
      ensures applied && id in requests ==>
                requests[id].errorMessage.Some?
                && Rendered(requests[id].errorMessage.value) == Clip(Rendered(message))
    {
      hide Text;
      ColumnHoldsTheClip(message);
      applied := false;
      if fault.Unreachable? || !IsUuid(id) {
        return Raised(DatabaseError), false;
      }
      var cut := Clipped(message);
      var draft := if id in requests
                   then requests[id :=
                     requests[id].(status := Failed, errorMessage := Some(cut), completedAt := Some(now))]
                   else requests;
      reply, applied := Commit(draft, results, fault);
    }

    /** databaseService.ts: createRequest. */
    method CreateRequest(id: Id, row: Row, fault: DbFault) returns (reply: Reply, ghost applied: bool)
      modifies this
      ensures applied ==> InsertAllowed(old(Contents()), id, row)
      ensures Contents() == if applied then AfterInsert(old(Contents()), id, row) else old(Contents())
      ensures reply.Returned? ==> applied
      ensures reply.Returned? <==> fault.Healthy? && IsUuid(id) && id !in old(requests) && row.sizeBytes > 0
      ensures fault.ReplyLost? && InsertAllowed(old(Contents()), id, row) ==> applied
    {
      applied := false;
      if fault.Unreachable? || !IsUuid(id) || id in requests || row.sizeBytes <= 0 {
        return Raised(DatabaseError), false;
      }
      reply, applied := Commit(requests[id := row], results, fault);
    }
  }
}
