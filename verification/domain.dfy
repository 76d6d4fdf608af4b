/** The values that cross a service boundary: request ids, object keys, queue bodies, and the
    exceptions the worker's calls raise. */
module Domain {
  type Id = string
  type Key = string
  type Time = nat

  newtype Byte = x: int | 0 <= x < 256
  type Bytes = seq<Byte>

  datatype Option<+T> = None | Some(value: T)

  // ---- the engine -------------------------------------------------------

  /** What a forward pass answers; its duration is recorded separately. */
  datatype Prediction = Prediction(
    predictedClass: string,
    confidence: real,
    probabilities: map<string, real>)

  /** One loaded checkpoint. `classify` is deterministic; None stands for InvalidImage. */
  datatype Engine = Engine(
    classify: Bytes -> Option<Prediction>,
    arch: string,
    valAcc: Option<real>)

  // ---- ids and object keys ----------------------------------------------

  predicate HexDigit(c: char) {
    '0' <= c <= '9' || 'a' <= c <= 'f' || 'A' <= c <= 'F'
  }

  predicate IsUuid(s: string) {
    && |s| == 36
    && forall i | 0 <= i < 36 ::
         if i == 8 || i == 13 || i == 18 || i == 23 then s[i] == '-' else HexDigit(s[i])
  }

  function BuildKey(id: Id, extension: string): Key {
    "uploads/" + id + "." + extension
  }

  /** Uploads with different ids never share an object, whatever their extensions. */
  lemma KeyIdentifiesUpload(a: Id, x: string, b: Id, y: string)
    requires IsUuid(a) && IsUuid(b)
    ensures BuildKey(a, x) == BuildKey(b, y) <==> a == b && x == y
  {
    if BuildKey(a, x) == BuildKey(b, y) {
      assert BuildKey(a, x)[8..44] == a && BuildKey(b, y)[8..44] == b;
      assert BuildKey(a, x)[45..] == x && BuildKey(b, y)[45..] == y;
    }
  }

  /** The fixed width of a UUID is what makes the key injective: free-form ids collide. */
  lemma FreeFormIdsShareKeys()
    ensures exists a, x, b, y :: a != b && BuildKey(a, x) == BuildKey(b, y)
  {
    assert BuildKey("a", "b.c") == "uploads/a.b.c" == BuildKey("a.b", "c");
  }

  // ---- queue bodies -----------------------------------------------------

  datatype Json =
    | JNull
    | JBool(b: bool)
    | JNumber(n: real)
    | JString(s: string)
    | JArray(items: seq<Json>)
    | JObject(fields: map<string, Json>)

  datatype Body = NotJson | Document(json: Json)

  datatype Job = Job(id: Id, key: Key)

  /** `payload.get(name)`, kept only when it is a non-empty string. */
  function TextField(fields: map<string, Json>, name: string): Option<string> {
    if name in fields && fields[name].JString? && fields[name].s != ""
    then Some(fields[name].s)
    else None
  }

  /** parse_job; None stands for MalformedJob. */
  function ParseJob(body: Body): Option<Job> {
    if body.NotJson? || !body.json.JObject? then None
    else
      var id := TextField(body.json.fields, "requestId");
      var key := TextField(body.json.fields, "imageKey");
      if id.None? || key.None? then None else Some(Job(id.value, key.value))
  }

  /** The body publishJob serialises. */
  function EncodeJob(id: Id, key: Key, contentType: string): Body {
    Document(JObject(map["requestId" := JString(id),
                         "imageKey" := JString(key),
                         "contentType" := JString(contentType)]))
  }

  /** What the backend publishes is what the worker reads; only empty fields are lost. */
  lemma PublishedJobParses(id: Id, key: Key, contentType: string)
    ensures ParseJob(EncodeJob(id, key, contentType))
            == if id != "" && key != "" then Some(Job(id, key)) else None
  {
  }

  /** The body carries the three named fields and nothing else. */
  lemma PublishedFields(id: Id, key: Key, contentType: string)
    ensures var body := EncodeJob(id, key, contentType);
            && body.Document? && body.json.JObject?
            && body.json.fields.Keys == {"requestId", "imageKey", "contentType"}
            && body.json.fields["requestId"] == JString(id)
            && body.json.fields["imageKey"] == JString(key)
            && body.json.fields["contentType"] == JString(contentType)
  {
    assert |"requestId"| == 9 && |"imageKey"| == 8 && |"contentType"| == 11;
  }

  /** A body is accepted exactly when it is an object that holds a non-empty string under both names,
      and then the job is those two strings. */
  lemma MalformedExactly(body: Body)
    ensures ParseJob(body).Some? <==>
              && body.Document? && body.json.JObject?
              && (var fields := body.json.fields;
                  && "requestId" in fields && fields["requestId"].JString? && fields["requestId"].s != ""
                  && "imageKey" in fields && fields["imageKey"].JString? && fields["imageKey"].s != "")
    ensures ParseJob(body).Some? ==>
              && body.json.fields["requestId"] == JString(ParseJob(body).value.id)
              && body.json.fields["imageKey"] == JString(ParseJob(body).value.key)
  {
    if body.Document? && body.json.JObject? {
      var fields := body.json.fields;
      assert TextField(fields, "requestId").Some?
        <==> "requestId" in fields && fields["requestId"].JString? && fields["requestId"].s != "";
    }
  }

  // ---- exceptions -------------------------------------------------------

  datatype Exc =
    | InvalidImage
    | ObjectNotFound
    | RequestNotFound
    | StorageError
    | DatabaseError
    | OtherException

  /** How a call into a dependency ended. */
  datatype Reply = Returned | Raised(exc: Exc)

  /** isinstance: ObjectNotFound subclasses StorageError. */
  predicate IsA(e: Exc, c: Exc) {
    e == c || (e == ObjectNotFound && c == StorageError)
  }

  const PERMANENT: seq<Exc> := [InvalidImage, ObjectNotFound, RequestNotFound]
  const TRANSIENT: seq<Exc> := [StorageError, DatabaseError]

  predicate Catches(clause: seq<Exc>, e: Exc) {
    exists c | c in clause :: IsA(e, c)
  }

  /** Python tries except clauses in order; the catch-all follows the listed ones. */
  function FirstClause(clauses: seq<seq<Exc>>, e: Exc): (k: nat)
    ensures k <= |clauses|
    ensures k < |clauses| ==> Catches(clauses[k], e)
    ensures forall j | 0 <= j < k :: !Catches(clauses[j], e)
  {
    if clauses == [] then 0
    else if Catches(clauses[0], e) then 0
    else 1 + FirstClause(clauses[1..], e)
  }

  /** A dependency blinked, and this is the first attempt: the delivery is handed back. */
  predicate Retries(e: Exc, redelivered: bool) {
    (e == StorageError || e == DatabaseError) && !redelivered
  }

  /** The except chain of _on_message, in its order, retries exactly those exceptions. */
  lemma ClausesRetryExactly(e: Exc, redelivered: bool)
    ensures FirstClause([PERMANENT, TRANSIENT], e) == 1 && !redelivered <==> Retries(e, redelivered)
    ensures Catches(PERMANENT, e) <==> e == InvalidImage || e == ObjectNotFound || e == RequestNotFound
    ensures Catches(TRANSIENT, e) <==> e == StorageError || e == DatabaseError || e == ObjectNotFound
  {
    assert Catches(TRANSIENT, e) <==> IsA(e, TRANSIENT[0]) || IsA(e, TRANSIENT[1]);
    assert Catches(PERMANENT, e)
      <==> IsA(e, PERMANENT[0]) || IsA(e, PERMANENT[1]) || IsA(e, PERMANENT[2]);
    assert [PERMANENT, TRANSIENT][0] == PERMANENT && [PERMANENT, TRANSIENT][1] == TRANSIENT;
  }

  /** The clause order is load-bearing: the other order retries one exception it must not. */
  lemma SwappedClausesMisroute(e: Exc)
    ensures FirstClause([TRANSIENT, PERMANENT], e) == 0 && FirstClause([PERMANENT, TRANSIENT], e) != 1
            <==> e == ObjectNotFound
  {
    ClausesRetryExactly(e, false);
    assert [TRANSIENT, PERMANENT][0] == TRANSIENT && [PERMANENT, TRANSIENT][0] == PERMANENT;
  }

  // ---- stored sentences -------------------------------------------------

  const MAX_ERROR_LENGTH: nat := 1000

  /** The sentences the two services ever store in error_message. */
  datatype Sentence =
    | Undecodable
    | ObjectGone
    | RowGone
    | StoreDown
    | DatabaseDown
    | Unexpected
    | NotQueued

  /** The stored text: the first six are the worker's, the last is the backend's. */
  function Text(s: Sentence): (text: string)
    ensures text != ""
  {
    match s
    case Undecodable =>
      "The image could not be decoded. It may be truncated, or saved in a format the model cannot read."
    case ObjectGone => "The uploaded image is no longer in storage."
    case RowGone => "The record for this request no longer exists."
    case StoreDown => "The image store could not be reached. Please try again."
    case DatabaseDown => "The database could not be reached. Please try again."
    case Unexpected => "The prediction failed unexpectedly. The worker log has the details."
    case NotQueued => "The job could not be queued for inference."
  }

  /** user_message: isinstance tests in the source's order. */
  function UserMessage(e: Exc): Sentence {
    if IsA(e, InvalidImage) then Undecodable
    else if IsA(e, ObjectNotFound) then ObjectGone
    else if IsA(e, RequestNotFound) then RowGone
    else if IsA(e, StorageError) then StoreDown
    else if IsA(e, DatabaseError) then DatabaseDown
    else Unexpected
  }

  /** Which sentence is stored for which exception. */
  lemma SentencePerException(e: Exc)
    ensures UserMessage(e) == Undecodable <==> e == InvalidImage
    ensures UserMessage(e) == ObjectGone <==> e == ObjectNotFound
    ensures UserMessage(e) == RowGone <==> e == RequestNotFound
    ensures UserMessage(e) == StoreDown <==> e == StorageError
    ensures UserMessage(e) == DatabaseDown <==> e == DatabaseError
    ensures UserMessage(e) == Unexpected <==> e == OtherException
  {
    hide Text;
  }

  /** What a person reads for each sentence. */
  lemma ImageTexts()
    ensures Text(Undecodable) ==
            "The image could not be decoded. It may be truncated, or saved in a format the model cannot read."
    ensures Text(ObjectGone) == "The uploaded image is no longer in storage."
  {
  }

  lemma JobTexts()
    ensures Text(RowGone) == "The record for this request no longer exists."
    ensures Text(NotQueued) == "The job could not be queued for inference."
    ensures Text(Unexpected) == "The prediction failed unexpectedly. The worker log has the details."
  {
  }

  lemma ServiceTexts()
    ensures Text(StoreDown) == "The image store could not be reached. Please try again."
    ensures Text(DatabaseDown) == "The database could not be reached. Please try again."
  {
  }

  /** Python's message[:1000]. */
  function Clip(message: string): (m: string)
    ensures m <= message && |m| <= MAX_ERROR_LENGTH
    ensures |m| == MAX_ERROR_LENGTH || m == message
  {
    if |message| <= MAX_ERROR_LENGTH then message else message[..MAX_ERROR_LENGTH]
  }

  /** A text for error_message: one of the known sentences, or anything else. */
  datatype ErrorText = Standard(sentence: Sentence) | Free(text: string)

  function Rendered(m: ErrorText): string {
    match m
    case Standard(s) => Text(s)
    case Free(text) => text
  }

  /** What is left of a message once it is cut for the column. */
  function Clipped(m: ErrorText): ErrorText {
    match m
    case Standard(_) => m
    case Free(text) => Free(Clip(text))
  }

  lemma ImageSentencesFit(s: Sentence)
    requires s.Undecodable? || s.ObjectGone?
    ensures 0 < |Text(s)| <= MAX_ERROR_LENGTH
  {
  }

  lemma JobSentencesFit(s: Sentence)
    requires s.RowGone? || s.NotQueued?
    ensures 0 < |Text(s)| <= MAX_ERROR_LENGTH
  {
  }

  lemma ServiceSentencesFit(s: Sentence)
    requires s.StoreDown? || s.DatabaseDown? || s.Unexpected?
    ensures 0 < |Text(s)| <= MAX_ERROR_LENGTH
  {
  }

  /** No stored sentence is cut: what mark_failed writes is the whole text. */
  lemma SentencesAreNeverCut(s: Sentence)
    ensures Clip(Text(s)) == Text(s) && 0 < |Text(s)| <= MAX_ERROR_LENGTH
  {
    if s.StoreDown? || s.DatabaseDown? || s.Unexpected? {
      ServiceSentencesFit(s);
    } else if s.RowGone? || s.NotQueued? {
      JobSentencesFit(s);
    } else {
      ImageSentencesFit(s);
    }
  }

  /** The column holds the first 1000 characters of every message, known or not. */
  lemma ColumnHoldsTheClip(m: ErrorText)
    ensures Rendered(Clipped(m)) == Clip(Rendered(m)) && |Rendered(Clipped(m))| <= MAX_ERROR_LENGTH
  {
    if m.Standard? {
      hide Text;
      SentencesAreNeverCut(m.sentence);
    }
  }

  // ---- the object store -------------------------------------------------

  /** What boto3 hands back for a GET. */
  datatype S3Reply = Content(bytes: Bytes) | ClientError(code: string) | BotoCoreError | OtherFault

  datatype Fetch = Fetched(bytes: Bytes) | FetchRaised(exc: Exc)

  predicate NotFoundCode(code: string) {
    code == "NoSuchKey" || code == "404" || code == "NoSuchBucket"
  }

  /** ObjectStorage.download's classification of the reply. */
  function Download(reply: S3Reply): Fetch {
    match reply
    case Content(bytes) => Fetched(bytes)
    case ClientError(code) =>
      if NotFoundCode(code) then FetchRaised(ObjectNotFound) else FetchRaised(StorageError)
    case BotoCoreError => FetchRaised(StorageError)
    case OtherFault => FetchRaised(OtherException)
  }

  /** The split that decides between giving up and trying again, for every reply. */
  lemma DownloadSplits(reply: S3Reply)
    ensures Download(reply) == FetchRaised(ObjectNotFound) <==>
              reply.ClientError? && (reply.code == "NoSuchKey" || reply.code == "404" || reply.code == "NoSuchBucket")
    ensures Download(reply) == FetchRaised(StorageError) <==>
              || reply.BotoCoreError?
              || (reply.ClientError?
                  && reply.code != "NoSuchKey" && reply.code != "404" && reply.code != "NoSuchBucket")
    ensures Download(reply).Fetched? <==> reply.Content?
    ensures reply.Content? ==> Download(reply).bytes == reply.bytes
    ensures Download(reply) == FetchRaised(OtherException) <==> reply.OtherFault?
  {
  }

  /** A store that tells the truth: content only for stored keys, "not found" only for absent ones. */
  predicate HonestReply(bucket: map<Key, Bytes>, key: Key, reply: S3Reply) {
    && (reply.Content? ==> key in bucket && reply.bytes == bucket[key])
    && (reply.ClientError? && NotFoundCode(reply.code) ==> key !in bucket)
  }
}
