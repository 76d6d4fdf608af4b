/** The three stateful services, as the processes between them see each other. */
module Services {
  import opened Domain
  import opened Database
  import opened Broker

  /** Everything durable: the bucket, the tables and the broker. */
  datatype World = World(bucket: map<Key, Bytes>, tables: Tables, broker: Broker)

  /** How one call over the network may go: `applied` is what happened at the other end,
      `returned` is what the caller was told. */
  datatype NetFault = Healthy | Refused | ReplyLost

  /** s3Service.ts. */
  class S3Service {
    var objects: map<Key, Bytes>

    constructor ()
      ensures objects == map[]
    {
      objects := map[];
    }

    method PutImage(key: Key, body: Bytes, fault: NetFault) returns (ok: bool, ghost applied: bool)
      modifies this
      ensures objects == if applied then old(objects)[key := body] else old(objects)
      ensures ok ==> applied
      ensures ok <==> fault.Healthy?
    {
      applied := !fault.Refused?;
      if !fault.Refused? {
        objects := objects[key := body];
      }
      ok := fault.Healthy?;
    }
  }

  /** queueService.ts: publishJob answers only after the broker confirmed. */
  class QueueService {
    var broker: Broker

    constructor (b: Broker)
      ensures broker == b
    {
      broker := b;
    }

    method PublishJob(id: Id, key: Key, contentType: string, fault: NetFault)
      returns (ok: bool, ghost accepted: bool)
      modifies this
      ensures broker == if accepted then Accept(old(broker), EncodeJob(id, key, contentType)) else old(broker)
      ensures ok ==> accepted
      ensures ok <==> fault.Healthy?
    {
      accepted := !fault.Refused?;
      if !fault.Refused? {
        broker := Accept(broker, EncodeJob(id, key, contentType));
      }
      ok := fault.Healthy?;
    }
  }
}
