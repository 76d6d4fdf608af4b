/** The whole pipeline: any number of uploads and workers over one bucket, database and broker,
    interleaved one call at a time, with crashes and lost connections. */
module Pipeline {
  import opened Domain
  import opened Database
  import opened Broker
  import opened Services
  import opened Worker
  import opened Upload

  /** A worker process. `inbox` holds deliveries received but not yet given to the callback,
      which runs them one at a time. */
  datatype Process = Process(epoch: nat, connected: bool, inbox: set<Delivery>, handler: Option<Handler>)

  /** `foreign` (ids named by messages the backend did not publish) and `unrecorded` (messages
      dead-lettered after mark_failed raised) are history. */
  datatype State = State(
    world: World,
    uploads: map<Id, Upload>,
    workers: map<WorkerId, Process>,
    foreign: set<Id>,
    unrecorded: set<MsgId>)

  const INITIAL: State :=
    State(World(map[], Tables(map[], map[]), EMPTY), map[], map[], {}, {})

  datatype Step =
    | Arrive(id: Id, upload: Upload)      // an upload passed validation and drew its id
    | Create(id: Id, create: CreateChoice) // its handler's next call
    | BackendCrash(id: Id)
    | ForeignPublish(body: Body)
    | Connect(w: WorkerId)
    | HandOut(w: WorkerId, m: MsgId)      // the broker delivers a queued message
    | Start(w: WorkerId, d: Delivery)     // the callback is entered
    | Handle(w: WorkerId, choice: Choice) // the callback's next call
    | Close(w: WorkerId)                  // the client closes its connection
    | Crash(w: WorkerId)                  // the process dies
    | ConnLost(c: Conn)                   // the broker loses a connection; the client carries on

  function ConnOf(s: State, w: WorkerId): Conn
    requires w in s.workers
  {
    Conn(w, s.workers[w].epoch)
  }

  function JobId(body: Body): Option<Id> {
    var job := ParseJob(body);
    if job.None? then None else Some(job.value.id)
  }

  predicate Enabled(e: Engine, s: State, step: Step) {
    match step
    case Arrive(id, u) =>
      // randomUUID never repeats, and validation only passes images that have bytes
      && IsUuid(id) && id !in s.uploads && id !in s.foreign
      && u.pc == Putting && u.msg == None && u.bytes != []
    case Create(id, c) => id in s.uploads && CreateLegal(s.world, id, s.uploads[id], c)
    case BackendCrash(id) => id in s.uploads && !s.uploads[id].pc.Finished?
    case ForeignPublish(body) => JobId(body).Some? ==> JobId(body).value !in s.uploads
    case Connect(w) => w in s.workers ==> !s.workers[w].connected
    case HandOut(w, m) =>
      w in s.workers && s.workers[w].connected && ConnOf(s, w) in s.world.broker.live
      && m in s.world.broker.queue && m in s.world.broker.messages
    case Start(w, d) =>
      w in s.workers && d in s.workers[w].inbox && s.workers[w].handler.None?
      && d.msg in s.world.broker.messages
    case Handle(w, c) =>
      w in s.workers && s.workers[w].handler.Some? && Legal(e, s.world, s.workers[w].handler.value, c)
    case Close(w) =>
      w in s.workers && s.workers[w].connected
      && (s.workers[w].handler.None? || s.workers[w].handler.value.pc.Escaped?)
    case Crash(w) => w in s.workers && s.workers[w].connected
    case ConnLost(c) => c in s.world.broker.live
  }

  predicate HasStatus(s: State, id: Id, status: Status) {
    id in s.world.tables.requests && s.world.tables.requests[id].status == status
  }

  function WithBroker(s: State, b: Broker): State {
    s.(world := s.world.(broker := b))
  }

  function WithWorker(s: State, w: WorkerId, p: Process): State {
    s.(workers := s.workers[w := p])
  }

  /** The process is gone, or has let go of its connection. */
  function Gone(p: Process): Process {
    Process(p.epoch, false, {}, None)
  }

  function Apply(e: Engine, s: State, step: Step): State
    requires Enabled(e, s, step)
  {
    match step
    case Arrive(id, u) => s.(uploads := s.uploads[id := u])
    case Create(id, c) =>
      var (world, u) := CreateAdvance(s.world, id, s.uploads[id], c);
      s.(world := world, uploads := s.uploads[id := u])
    case BackendCrash(id) => s.(uploads := s.uploads[id := s.uploads[id].(pc := Finished(Crashed))])
    case ForeignPublish(body) =>
      WithBroker(s, Accept(s.world.broker, body))
      .(foreign := if JobId(body).Some? then s.foreign + {JobId(body).value} else s.foreign)
    case Connect(w) =>
      var epoch := if w in s.workers then s.workers[w].epoch + 1 else 0;
      WithWorker(WithBroker(s, Open(s.world.broker, Conn(w, epoch))), w, Process(epoch, true, {}, None))
    case HandOut(w, m) =>
      var b := s.world.broker;
      var p := s.workers[w];
      WithWorker(WithBroker(s, Deliver(b, m, ConnOf(s, w))), w,
                 p.(inbox := p.inbox + {NextDelivery(b, m, ConnOf(s, w))}))
    case Start(w, d) =>
      var p := s.workers[w];
      WithWorker(s, w, p.(inbox := p.inbox - {d}, handler := Some(Begin(d, s.world.broker.messages[d.msg].body))))
    case Handle(w, c) =>
      var h := s.workers[w].handler.value;
      var (world, h') := Advance(e, s.world, h, c);
      WithWorker(s.(world := world,
                    unrecorded := if h.pc == DeadLettering(false) && c.applied
                                  then s.unrecorded + {h.delivery.msg} else s.unrecorded),
                 w, s.workers[w].(handler := if h'.pc.Done? then None else Some(h')))
    case Close(w) => WithWorker(WithBroker(s, Drop(s.world.broker, ConnOf(s, w))), w, Gone(s.workers[w]))
    case Crash(w) => WithWorker(WithBroker(s, Drop(s.world.broker, ConnOf(s, w))), w, Gone(s.workers[w]))
    case ConnLost(c) => WithBroker(s, Drop(s.world.broker, c))
  }

  // ---- runs -------------------------------------------------------------

  ghost predicate IsRun(e: Engine, s: State, steps: seq<Step>)
    decreases |steps|
  {
    steps == [] || (Enabled(e, s, steps[0]) && IsRun(e, Apply(e, s, steps[0]), steps[1..]))
  }

  /** The state a run ends in. */
  ghost function After(e: Engine, s: State, steps: seq<Step>): State
    requires IsRun(e, s, steps)
    decreases |steps|
  {
    if steps == [] then s else After(e, Apply(e, s, steps[0]), steps[1..])
  }

  /** A run, and where it leads. */
  ghost predicate Leads(e: Engine, s: State, steps: seq<Step>, s': State) {
    IsRun(e, s, steps) && After(e, s, steps) == s'
  }

  lemma {:induction false} RunThen(e: Engine, s: State, first: seq<Step>, t: State, more: seq<Step>, u: State)
    requires Leads(e, s, first, t) && Leads(e, t, more, u)
    ensures Leads(e, s, first + more, u)
    decreases |first|
  {
    if first == [] {
      assert first + more == more;
    } else {
      assert (first + more)[1..] == first[1..] + more;
      RunThen(e, Apply(e, s, first[0]), first[1..], t, more, u);
    }
  }

  lemma OneStep(e: Engine, s: State, step: Step)
    requires Enabled(e, s, step)
    ensures Leads(e, s, [step], Apply(e, s, step))
  {
  }

  /** One more step at the end of a run. */
  lemma Extend(e: Engine, s: State, steps: seq<Step>, t: State, step: Step) returns (more: seq<Step>, u: State)
    requires Leads(e, s, steps, t) && Enabled(e, t, step)
    ensures more == steps + [step] && u == Apply(e, t, step) && Leads(e, s, more, u)
  {
    OneStep(e, t, step);
    RunThen(e, s, steps, t, [step], Apply(e, t, step));
    more, u := steps + [step], Apply(e, t, step);
  }
}
