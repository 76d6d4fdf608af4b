/** Runs in which workers may die at any moment but a connection never fails a live process:
    one handler per message, finality, and settlements that tell the truth about the row. */
module Orderly {
  import opened Domain
  import opened Broker
  import opened Services
  import opened Worker
  import opened Upload
  import opened Pipeline
  import opened Safety

  /** Crashes are allowed anywhere; a settlement on a live connection takes effect and returns. */
  predicate OrderlyStep(step: Step) {
    && !step.ConnLost?
    && (step.Handle? && step.choice.BrokerReplies? ==> step.choice.applied && step.choice.reply.Returned?)
  }

  ghost predicate OrderlyRun(steps: seq<Step>) {
    forall i | 0 <= i < |steps| :: OrderlyStep(steps[i])
  }

  /** The deliveries a process is responsible for. */
  function Held(p: Process): set<Delivery> {
    p.inbox + (if p.handler.Some? then {p.handler.value.delivery} else {})
  }

  predicate ProcessAttends(s: State, w: WorkerId)
    requires w in s.workers
  {
    var p := s.workers[w];
    && (p.connected ==> ConnOf(s, w) in s.world.broker.live)
    && (!p.connected ==> p.inbox == {} && p.handler == None)
    && (p.handler.Some? ==> p.handler.value.delivery !in p.inbox && !p.handler.value.pc.Done?)
    && (forall d | d in Held(p) :: d.conn == ConnOf(s, w) && Live(s.world.broker, d))
  }

  predicate Attended(s: State, m: MsgId)
    requires m in s.world.broker.unacked
  {
    var d := s.world.broker.unacked[m];
    && d.conn.worker in s.workers
    && d in Held(s.workers[d.conn.worker])
  }

  /** Unanswered deliveries and the processes holding them correspond one to one. */
  ghost predicate AllAttended(s: State) {
    && (forall w | w in s.workers :: ProcessAttends(s, w))
    && (forall m | m in s.world.broker.unacked :: Attended(s, m))
  }

  lemma OneHandlerPerMessage(s: State, v: WorkerId, w: WorkerId)
    requires AllAttended(s) && v in s.workers && w in s.workers
    requires s.workers[v].handler.Some? && s.workers[w].handler.Some?
    requires s.workers[v].handler.value.delivery.msg == s.workers[w].handler.value.delivery.msg
    ensures v == w
  {
  }

  /** A process that is untouched keeps its deliveries if the broker keeps them. */
  lemma UntouchedAttends(s: State, s': State, w: WorkerId)
    requires w in s.workers && w in s'.workers && s'.workers[w] == s.workers[w] && ProcessAttends(s, w)
    requires ConnOf(s, w) in s.world.broker.live ==> ConnOf(s, w) in s'.world.broker.live
    requires forall d: Delivery | d.conn == ConnOf(s, w) && Live(s.world.broker, d) :: Live(s'.world.broker, d)
    ensures ProcessAttends(s', w)
  {
  }

  lemma SameBrokerAttends(s: State, s': State)
    requires AllAttended(s) && s'.world.broker == s.world.broker && s'.workers == s.workers
    ensures AllAttended(s')
  {
  }

  lemma AcceptAttends(s: State, s': State, body: Body)
    requires AllAttended(s) && s'.world.broker == Accept(s.world.broker, body) && s'.workers == s.workers
    ensures AllAttended(s')
  {
  }

  lemma ConnectAttends(e: Engine, s: State, w: WorkerId)
    requires AllAttended(s) && Enabled(e, s, Connect(w))
    ensures AllAttended(Apply(e, s, Connect(w)))
  {
    var s' := Apply(e, s, Connect(w));
    forall x | x in s'.workers ensures ProcessAttends(s', x) {
      if x != w { UntouchedAttends(s, s', x); }
    }
    forall m | m in s'.world.broker.unacked ensures Attended(s', m) {
      assert Attended(s, m);
      assert w in s.workers ==> ProcessAttends(s, w);
    }
  }

  lemma HandOutProcess(e: Engine, s: State, s': State, w: WorkerId, m: MsgId)
    requires w in s.workers && ProcessAttends(s, w) && Enabled(e, s, HandOut(w, m))
    requires s' == Apply(e, s, HandOut(w, m)) && m !in s.world.broker.unacked
    ensures Held(s'.workers[w]) == Held(s.workers[w]) + {NextDelivery(s.world.broker, m, ConnOf(s, w))}
    ensures ProcessAttends(s', w)
  {
  }

  lemma HandOutAttends(e: Engine, s: State, w: WorkerId, m: MsgId)
    requires AllAttended(s) && Enabled(e, s, HandOut(w, m)) && m !in s.world.broker.unacked
    ensures AllAttended(Apply(e, s, HandOut(w, m)))
  {
    var s' := Apply(e, s, HandOut(w, m));
    HandOutProcess(e, s, s', w, m);
    forall x | x in s'.workers ensures ProcessAttends(s', x) {
      if x != w { UntouchedAttends(s, s', x); }
    }
    forall n | n in s'.world.broker.unacked ensures Attended(s', n) {
      if n != m { assert Attended(s, n); }
    }
  }

  lemma StartAttends(e: Engine, s: State, w: WorkerId, d: Delivery)
    requires AllAttended(s) && Enabled(e, s, Start(w, d))
    ensures AllAttended(Apply(e, s, Start(w, d)))
  {
    var s' := Apply(e, s, Start(w, d));
    assert ProcessAttends(s, w);
    assert Held(s'.workers[w]) == Held(s.workers[w]);
    forall x | x in s'.workers ensures ProcessAttends(s', x) {
      if x != w { UntouchedAttends(s, s', x); }
    }
    forall n | n in s'.world.broker.unacked ensures Attended(s', n) { assert Attended(s, n); }
  }

  lemma DropAttends(s: State, s': State, w: WorkerId)
    requires AllAttended(s) && w in s.workers && BrokerOk(s.world.broker)
    requires s'.world.broker == Drop(s.world.broker, ConnOf(s, w))
    requires s'.workers == s.workers[w := Gone(s.workers[w])]
    ensures AllAttended(s')
  {
    forall x | x in s'.workers ensures ProcessAttends(s', x) {
      if x != w { UntouchedAttends(s, s', x); }
    }
    forall n | n in s'.world.broker.unacked ensures Attended(s', n) {
      assert Attended(s, n);
      var d := s.world.broker.unacked[n];
      assert ProcessAttends(s, d.conn.worker);
    }
  }

  /** An answered delivery leaves its process and the broker together. */
  lemma AnswerAttends(s: State, s': State, w: WorkerId)
    requires AllAttended(s) && w in s.workers && s.workers[w].handler.Some?
    requires forall m | m in s.world.broker.unacked :: s.world.broker.unacked[m].msg == m
    requires s'.world.broker.unacked == s.world.broker.unacked - {s.workers[w].handler.value.delivery.msg}
    requires s'.world.broker.live == s.world.broker.live
    requires s'.workers == s.workers[w := s.workers[w].(handler := None)]
    ensures AllAttended(s')
  {
    var p, p' := s.workers[w], s'.workers[w];
    var d := p.handler.value.delivery;
    var b, b' := s.world.broker, s'.world.broker;
    assert ProcessAttends(s, w) && d in Held(p);
    forall x | x in s'.workers ensures ProcessAttends(s', x) {
      assert ProcessAttends(s, x);
      forall y | y in Held(s'.workers[x]) ensures y.conn == ConnOf(s', x) && Live(b', y) {
        assert y in Held(s.workers[x]);
        assert y.msg == d.msg ==> y == d;
      }
    }
    forall n | n in b'.unacked ensures Attended(s', n) {
      assert Attended(s, n);
    }
  }

  lemma SettleAttends(e: Engine, s: State, s': State, w: WorkerId, c: Choice)
    requires BrokerOk(s.world.broker) && AllAttended(s) && Handled(e, s, s', w, c)
    requires Settling(s.workers[w].handler.value.pc) && c.applied && c.reply.Returned?
    ensures AllAttended(s')
  {
    forall m | m in s.world.broker.unacked ensures s.world.broker.unacked[m].msg == m {
      assert DeliveryOk(s.world.broker, m);
    }
    AnswerAttends(s, s', w);
  }

  lemma CallAttends(e: Engine, s: State, s': State, w: WorkerId, c: Choice)
    requires AllAttended(s) && Handled(e, s, s', w, c)
    requires !Settling(s.workers[w].handler.value.pc)
    requires s'.world.broker == s.world.broker && s'.workers[w].handler.Some?
    ensures AllAttended(s')
  {
  }

  /** Calls that do not settle leave the broker alone and the handler in place. */
  lemma CallStays(e: Engine, w: World, h: Handler, c: Choice)
    requires Legal(e, w, h, c) && !Settling(h.pc)
    ensures Effect(w, h, c).broker == w.broker && !NextPc(e, h, c).Done?
  {
  }

  lemma StepAttends(e: Engine, s: State, step: Step)
    requires BrokerOk(s.world.broker) && AllAttended(s) && Enabled(e, s, step) && OrderlyStep(step)
    ensures AllAttended(Apply(e, s, step))
  {
    var s' := Apply(e, s, step);
    match step
    case Arrive(_, _) => SameBrokerAttends(s, s');
    case BackendCrash(_) => SameBrokerAttends(s, s');
    case Create(id, c) =>
      if s.uploads[id].pc.Publishing? && c.accepted {
        AcceptAttends(s, s', BodyOf(id, s.uploads[id]));
      } else {
        SameBrokerAttends(s, s');
      }
    case ForeignPublish(body) => AcceptAttends(s, s', body);
    case Connect(w) => ConnectAttends(e, s, w);
    case HandOut(w, m) =>
      assert Conserved(s.world.broker, m);
      HandOutAttends(e, s, w, m);
    case Start(w, d) => StartAttends(e, s, w, d);
    case Close(w) => DropAttends(s, s', w);
    case Crash(w) => DropAttends(s, s', w);
    case Handle(w, c) =>
      assert Handled(e, s, s', w, c);
      if Settling(s.workers[w].handler.value.pc) {
        SettleAttends(e, s, s', w, c);
      } else {
        CallStays(e, s.world, s.workers[w].handler.value, c);
        CallAttends(e, s, s', w, c);
      }
  }

  // ---- who can write a row ----------------------------------------------

  /** The two table entries of one id. */
  predicate SameRow(s: State, s': State, id: Id) {
    var t, t' := s.world.tables, s'.world.tables;
    && (id in t.requests <==> id in t'.requests)
    && (id in t.requests && id in t'.requests ==> t'.requests[id] == t.requests[id])
    && (id in t.results <==> id in t'.results)
    && (id in t.results && id in t'.results ==> t'.results[id] == t.results[id])
  }

  /** The callback of w is about to write the row of id, for the one message of that upload. */
  predicate WritesRow(s: State, w: WorkerId, id: Id) {
    && w in s.workers && s.workers[w].handler.Some?
    && var h := s.workers[w].handler.value;
       && Writing(h.pc) && h.job.Some? && h.job.value.id == id
       && id in s.uploads && s.uploads[id].msg == Some(h.delivery.msg)
  }

  /** The request handler of id is about to write the row of id. */
  predicate CreateWrites(s: State, id: Id) {
    id in s.uploads && (s.uploads[id].pc == Inserting || s.uploads[id].pc == Compensating)
  }

  lemma CallWritesOnlyItsRow(e: Engine, s: State, s': State, w: WorkerId, c: Choice, id: Id)
    requires WorkersOk(e, s) && MessagesOk(s) && Handled(e, s, s', w, c) && s.foreign !! s.uploads.Keys
    requires id in s.uploads
    ensures SameRow(s, s', id) || WritesRow(s, w, id)
  {
    var h := s.workers[w].handler.value;
    assert ProcessOk(e, s, s.workers[w]);
    if Writing(h.pc) {
      assert MessageOk(s, h.delivery.msg);
      WriteIsRowStep(e, s, h, c);
    } else {
      assert s'.world.tables == s.world.tables;
    }
  }

  lemma CreateWritesOnlyItsRow(s: State, s': State, x: Id, c: CreateChoice, id: Id)
    requires Created(s, s', x, c)
    ensures SameRow(s, s', id) || (x == id && CreateWrites(s, id))
  {
  }

  lemma OtherStepsKeepTables(e: Engine, s: State, step: Step)
    requires Enabled(e, s, step) && !step.Handle? && !step.Create?
    ensures Apply(e, s, step).world.tables == s.world.tables
  {
  }

  lemma OnlyWriters(e: Engine, s: State, step: Step, id: Id)
    requires WorkersOk(e, s) && MessagesOk(s) && s.foreign !! s.uploads.Keys
    requires Enabled(e, s, step) && id in s.uploads
    ensures SameRow(s, Apply(e, s, step), id)
            || (step.Handle? && WritesRow(s, step.w, id))
            || (step.Create? && step.id == id && CreateWrites(s, id))
  {
    var s' := Apply(e, s, step);
    if step.Handle? {
      assert Handled(e, s, s', step.w, step.choice);
      CallWritesOnlyItsRow(e, s, s', step.w, step.choice, id);
    } else if step.Create? {
      assert Created(s, s', step.id, step.create);
      CreateWritesOnlyItsRow(s, s', step.id, step.create, id);
    } else {
      OtherStepsKeepTables(e, s, step);
    }
  }

  /** A callback about to write a row holds that upload's message unanswered. */
  lemma WriterHoldsItsMessage(e: Engine, s: State, w: WorkerId, id: Id)
    requires BrokerOk(s.world.broker) && AllAttended(s) && WritesRow(s, w, id)
    ensures var m := s.uploads[id].msg.value;
            m in s.world.broker.unacked && !SettledMsg(s.world.broker, m) && m !in s.world.broker.queue
  {
  }

  // ---- finality ----------------------------------------------------------

  /** The upload's handler is done and its message, if there ever was one, is settled. */
  predicate Closed(s: State, id: Id) {
    && id in s.uploads && s.uploads[id].pc.Finished?
    && (s.uploads[id].msg.Some? ==> SettledMsg(s.world.broker, s.uploads[id].msg.value))
  }

  lemma SettledStays(e: Engine, s: State, step: Step, m: MsgId)
    requires Enabled(e, s, step) && SettledMsg(s.world.broker, m)
    ensures SettledMsg(Apply(e, s, step).world.broker, m)
  {
    match step
    case Handle(w, c) =>
      var h := s.workers[w].handler.value;
      if Settling(h.pc) {
        assert s.world.broker.acked <= Effect(s.world, h, c).broker.acked;
        assert s.world.broker.dead <= Effect(s.world, h, c).broker.dead;
      } else {
        CallStays(e, s.world, h, c);
      }
    case _ =>
  }

  lemma ClosedRowIsFrozen(e: Engine, s: State, step: Step, id: Id)
    requires BrokerOk(s.world.broker) && WorkersOk(e, s) && MessagesOk(s) && s.foreign !! s.uploads.Keys
    requires AllAttended(s) && Enabled(e, s, step) && Closed(s, id)
    ensures SameRow(s, Apply(e, s, step), id) && Closed(Apply(e, s, step), id)
  {
    OnlyWriters(e, s, step, id);
    if s.uploads[id].msg.Some? {
      SettledStays(e, s, step, s.uploads[id].msg.value);
    }
    if step.Handle? && WritesRow(s, step.w, id) {
      WriterHoldsItsMessage(e, s, step.w, id);
    }
  }

  /** Once the message of an upload is settled and its handler is done, its row and its result
      never change again, whatever workers, crashes and database errors follow. */
  lemma {:induction false} Finality(e: Engine, s: State, steps: seq<Step>, id: Id)
    requires Safe(e, s) && AllAttended(s) && IsRun(e, s, steps) && OrderlyRun(steps) && Closed(s, id)
    ensures SameRow(s, After(e, s, steps), id)
    decreases |steps|
  {
    if steps != [] {
      assert OrderlyStep(steps[0]);
      ClosedRowIsFrozen(e, s, steps[0], id);
      StepKeepsSafe(e, s, steps[0]);
      StepAttends(e, s, steps[0]);
      assert OrderlyRun(steps[1..]);
      Finality(e, Apply(e, s, steps[0]), steps[1..], id);
    }
  }

  lemma InitialAttended()
    ensures AllAttended(INITIAL)
  {
  }

  lemma {:induction false} OrderlyRunsAttend(e: Engine, s: State, steps: seq<Step>)
    requires Safe(e, s) && AllAttended(s) && IsRun(e, s, steps) && OrderlyRun(steps)
    ensures Safe(e, After(e, s, steps)) && AllAttended(After(e, s, steps))
    decreases |steps|
  {
    if steps != [] {
      assert OrderlyStep(steps[0]);
      StepKeepsSafe(e, s, steps[0]);
      StepAttends(e, s, steps[0]);
      assert OrderlyRun(steps[1..]);
      OrderlyRunsAttend(e, Apply(e, s, steps[0]), steps[1..]);
    }
  }

  /** Everything known about the states of such runs. */
  ghost predicate Tidy(e: Engine, s: State) {
    Safe(e, s) && AllAttended(s)
  }

  /** An orderly run, and where it leads. */
  ghost predicate Path(e: Engine, s: State, steps: seq<Step>, t: State) {
    Leads(e, s, steps, t) && OrderlyRun(steps)
  }

  lemma PathKeepsTidy(e: Engine, s: State, steps: seq<Step>, t: State)
    requires Tidy(e, s) && Path(e, s, steps, t)
    ensures Tidy(e, t)
  {
    OrderlyRunsAttend(e, s, steps);
  }

  lemma EmptyPath(e: Engine, s: State)
    ensures Path(e, s, [], s)
  {
  }

  lemma PathThen(e: Engine, s: State, first: seq<Step>, t: State, more: seq<Step>, u: State)
    requires Path(e, s, first, t) && Path(e, t, more, u)
    ensures Path(e, s, first + more, u)
  {
    RunThen(e, s, first, t, more, u);
  }

  /** How many worker processes die in a run. */
  function Deaths(steps: seq<Step>): nat {
    if steps == [] then 0 else (if steps[0].Crash? then 1 else 0) + Deaths(steps[1..])
  }

  lemma {:induction false} DeathsAdd(first: seq<Step>, more: seq<Step>)
    ensures Deaths(first + more) == Deaths(first) + Deaths(more)
  {
    if first == [] {
      assert first + more == more;
    } else {
      assert (first + more)[1..] == first[1..] + more;
      DeathsAdd(first[1..], more);
    }
  }

  lemma ExtendPath(e: Engine, s: State, steps: seq<Step>, t: State, step: Step) returns (more: seq<Step>, u: State)
    requires Path(e, s, steps, t) && Enabled(e, t, step) && OrderlyStep(step)
    ensures more == steps + [step] && u == Apply(e, t, step) && Path(e, s, more, u)
    ensures Deaths(more) == Deaths(steps) + if step.Crash? then 1 else 0
  {
    more, u := Extend(e, s, steps, t, step);
    DeathsAdd(steps, [step]);
  }

  lemma TidyFromTheStart(e: Engine, before: seq<Step>)
    requires IsRun(e, INITIAL, before) && OrderlyRun(before)
    ensures Tidy(e, After(e, INITIAL, before))
  {
    InitialIsSafe(e);
    InitialAttended();
    OrderlyRunsAttend(e, INITIAL, before);
  }

  /** After any such run, no two processes are in the callback for the same message. */
  lemma OneHandlerFromTheStart(e: Engine, before: seq<Step>, v: WorkerId, w: WorkerId)
    requires IsRun(e, INITIAL, before) && OrderlyRun(before)
    requires var s := After(e, INITIAL, before);
             && v in s.workers && s.workers[v].handler.Some? && w in s.workers && s.workers[w].handler.Some?
             && s.workers[v].handler.value.delivery.msg == s.workers[w].handler.value.delivery.msg
    ensures v == w
  {
    hide Safe, AllAttended;
    TidyFromTheStart(e, before);
    OneHandlerPerMessage(After(e, INITIAL, before), v, w);
  }
}
