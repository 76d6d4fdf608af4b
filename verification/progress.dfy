/** Without crashes and connection losses every accepted message reaches acknowledgement or the
    dead-letter queue, whatever errors the database, the store and the engine answer with. */
module Progress {
  import opened Domain
  import opened Broker
  import opened Services
  import opened Worker
  import opened Pipeline
  import opened Safety
  import opened Orderly
  import opened Truthful

  /** A step of a worker, or of the broker towards one, in an orderly run. */
  predicate WorkStep(e: Engine, s: State, step: Step) {
    && Enabled(e, s, step) && OrderlyStep(step)
    && (step.HandOut? || step.Start? || step.Handle?)
  }

  /** One in which no exception leaves the callback. */
  predicate CalmStep(e: Engine, s: State, step: Step) {
    && WorkStep(e, s, step)
    && (step.Handle? ==> !NextPc(e, s.workers[step.w].handler.value, step.choice).Escaped?)
  }

  predicate InCallback(s: State, d: Delivery) {
    && d.conn.worker in s.workers
    && s.workers[d.conn.worker].handler.Some?
    && s.workers[d.conn.worker].handler.value.delivery == d
  }

  /** How many calm steps message m can still take: a first attempt is worth a retry on top. */
  function Weight(s: State, m: MsgId): nat {
    var b := s.world.broker;
    if m in b.queue && m in b.messages then (if b.messages[m].redelivered then 11 else 22)
    else if m in b.unacked then
      (if b.unacked[m].redelivered then 0 else 11)
      + (if InCallback(s, b.unacked[m])
         then 1 + Rank(s.workers[b.unacked[m].conn.worker].handler.value.pc)
         else 10)
    else 0
  }

  function Sum(s: State, n: nat): nat {
    if n == 0 then 0 else Sum(s, n - 1) + Weight(s, n - 1)
  }

  /** The termination measure: the work left in all accepted messages. */
  function Measure(s: State): nat {
    Sum(s, s.world.broker.nextMsg)
  }

  lemma {:induction false} SumUnchanged(s: State, s': State, n: nat)
    requires forall x | 0 <= x < n :: Weight(s', x) == Weight(s, x)
    ensures Sum(s', n) == Sum(s, n)
  {
    if n > 0 { SumUnchanged(s, s', n - 1); }
  }

  lemma {:induction false} SumDrops(s: State, s': State, n: nat, m: MsgId)
    requires m < n && Weight(s', m) < Weight(s, m)
    requires forall x | 0 <= x < n && x != m :: Weight(s', x) == Weight(s, x)
    ensures Sum(s', n) < Sum(s, n)
  {
    if m == n - 1 {
      SumUnchanged(s, s', n - 1);
    } else {
      SumDrops(s, s', n - 1, m);
    }
  }

  /** The message a calm step works on. */
  function Mover(s: State, step: Step): MsgId
    requires step.HandOut? || step.Start? || (step.Handle? && step.w in s.workers && s.workers[step.w].handler.Some?)
  {
    if step.HandOut? then step.m
    else if step.Start? then step.d.msg
    else s.workers[step.w].handler.value.delivery.msg
  }

  /** The broker's view of x, and the callback of x if it runs, stay as they are. */
  lemma SameWeight(s: State, s': State, x: MsgId)
    requires x in s.world.broker.queue <==> x in s'.world.broker.queue
    requires x in s.world.broker.unacked <==> x in s'.world.broker.unacked
    requires x in s.world.broker.messages <==> x in s'.world.broker.messages
    requires x in s.world.broker.messages ==>
               s'.world.broker.messages[x].redelivered == s.world.broker.messages[x].redelivered
    requires x in s.world.broker.unacked ==>
               && s'.world.broker.unacked[x] == s.world.broker.unacked[x]
               && var d := s.world.broker.unacked[x];
                  && (InCallback(s, d) <==> InCallback(s', d))
                  && (InCallback(s, d) ==> s'.workers[d.conn.worker].handler == s.workers[d.conn.worker].handler)
    ensures Weight(s', x) == Weight(s, x)
  {
  }

  lemma HandOutDropsOwn(e: Engine, s: State, step: Step)
    requires AllAttended(s) && WorkStep(e, s, step) && step.HandOut?
    requires step.m !in s.world.broker.unacked
    ensures Weight(Apply(e, s, step), step.m) < Weight(s, step.m)
  {
    assert ProcessAttends(s, step.w);
    var p := s.workers[step.w];
    if p.handler.Some? {
      assert p.handler.value.delivery in Held(p);
    }
  }

  lemma HandOutDrops(e: Engine, s: State, step: Step, x: MsgId)
    requires AllAttended(s) && WorkStep(e, s, step) && step.HandOut?
    requires step.m !in s.world.broker.unacked
    ensures if x == step.m then Weight(Apply(e, s, step), x) < Weight(s, x)
            else Weight(Apply(e, s, step), x) == Weight(s, x)
  {
    hide AllAttended, Weight;
    if x == step.m {
      HandOutDropsOwn(e, s, step);
    } else {
      SameWeight(s, Apply(e, s, step), x);
    }
  }

  lemma StartDrops(e: Engine, s: State, step: Step, x: MsgId)
    requires BrokerOk(s.world.broker) && AllAttended(s) && WorkStep(e, s, step) && step.Start?
    ensures if x == step.d.msg then Weight(Apply(e, s, step), x) < Weight(s, x)
            else Weight(Apply(e, s, step), x) == Weight(s, x)
  {
    assert ProcessAttends(s, step.w) && step.d in Held(s.workers[step.w]);
    assert Conserved(s.world.broker, step.d.msg);
    if x in s.world.broker.unacked { assert DeliveryOk(s.world.broker, x); }
  }

  lemma CallDropsOwn(e: Engine, s: State, s': State, w: WorkerId, c: Choice)
    requires Handled(e, s, s', w, c) && (c.BrokerReplies? ==> c.applied && c.reply.Returned?)
    requires var h := s.workers[w].handler.value;
             && Live(s.world.broker, h.delivery) && h.delivery.msg !in s.world.broker.queue
             && h.delivery.conn == ConnOf(s, w)
             && (h.pc.Requeueing? ==> !h.delivery.redelivered)
    ensures var m := s.workers[w].handler.value.delivery.msg; Weight(s', m) < Weight(s, m)
  {
    var h := s.workers[w].handler.value;
    RankDecreases(e, h, c);
    if !Settling(h.pc) { CallStays(e, s.world, h, c); }
  }

  lemma CallKeepsOther(e: Engine, s: State, s': State, w: WorkerId, c: Choice, x: MsgId)
    requires Handled(e, s, s', w, c) && x != s.workers[w].handler.value.delivery.msg
    requires x in s.world.broker.unacked ==> s.world.broker.unacked[x].msg == x
    ensures Weight(s', x) == Weight(s, x)
  {
    var h := s.workers[w].handler.value;
    if !Settling(h.pc) { CallStays(e, s.world, h, c); }
    SameWeight(s, s', x);
  }

  /** Every step of a worker, or of the broker towards one, strictly decreases the measure, also when
      an exception leaves the callback. */
  lemma WorkStepDecreases(e: Engine, s: State, step: Step)
    requires Safe(e, s) && AllAttended(s) && WorkStep(e, s, step)
    ensures Measure(Apply(e, s, step)) < Measure(s)
  {
    var s' := Apply(e, s, step);
    var m := Mover(s, step);
    var n := s.world.broker.nextMsg;
    if step.Handle? { assert ProcessOk(e, s, s.workers[step.w]); }
    StepKeepsSafe(e, s, step);
    forall x | 0 <= x < n
      ensures if x == m then Weight(s', x) < Weight(s, x) else Weight(s', x) == Weight(s, x)
    {
      StepMovesWeight(e, s, step, x);
    }
    assert m in s.world.broker.messages && s'.world.broker.nextMsg == n by {
      WorkKeepsNextMsg(e, s, step);
    }
    SumDrops(s, s', n, m);
  }

  lemma WorkKeepsNextMsg(e: Engine, s: State, step: Step)
    requires WorkStep(e, s, step) && AllAttended(s) && BrokerOk(s.world.broker)
    ensures Apply(e, s, step).world.broker.nextMsg == s.world.broker.nextMsg
    ensures Mover(s, step) in s.world.broker.messages
  {
    if step.Handle? && !Settling(s.workers[step.w].handler.value.pc) {
      CallStays(e, s.world, s.workers[step.w].handler.value, step.choice);
    }
  }

  lemma StepMovesWeight(e: Engine, s: State, step: Step, x: MsgId)
    requires BrokerOk(s.world.broker) && WorkersOk(e, s) && AllAttended(s) && WorkStep(e, s, step)
    ensures if x == Mover(s, step) then Weight(Apply(e, s, step), x) < Weight(s, x)
            else Weight(Apply(e, s, step), x) == Weight(s, x)
  {
    if step.HandOut? {
      assert Conserved(s.world.broker, step.m);
      HandOutDrops(e, s, step, x);
    } else if step.Start? {
      StartDrops(e, s, step, x);
    } else {
      assert ProcessOk(e, s, s.workers[step.w]);
      var s' := Apply(e, s, step);
      assert Handled(e, s, s', step.w, step.choice);
      if x == Mover(s, step) {
        assert ProcessAttends(s, step.w) && s.workers[step.w].handler.value.delivery in Held(s.workers[step.w]);
        assert Conserved(s.world.broker, x);
        CallDropsOwn(e, s, s', step.w, step.choice);
      } else {
        if x in s.world.broker.unacked { assert DeliveryOk(s.world.broker, x); }
        CallKeepsOther(e, s, s', step.w, step.choice, x);
      }
    }
  }

  ghost predicate CalmRun(e: Engine, s: State, steps: seq<Step>)
    decreases |steps|
  {
    steps == [] || (CalmStep(e, s, steps[0]) && CalmRun(e, Apply(e, s, steps[0]), steps[1..]))
  }

  /** So a calm run is never longer than the measure it starts with. */
  lemma {:induction false} CalmRunsEnd(e: Engine, s: State, steps: seq<Step>)
    requires Safe(e, s) && AllAttended(s) && CalmRun(e, s, steps)
    ensures IsRun(e, s, steps) && |steps| + Measure(After(e, s, steps)) <= Measure(s)
    decreases |steps|
  {
    if steps != [] {
      StepKeepsSafe(e, s, steps[0]);
      StepAttends(e, s, steps[0]);
      WorkStepDecreases(e, s, steps[0]);
      CalmRunsEnd(e, Apply(e, s, steps[0]), steps[1..]);
    }
  }

  // ---- all the work of a run with crashes ----------------------------------

  /** What message m has been granted so far, beyond the work it can still ask for. */
  function Spent(s: State, m: MsgId): int {
    22 + 11 * (if m in s.world.broker.messages then s.world.broker.messages[m].losses else 0) - Weight(s, m)
  }

  function TotalSpent(s: State, n: nat): int {
    if n == 0 then 0 else TotalSpent(s, n - 1) + Spent(s, n - 1)
  }

  function Losses(s: State, n: nat): nat {
    if n == 0 then 0
    else Losses(s, n - 1) + if n - 1 in s.world.broker.messages then s.world.broker.messages[n - 1].losses else 0
  }

  lemma {:induction false} SpentIsGrantLessMeasure(s: State, n: nat)
    ensures TotalSpent(s, n) == 22 * n + 11 * Losses(s, n) - Sum(s, n)
  {
    if n > 0 { SpentIsGrantLessMeasure(s, n - 1); }
  }

  lemma {:induction false} SpentGrows(s: State, s': State, n: nat)
    requires forall x | 0 <= x < n :: Spent(s', x) >= Spent(s, x)
    ensures TotalSpent(s', n) >= TotalSpent(s, n)
  {
    if n > 0 { SpentGrows(s, s', n - 1); }
  }

  lemma {:induction false} SpentGrowsAt(s: State, s': State, n: nat, m: MsgId)
    requires m < n && Spent(s', m) > Spent(s, m)
    requires forall x | 0 <= x < n :: Spent(s', x) >= Spent(s, x)
    ensures TotalSpent(s', n) > TotalSpent(s, n)
  {
    if m == n - 1 {
      SpentGrows(s, s', n - 1);
    } else {
      SpentGrowsAt(s, s', n - 1, m);
    }
  }

  predicate IsWork(step: Step) {
    step.HandOut? || step.Start? || step.Handle?
  }

  lemma WorkKeepsLosses(e: Engine, s: State, step: Step, x: MsgId)
    requires WorkStep(e, s, step) && x in s.world.broker.messages
    ensures x in Apply(e, s, step).world.broker.messages
    ensures Apply(e, s, step).world.broker.messages[x].losses == s.world.broker.messages[x].losses
  {
    if step.Handle? && !Settling(s.workers[step.w].handler.value.pc) {
      CallStays(e, s.world, s.workers[step.w].handler.value, step.choice);
    }
  }

  /** A process that lets go of its connection grants each message it held another attempt. */
  lemma DropSpends(s: State, s': State, w: WorkerId, x: MsgId)
    requires AllAttended(s) && w in s.workers && x in s.world.broker.messages
    requires x in s.world.broker.unacked ==> x !in s.world.broker.queue
    requires s'.world.broker == Drop(s.world.broker, ConnOf(s, w))
    requires s'.workers == s.workers[w := Gone(s.workers[w])]
    ensures Spent(s', x) >= Spent(s, x)
  {
  }

  lemma ConnectSpends(e: Engine, s: State, w: WorkerId, x: MsgId)
    requires AllAttended(s) && Enabled(e, s, Connect(w)) && x in s.world.broker.messages
    ensures Spent(Apply(e, s, Connect(w)), x) >= Spent(s, x)
  {
  }

  lemma QuietStepSpends(e: Engine, s: State, step: Step, x: MsgId)
    requires Enabled(e, s, step) && x in s.world.broker.messages && s.world.broker.nextMsg !in s.world.broker.messages
    requires step.Arrive? || step.Create? || step.BackendCrash? || step.ForeignPublish?
    ensures Spent(Apply(e, s, step), x) >= Spent(s, x)
  {
    SameWeight(s, Apply(e, s, step), x);
  }

  /** A step that is no work takes nothing back from a message. */
  lemma OtherStepSpends(e: Engine, s: State, step: Step, x: MsgId)
    requires BrokerOk(s.world.broker) && AllAttended(s) && Enabled(e, s, step) && OrderlyStep(step)
    requires !IsWork(step) && x in s.world.broker.messages
    ensures Spent(Apply(e, s, step), x) >= Spent(s, x)
  {
    assert Conserved(s.world.broker, x) && s.world.broker.nextMsg !in s.world.broker.messages;
    hide Spent, AllAttended, BrokerOk;
    if step.Close? || step.Crash? {
      DropSpends(s, Apply(e, s, step), step.w, x);
    } else if step.Connect? {
      ConnectSpends(e, s, step.w, x);
    } else {
      QuietStepSpends(e, s, step, x);
    }
  }

  lemma WorkSpends(e: Engine, s: State, step: Step, x: MsgId)
    requires BrokerOk(s.world.broker) && WorkersOk(e, s) && AllAttended(s) && WorkStep(e, s, step)
    requires x in s.world.broker.messages
    ensures Spent(Apply(e, s, step), x) >= Spent(s, x)
    ensures x == Mover(s, step) ==> Spent(Apply(e, s, step), x) > Spent(s, x)
  {
    hide Weight, Enabled, Apply, BrokerOk, WorkersOk, AllAttended;
    StepMovesWeight(e, s, step, x);
    WorkKeepsLosses(e, s, step, x);
  }

  lemma QueuedOwesNothing(s: State, m: MsgId)
    requires m in s.world.broker.queue && m in s.world.broker.messages
    ensures Spent(s, m) >= 0
  {
  }

  lemma CallsNumberNothing(e: Engine, w: World, h: Handler, c: Choice)
    requires Legal(e, w, h, c)
    ensures Effect(w, h, c).broker.nextMsg == w.broker.nextMsg
  {
  }

  lemma NewMessages(e: Engine, s: State, step: Step)
    requires Enabled(e, s, step)
    ensures var n, n' := s.world.broker.nextMsg, Apply(e, s, step).world.broker.nextMsg;
            n' == n || (n' == n + 1 && Spent(Apply(e, s, step), n) >= 0)
  {
    var s' := Apply(e, s, step);
    hide Spent, Legal, Effect, NextPc;
    if step.Handle? {
      CallsNumberNothing(e, s.world, s.workers[step.w].handler.value, step.choice);
    } else if s'.world.broker.nextMsg == s.world.broker.nextMsg + 1 {
      QueuedOwesNothing(s', s.world.broker.nextMsg);
    }
  }

  lemma EachSpends(e: Engine, s: State, step: Step, x: MsgId)
    requires Tidy(e, s) && Enabled(e, s, step) && OrderlyStep(step) && x < s.world.broker.nextMsg
    ensures Spent(Apply(e, s, step), x) >= Spent(s, x)
  {
    assert x in s.world.broker.messages;
    hide Spent, Enabled, Apply, BrokerOk, UploadsOk, MessagesOk, TablesOk, WorkersOk, AllAttended;
    if IsWork(step) { WorkSpends(e, s, step, x); } else { OtherStepSpends(e, s, step, x); }
  }

  lemma MoverSpends(e: Engine, s: State, step: Step) returns (m: MsgId)
    requires Tidy(e, s) && WorkStep(e, s, step)
    ensures m < s.world.broker.nextMsg && Spent(Apply(e, s, step), m) > Spent(s, m)
  {
    m := Mover(s, step);
    WorkKeepsNextMsg(e, s, step);
    WorkSpends(e, s, step, m);
  }

  /** Each step spends what it does: one for a work step, nothing is ever refunded. */
  lemma StepSpends(e: Engine, s: State, step: Step)
    requires Tidy(e, s) && Enabled(e, s, step) && OrderlyStep(step)
    ensures var s' := Apply(e, s, step);
            TotalSpent(s', s'.world.broker.nextMsg)
            >= TotalSpent(s, s.world.broker.nextMsg) + if IsWork(step) then 1 else 0
  {
    hide Spent, Enabled, Apply, Tidy, OrderlyStep;
    var s' := Apply(e, s, step);
    var n := s.world.broker.nextMsg;
    NewMessages(e, s, step);
    forall x | 0 <= x < n ensures Spent(s', x) >= Spent(s, x) { EachSpends(e, s, step, x); }
    if IsWork(step) {
      var m := MoverSpends(e, s, step);
      SpentGrowsAt(s, s', n, m);
    } else {
      SpentGrows(s, s', n);
    }
  }

  function Work(steps: seq<Step>): nat {
    if steps == [] then 0 else (if IsWork(steps[0]) then 1 else 0) + Work(steps[1..])
  }

  lemma {:induction false} RunSpends(e: Engine, s: State, steps: seq<Step>)
    requires Tidy(e, s) && IsRun(e, s, steps) && OrderlyRun(steps)
    ensures var t := After(e, s, steps);
            TotalSpent(t, t.world.broker.nextMsg) >= TotalSpent(s, s.world.broker.nextMsg) + Work(steps)
    decreases |steps|
  {
    hide BrokerOk, UploadsOk, MessagesOk, TablesOk, WorkersOk, AllAttended, TotalSpent;
    if steps != [] {
      assert OrderlyStep(steps[0]);
      StepSpends(e, s, steps[0]);
      StepKeepsSafe(e, s, steps[0]);
      StepAttends(e, s, steps[0]);
      assert OrderlyRun(steps[1..]);
      RunSpends(e, Apply(e, s, steps[0]), steps[1..]);
    }
  }

  /** All the work of any run with crashes, whatever errors were answered on the way: 22 steps per
      accepted message and 11 more for each time one was lost with its connection pay for every
      delivery, callback entry and call made so far and for all those still possible. */
  lemma WorkIsBounded(e: Engine, steps: seq<Step>)
    requires IsRun(e, INITIAL, steps) && OrderlyRun(steps)
    ensures var t := After(e, INITIAL, steps);
            var n := t.world.broker.nextMsg;
            Work(steps) + Measure(t) <= 22 * n + 11 * Losses(t, n)
  {
    InitialIsSafe(e);
    InitialAttended();
    RunSpends(e, INITIAL, steps);
    var t := After(e, INITIAL, steps);
    SpentIsGrantLessMeasure(t, t.world.broker.nextMsg);
  }

  // ---- and it ends only when everything is settled ------------------------

  ghost predicate NobodyEscaped(s: State) {
    forall w | w in s.workers && s.workers[w].handler.Some? :: !s.workers[w].handler.value.pc.Escaped?
  }

  ghost predicate SomeoneConnected(s: State) {
    exists w :: w in s.workers && s.workers[w].connected
  }

  ghost predicate Quiescent(e: Engine, s: State) {
    forall step :: !CalmStep(e, s, step)
  }

  /** A callback at any point can make its next call, however badly it is answered. */
  lemma CallCanBeAnswered(e: Engine, w: World, h: Handler) returns (c: Choice)
    requires Live(w.broker, h.delivery) && h.delivery.msg in w.broker.messages && !Over(h.pc)
    requires h.job.None? ==> h.pc.NackMalformed?
    ensures Legal(e, w, h, c) && !NextPc(e, h, c).Escaped?
    ensures c.BrokerReplies? ==> c.applied && c.reply.Returned?
  {
    match h.pc
    case Marking => c := DbReplies(false, Raised(DatabaseError), 0);
    case Downloading => c := S3Replies(BotoCoreError);
    case Classifying(_) => c := EngineReplies(None, 0);
    case Saving(_) => c := DbReplies(false, Raised(DatabaseError), 0);
    case Failing(_) => c := DbReplies(false, Raised(DatabaseError), 0);
    case _ => c := BrokerReplies(true, Returned);
  }

  lemma HolderCanMove(e: Engine, s: State, m: MsgId) returns (step: Step)
    requires BrokerOk(s.world.broker) && WorkersOk(e, s) && AllAttended(s) && NobodyEscaped(s)
    requires m in s.world.broker.unacked
    ensures CalmStep(e, s, step)
  {
    assert Attended(s, m) && DeliveryOk(s.world.broker, m);
    var d := s.world.broker.unacked[m];
    var w := d.conn.worker;
    assert ProcessOk(e, s, s.workers[w]) && ProcessAttends(s, w);
    if s.workers[w].handler.Some? {
      var h := s.workers[w].handler.value;
      assert h.delivery in Held(s.workers[w]);
      var c := CallCanBeAnswered(e, s.world, h);
      step := Handle(w, c);
    } else {
      step := Start(w, d);
    }
  }

  /** While a message is unsettled and somebody is connected, some calm step is possible. */
  lemma SomebodyCanMove(e: Engine, s: State, m: MsgId) returns (step: Step)
    requires Safe(e, s) && AllAttended(s) && NobodyEscaped(s) && SomeoneConnected(s)
    requires m in s.world.broker.messages && !SettledMsg(s.world.broker, m)
    ensures CalmStep(e, s, step)
  {
    assert Conserved(s.world.broker, m);
    if m in s.world.broker.queue {
      var w :| w in s.workers && s.workers[w].connected;
      assert ProcessAttends(s, w);
      step := HandOut(w, m);
    } else {
      step := HolderCanMove(e, s, m);
    }
  }

  lemma QuiescentMeansSettled(e: Engine, s: State, m: MsgId)
    requires Safe(e, s) && AllAttended(s) && NobodyEscaped(s) && SomeoneConnected(s) && Quiescent(e, s)
    requires m in s.world.broker.messages
    ensures SettledMsg(s.world.broker, m)
  {
    if !SettledMsg(s.world.broker, m) {
      var step := SomebodyCanMove(e, s, m);
    }
  }

  lemma {:induction false} CalmRunsKeepServing(e: Engine, s: State, steps: seq<Step>)
    requires Safe(e, s) && AllAttended(s) && CalmRun(e, s, steps)
    requires NobodyEscaped(s) && SomeoneConnected(s)
    ensures IsRun(e, s, steps)
    ensures var s' := After(e, s, steps);
            Safe(e, s') && AllAttended(s') && NobodyEscaped(s') && SomeoneConnected(s')
    decreases |steps|
  {
    if steps != [] {
      hide BrokerOk, UploadsOk, MessagesOk, TablesOk, WorkersOk, AllAttended;
      StepKeepsSafe(e, s, steps[0]);
      StepAttends(e, s, steps[0]);
      CalmStepKeepsServing(e, s, steps[0]);
      CalmRunsKeepServing(e, Apply(e, s, steps[0]), steps[1..]);
    }
  }

  lemma CalmStepKeepsServing(e: Engine, s: State, step: Step)
    requires CalmStep(e, s, step) && NobodyEscaped(s) && SomeoneConnected(s)
    ensures NobodyEscaped(Apply(e, s, step)) && SomeoneConnected(Apply(e, s, step))
  {
    var w :| w in s.workers && s.workers[w].connected;
    var s' := Apply(e, s, step);
    assert w in s'.workers && s'.workers[w].connected;
  }

  /** After any run with crashes but reliable connections: if the faults then stop at errors from the
      database, the store and the engine, the workers take at most Measure more steps, and when no
      further step is possible every accepted message is acknowledged or dead-lettered. */
  lemma EveryMessageIsSettled(e: Engine, before: seq<Step>, calm: seq<Step>, m: MsgId)
    requires IsRun(e, INITIAL, before) && OrderlyRun(before)
    requires var s := After(e, INITIAL, before);
             NobodyEscaped(s) && SomeoneConnected(s) && CalmRun(e, s, calm)
    ensures var s := After(e, INITIAL, before);
            && |calm| <= Measure(s)
            && IsRun(e, s, calm)
            && (m in After(e, s, calm).world.broker.messages && !SettledMsg(After(e, s, calm).world.broker, m) ==>
                  exists next :: CalmStep(e, After(e, s, calm), next))
  {
    hide BrokerOk, UploadsOk, MessagesOk, TablesOk, WorkersOk, AllAttended, CalmStep;
    var s := After(e, INITIAL, before);
    TidyFromTheStart(e, before);
    CalmRunsEnd(e, s, calm);
    CalmRunsKeepServing(e, s, calm);
    var t := After(e, s, calm);
    if m in t.world.broker.messages && !SettledMsg(t.world.broker, m) {
      var next := SomebodyCanMove(e, t, m);
      assert CalmStep(e, t, next);
    }
  }

  /** When the workers have nothing left to do, every upload whose message was accepted, and whose own
      failure, if any, mark_failed could record, has a terminal row. */
  lemma EveryUploadEndsTerminal(e: Engine, steps: seq<Step>, id: Id)
    requires IsRun(e, INITIAL, steps) && AccountableRun(steps, false)
    requires var s := After(e, INITIAL, steps);
             && NobodyEscaped(s) && SomeoneConnected(s) && Quiescent(e, s)
             && id in s.uploads && s.uploads[id].msg.Some? && s.uploads[id].msg.value !in s.unrecorded
    ensures TerminalRow(After(e, INITIAL, steps), id)
  {
    var s := After(e, INITIAL, steps);
    InitialIsSafe(e);
    InitialAttended();
    InitialTruth(false);
    RunKeepsTruth(e, INITIAL, steps, false);
    assert UploadOk(s, id);
    QuiescentMeansSettled(e, s, s.uploads[id].msg.value);
    SettlementTellsTheTruth(e, steps, false, id);
  }
}
