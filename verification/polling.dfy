/** The browser's polling hook: effect instances, requests in flight, timers and React state. */
module Polling {
  import opened Domain
  import opened Database

  const POLL_INTERVAL_MS: nat := 900
  const POLL_TIMEOUT_MS: nat := 120000

  /** What one `getInference` call ends with. An aborted call rejects as well. */
  datatype Answer = Resolved(job: JobDto) | Rejected(apiMessage: Option<string>)

  /** The stored state: the last answer, and which request it was about. */
  datatype PollState = PollState(
    requestId: Option<Id>,
    job: Option<JobDto>,
    error: Option<string>,
    settled: bool)

  const IDLE: PollState := PollState(None, None, None, true)

  const TIMEOUT_MESSAGE: string :=
    "The prediction is taking longer than expected. It may still finish \U{2014} check the history page."
  const LOST_CONTACT: string := "Lost contact with the server."

  /** One run of the effect. `sent`, `lastSent` and `heard` are history: the requests issued, the
      time of the latest, and whether any answer was stored. */
  datatype Instance = Instance(
    requestId: Id,
    startedAt: Time,
    cancelled: bool,
    inFlight: bool,
    timer: Option<Time>,
    done: bool,
    sent: nat,
    lastSent: Time,
    heard: bool)

  function Mount(id: Id, now: Time): Instance {
    Instance(id, now, false, true, None, false, 1, now, false)
  }

  /** The state an answer stores; None when the instance keeps quiet. */
  function Written(i: Instance, answer: Answer, now: Time): Option<PollState> {
    if i.cancelled then None
    else match answer
         case Rejected(message) =>
           Some(PollState(Some(i.requestId), None,
                          Some(if message.Some? then message.value else LOST_CONTACT), true))
         case Resolved(job) =>
           if Terminal(job.status) then Some(PollState(Some(i.requestId), Some(job), None, true))
           else if now - i.startedAt > POLL_TIMEOUT_MS
           then Some(PollState(Some(i.requestId), Some(job), Some(TIMEOUT_MESSAGE), true))
           else Some(PollState(Some(i.requestId), Some(job), None, false))
  }

  function AfterAnswer(i: Instance, answer: Answer, now: Time): Instance {
    var w := Written(i, answer, now);
    i.(inFlight := false,
       heard := i.heard || w.Some?,
       done := i.done || (w.Some? && w.value.settled),
       timer := if w.Some? && !w.value.settled then Some(now + POLL_INTERVAL_MS) else i.timer)
  }

  function AfterTimer(i: Instance, now: Time): Instance {
    i.(inFlight := true, timer := None, sent := i.sent + 1, lastSent := now)
  }

  function TornDown(i: Instance): Instance {
    i.(cancelled := true, timer := None)
  }

  /** A live instance is in exactly one of: request in flight, timer armed, done. */
  predicate OnePhase(x: Instance) {
    (if x.inFlight then 1 else 0) + (if x.timer.Some? then 1 else 0) + (if x.done then 1 else 0) == 1
  }

  /** The pacing of one instance: request k leaves no earlier than 900(k-1) ms after the first. */
  predicate Paced(x: Instance, now: Time) {
    && x.sent >= 1 && x.lastSent <= now
    && x.lastSent >= x.startedAt + POLL_INTERVAL_MS * (x.sent - 1)
    && (x.timer.Some? ==>
          && x.timer.value >= x.lastSent + POLL_INTERVAL_MS
          && x.lastSent <= x.startedAt + POLL_TIMEOUT_MS)
    && (x.sent > 1 ==> POLL_INTERVAL_MS * (x.sent - 2) <= POLL_TIMEOUT_MS)
  }

  /** What every instance satisfies at every moment of its life. */
  predicate Sound(x: Instance, now: Time) {
    && (x.cancelled ==> x.timer.None?)
    && (!x.cancelled ==> OnePhase(x))
    && (x.done ==> !x.inFlight && x.timer.None? && x.heard)
    && Paced(x, now)
  }

  const MAX_REQUESTS: nat := POLL_TIMEOUT_MS / POLL_INTERVAL_MS + 2

  lemma SoundIsBounded(x: Instance, now: Time)
    requires Sound(x, now)
    ensures x.sent <= MAX_REQUESTS
  {
  }

  // ---- the effect as the source writes it ---------------------------------

  class ReactState {
    var state: PollState

    constructor ()
      ensures state == IDLE
    {
      state := IDLE;
    }
  }

  /** The closure of one effect run. */
  class PollEffect {
    const requestId: Id
    const startedAt: Time
    var cancelled: bool
    var inFlight: bool
    var timer: Option<Time>
    ghost var done: bool
    ghost var sent: nat
    ghost var lastSent: Time
    ghost var heard: bool

    ghost function Contents(): Instance
      reads this
    {
      Instance(requestId, startedAt, cancelled, inFlight, timer, done, sent, lastSent, heard)
    }

    /** The effect is sound: one phase, paced, silent once cancelled. So it never sends too much. */
    ghost predicate Valid(now: Time)
      reads this
    {
      Sound(Contents(), now)
    }

    constructor (id: Id, now: Time)
      ensures Contents() == Mount(id, now) && Valid(now)
    {
      requestId, startedAt := id, now;
      cancelled, timer := false, None;
      inFlight := true;
      done, sent, lastSent, heard := false, 1, now, false;
    }

    /** The continuation of `await getInference(...)`, both its normal and its catch path. */
    method OnAnswer(answer: Answer, now: Time, react: ReactState)
      requires Valid(now) && inFlight
      modifies this, react
      ensures Valid(now) && Contents() == AfterAnswer(old(Contents()), answer, now)
      ensures var w := Written(old(Contents()), answer, now);
              react.state == if w.Some? then w.value else old(react.state)
      ensures !old(cancelled) ==> (timer.Some? <==> !react.state.settled)
    {
      inFlight := false;
      match answer
      case Resolved(job) =>
        if cancelled {
          return;
        }
        heard := true;
        if job.status == Completed || job.status == Failed {
          react.state := PollState(Some(requestId), Some(job), None, true);
          done := true;
          return;
        }
        if now - startedAt > POLL_TIMEOUT_MS {
          react.state := PollState(Some(requestId), Some(job), Some(TIMEOUT_MESSAGE), true);
          done := true;
          return;
        }
        react.state := PollState(Some(requestId), Some(job), None, false);
        timer := Some(now + POLL_INTERVAL_MS);
      case Rejected(message) =>
        if cancelled {
          return;
        }
        heard := true;
        done := true;
        react.state := PollState(Some(requestId), None,
                                 Some(if message.Some? then message.value else LOST_CONTACT), true);
    }

    /** The armed timer goes off, never early: the next request leaves, still within the bound. */
    method OnTimer(now: Time)
      requires timer.Some? && timer.value <= now && Valid(timer.value)
      modifies this
      ensures Valid(now) && inFlight && sent == old(sent) + 1 <= MAX_REQUESTS
      ensures Contents() == AfterTimer(old(Contents()), now)
    {
      timer := None;
      inFlight := true;
      sent, lastSent := sent + 1, now;
      SoundIsBounded(Contents(), now);
    }

    /** The cleanup: from here on no answer, whenever it comes, is stored. */
    method Teardown(now: Time)
      requires Valid(now)
      modifies this
      ensures Valid(now) && Contents() == TornDown(old(Contents()))
      ensures forall answer, later :: Written(Contents(), answer, later).None?
    {
      cancelled := true;
      timer := None;
    }
  }

  /** What the network and the browser decide about one poll: the answer, how long it takes, and how
      late the timer after it goes off. */
  datatype Round = Round(answer: Answer, latency: nat, lateness: nat)

  /** poll, rescheduling itself, over the rounds in store. The only state stored is about this id, and
      however slow the rounds are, polling is over after at most 135 of them. */
  method Poll(id: Id, start: Time, rounds: seq<Round>, react: ReactState) returns (over: bool, sent: nat)
    modifies react
    ensures 1 <= sent <= MAX_REQUESTS && sent <= |rounds| + 1
    ensures over <==> sent <= |rounds|
    ensures |rounds| >= MAX_REQUESTS ==> over
    ensures over ==> react.state.settled
    ensures rounds != [] ==> react.state.requestId == Some(id)
    ensures over && rounds[sent - 1].answer.Resolved? ==> react.state.job == Some(rounds[sent - 1].answer.job)
    ensures forall i | 0 <= i < sent - 1 :: rounds[i].answer.Resolved? && !Terminal(rounds[i].answer.job.status)
  {
    var effect := new PollEffect(id, start);
    var now: Time := start;
    var i := 0;
    while i < |rounds|
      invariant fresh(effect) && effect.requestId == id
      invariant 0 <= i <= |rounds| && effect.sent == i + 1 <= MAX_REQUESTS
      invariant effect.Valid(now) && effect.inFlight && !effect.cancelled
      invariant i > 0 ==> react.state.requestId == Some(id)
      invariant forall j | 0 <= j < i :: rounds[j].answer.Resolved? && !Terminal(rounds[j].answer.job.status)
    {
      var round := rounds[i];
      now := now + round.latency;
      effect.OnAnswer(round.answer, now, react);
      if effect.timer.None? {
        return true, i + 1;
      }
      now := effect.timer.value + round.lateness;
      effect.OnTimer(now);
      i := i + 1;
    }
    return false, i + 1;
  }

  // ---- what the hook returns ----------------------------------------------

  datatype Output = Output(job: Option<JobDto>, error: Option<string>, isPolling: bool)

  function Derive(requestId: Option<Id>, state: PollState): Output {
    var current := state.requestId == requestId;
    Output(if current then state.job else None,
           if current then state.error else None,
           requestId.Some? && (!current || !state.settled))
  }

  // ---- the hook over time --------------------------------------------------

  /** `requestId` is the argument of the latest render; `mounted` the instance whose cleanup has
      not run. `jobs` and `errors` are history: what polls for each id came back with. */
  datatype Hook = Hook(
    requestId: Option<Id>,
    state: PollState,
    instances: seq<Instance>,
    mounted: Option<nat>,
    now: Time,
    jobs: set<(Id, JobDto)>,
    errors: set<(Id, string)>)

  function Fresh(now: Time): Hook {
    Hook(None, IDLE, [], None, now, {}, {})
  }

  datatype Event =
    | Render(id: Option<Id>)               // the component renders with this id
    | Flush                                // cleanup, then the effect: a changed id, or StrictMode
    | Unmount                              // cleanup only
    | Deliver(i: nat, answer: Answer)      // a request of instance i comes back
    | Fire(i: nat)                         // the timer of instance i goes off
    | Tick(ms: nat)

  predicate Possible(h: Hook, ev: Event) {
    match ev
    case Deliver(i, _) => i < |h.instances| && h.instances[i].inFlight
    case Fire(i) =>
      i < |h.instances| && h.instances[i].timer.Some? && h.instances[i].timer.value <= h.now
    case _ => true
  }

  /** The cleanup function of the mounted instance, if there is one. */
  function Cleaned(h: Hook): Hook {
    if h.mounted.Some? && h.mounted.value < |h.instances|
    then h.(instances := h.instances[h.mounted.value := TornDown(h.instances[h.mounted.value])], mounted := None)
    else h.(mounted := None)
  }

  function Next(h: Hook, ev: Event): Hook
    requires Possible(h, ev)
  {
    match ev
    case Render(id) => h.(requestId := id)
    case Flush =>
      var c := Cleaned(h);
      // the effect returns at once for a null or empty id
      if h.requestId.Some? && h.requestId.value != ""
      then c.(instances := c.instances + [Mount(h.requestId.value, h.now)], mounted := Some(|c.instances|))
      else c
    case Unmount => Cleaned(h)
    case Deliver(i, answer) =>
      var x := h.instances[i];
      var w := Written(x, answer, h.now);
      h.(instances := h.instances[i := AfterAnswer(x, answer, h.now)],
         state := if w.Some? then w.value else h.state,
         jobs := if answer.Resolved? then h.jobs + {(x.requestId, answer.job)} else h.jobs,
         errors := if w.Some? && w.value.error.Some? then h.errors + {(x.requestId, w.value.error.value)} else h.errors)
    case Fire(i) => h.(instances := h.instances[i := AfterTimer(h.instances[i], h.now)])
    case Tick(ms) => h.(now := h.now + ms)
  }

  predicate InstanceOk(h: Hook, i: nat)
    requires i < |h.instances|
  {
    var x := h.instances[i];
    && x.requestId != ""
    && (x.cancelled <==> h.mounted != Some(i))
    && Sound(x, h.now)
  }

  /** Where the stored state comes from. */
  predicate Sourced(h: Hook) {
    && (h.state.requestId.None? ==> h.state == IDLE)
    && (h.state.job.Some? ==> h.state.requestId.Some? && (h.state.requestId.value, h.state.job.value) in h.jobs)
    && (h.state.error.Some? ==> h.state.requestId.Some? && (h.state.requestId.value, h.state.error.value) in h.errors)
  }

  /** Once the mounted instance has stored anything, the state is its own. */
  predicate MountedSpeaks(h: Hook) {
    h.mounted.Some? && h.mounted.value < |h.instances| && h.instances[h.mounted.value].heard ==>
      && h.state.requestId == Some(h.instances[h.mounted.value].requestId)
      && (h.state.settled <==> h.instances[h.mounted.value].done)
  }

  ghost predicate HookOk(h: Hook) {
    && (h.mounted.Some? ==> h.mounted.value < |h.instances|)
    && (forall i | 0 <= i < |h.instances| :: InstanceOk(h, i))
    && Sourced(h)
    && MountedSpeaks(h)
  }

  lemma CleanedOk(h: Hook)
    requires HookOk(h)
    ensures HookOk(Cleaned(h))
  {
    var c := Cleaned(h);
    forall i | 0 <= i < |c.instances| ensures InstanceOk(c, i) { assert InstanceOk(h, i); }
  }

  lemma FlushOk(h: Hook)
    requires HookOk(h)
    ensures HookOk(Next(h, Flush))
  {
    CleanedOk(h);
    var c, n := Cleaned(h), Next(h, Flush);
    forall i | 0 <= i < |n.instances| ensures InstanceOk(n, i) {
      if i < |c.instances| { assert InstanceOk(c, i); }
    }
  }

  lemma AnswerKeepsPace(x: Instance, answer: Answer, now: Time)
    requires Paced(x, now) && (!x.cancelled ==> OnePhase(x)) && (x.cancelled ==> x.timer.None?) && x.inFlight
    requires x.done ==> !x.inFlight
    ensures Paced(AfterAnswer(x, answer, now), now)
    ensures !x.cancelled ==> OnePhase(AfterAnswer(x, answer, now))
  {
  }

  lemma DeliverOk(h: Hook, i: nat, answer: Answer)
    requires HookOk(h) && Possible(h, Deliver(i, answer))
    ensures HookOk(Next(h, Deliver(i, answer)))
  {
    var n := Next(h, Deliver(i, answer));
    assert InstanceOk(h, i);
    AnswerKeepsPace(h.instances[i], answer, h.now);
    forall j | 0 <= j < |n.instances| ensures InstanceOk(n, j) { assert InstanceOk(h, j); }
  }

  lemma FireOk(h: Hook, i: nat)
    requires HookOk(h) && Possible(h, Fire(i))
    ensures HookOk(Next(h, Fire(i)))
  {
    var n := Next(h, Fire(i));
    assert InstanceOk(h, i);
    forall j | 0 <= j < |n.instances| ensures InstanceOk(n, j) { assert InstanceOk(h, j); }
  }

  lemma NextOk(h: Hook, ev: Event)
    requires HookOk(h) && Possible(h, ev)
    ensures HookOk(Next(h, ev))
  {
    match ev
    case Deliver(i, answer) => DeliverOk(h, i, answer);
    case Fire(i) => FireOk(h, i);
    case Flush => FlushOk(h);
    case Unmount => CleanedOk(h);
    case _ =>
      var n := Next(h, ev);
      forall j | 0 <= j < |n.instances| ensures InstanceOk(n, j) { assert InstanceOk(h, j); }
  }

  ghost predicate IsHistory(h: Hook, evs: seq<Event>)
    decreases |evs|
  {
    evs == [] || (Possible(h, evs[0]) && IsHistory(Next(h, evs[0]), evs[1..]))
  }

  ghost function Later(h: Hook, evs: seq<Event>): Hook
    requires IsHistory(h, evs)
    decreases |evs|
  {
    if evs == [] then h else Later(Next(h, evs[0]), evs[1..])
  }

  lemma {:induction false} HistoryOk(h: Hook, evs: seq<Event>)
    requires HookOk(h) && IsHistory(h, evs)
    ensures HookOk(Later(h, evs))
    decreases |evs|
  {
    if evs != [] {
      NextOk(h, evs[0]);
      HistoryOk(Next(h, evs[0]), evs[1..]);
    }
  }

  // ---- what the component can rely on --------------------------------------

  /** However slow the answers and however late the timers, one effect run sends at most 135
      requests, and while it is live it is waiting for exactly one thing. */
  lemma PollingIsBounded(start: Time, evs: seq<Event>, i: nat)
    requires IsHistory(Fresh(start), evs) && i < |Later(Fresh(start), evs).instances|
    ensures MAX_REQUESTS == 135
    ensures var x := Later(Fresh(start), evs).instances[i];
            x.sent <= MAX_REQUESTS && (!x.cancelled ==> OnePhase(x))
  {
    HistoryOk(Fresh(start), evs);
    assert InstanceOk(Later(Fresh(start), evs), i);
  }

  /** A returned job or error came back from a poll for the very id being rendered, for every
      sequence of id changes, double mounts, teardowns and late answers. */
  lemma NoStaleAnswers(start: Time, evs: seq<Event>)
    requires IsHistory(Fresh(start), evs)
    ensures var h := Later(Fresh(start), evs);
            var out := Derive(h.requestId, h.state);
            && (out.job.Some? ==> h.requestId.Some? && (h.requestId.value, out.job.value) in h.jobs)
            && (out.error.Some? ==> h.requestId.Some? && (h.requestId.value, out.error.value) in h.errors)
  {
    HistoryOk(Fresh(start), evs);
  }

  /** While an instance for the rendered id is mounted, `isPolling` is false exactly when that
      instance is done, or has not stored anything yet over a settled state that an earlier
      instance left for the same id. */
  lemma PollingFlagIsExact(start: Time, evs: seq<Event>)
    requires IsHistory(Fresh(start), evs)
    requires var h := Later(Fresh(start), evs);
             h.mounted.Some? && h.mounted.value < |h.instances|
             && h.requestId == Some(h.instances[h.mounted.value].requestId)
    ensures var h := Later(Fresh(start), evs);
            var x := h.instances[h.mounted.value];
            !Derive(h.requestId, h.state).isPolling
            <==> x.done || (!x.heard && h.state.requestId == h.requestId && h.state.settled)
  {
    HistoryOk(Fresh(start), evs);
    var h := Later(Fresh(start), evs);
    assert InstanceOk(h, h.mounted.value);
  }

  /** An answer to the mounted instance of the rendered id is shown at once: the job, with the timeout
      sentence if it is late and not finished, or the error. Polling stops exactly then. */
  lemma AnswersAreShown(start: Time, evs: seq<Event>, i: nat, answer: Answer)
    requires IsHistory(Fresh(start), evs) && Possible(Later(Fresh(start), evs), Deliver(i, answer))
    requires var h := Later(Fresh(start), evs);
             h.mounted == Some(i) && h.requestId == Some(h.instances[i].requestId)
    ensures var h := Later(Fresh(start), evs);
            var n := Next(h, Deliver(i, answer));
            var out := Derive(n.requestId, n.state);
            match answer
            case Rejected(message) =>
              && out.job == None && !out.isPolling
              && out.error == Some(if message.Some? then message.value else "Lost contact with the server.")
            case Resolved(job) =>
              var finished := job.status == Completed || job.status == Failed;
              var late := h.now - h.instances[i].startedAt > 120000;
              && out.job == Some(job)
              && out.isPolling == (!finished && !late)
              && out.error == if !finished && late
                 then Some("The prediction is taking longer than expected. It may still finish \U{2014} check the history page.")
                 else None
  {
    HistoryOk(Fresh(start), evs);
    assert InstanceOk(Later(Fresh(start), evs), i);
  }

  /** Nothing that happens can replace what is shown but another id or another stored answer. */
  predicate LeavesShown(h: Hook, ev: Event) {
    && (ev.Render? ==> ev.id == h.requestId)
    && (ev.Deliver? ==> ev.i < |h.instances| && h.instances[ev.i].cancelled)
  }

  ghost predicate LeavesShownThroughout(h: Hook, evs: seq<Event>)
    requires IsHistory(h, evs)
    decreases |evs|
  {
    evs == [] || (LeavesShown(h, evs[0]) && LeavesShownThroughout(Next(h, evs[0]), evs[1..]))
  }

  /** So what is shown stays, through timers, flushes, teardowns and late answers of others. */
  lemma {:induction false} ShownUntilReplaced(h: Hook, evs: seq<Event>)
    requires IsHistory(h, evs) && LeavesShownThroughout(h, evs)
    ensures Derive(Later(h, evs).requestId, Later(h, evs).state) == Derive(h.requestId, h.state)
    decreases |evs|
  {
    if evs != [] {
      ShownUntilReplaced(Next(h, evs[0]), evs[1..]);
    }
  }

  /** Before an answer for the rendered id is stored, nothing is shown and polling is announced; with no
      id, nothing is shown and nothing is announced. */
  lemma NothingShownBefore(h: Hook)
    requires h.state.requestId != h.requestId || (h.requestId.None? && HookOk(h))
    ensures Derive(h.requestId, h.state) == Output(None, None, h.requestId.Some?)
  {
  }

  /** Only the mounted instance ever stores anything. */
  lemma OnlyTheMountedInstanceWrites(h: Hook, ev: Event)
    requires HookOk(h) && Possible(h, ev) && Next(h, ev).state != h.state
    ensures ev.Deliver? && h.mounted == Some(ev.i) && !h.instances[ev.i].cancelled
  {
    assert InstanceOk(h, ev.i);
  }

  /** An instance that is done or torn down sends nothing more. */
  predicate Silent(x: Instance) {
    x.done || x.cancelled
  }

  lemma SilentStep(h: Hook, ev: Event, i: nat)
    requires HookOk(h) && Possible(h, ev) && i < |h.instances| && Silent(h.instances[i])
    ensures i < |Next(h, ev).instances| && Silent(Next(h, ev).instances[i])
    ensures Next(h, ev).instances[i].sent == h.instances[i].sent
  {
    assert InstanceOk(h, i);
  }

  lemma {:induction false} NothingSentAfterSettling(h: Hook, evs: seq<Event>, i: nat)
    requires HookOk(h) && IsHistory(h, evs) && i < |h.instances| && Silent(h.instances[i])
    ensures i < |Later(h, evs).instances| && Later(h, evs).instances[i].sent == h.instances[i].sent
    decreases |evs|
  {
    if evs != [] {
      SilentStep(h, evs[0], i);
      NextOk(h, evs[0]);
      NothingSentAfterSettling(Next(h, evs[0]), evs[1..], i);
    }
  }

  // ---- the bound is reached -------------------------------------------------

  lemma {:induction false} HistoryAppend(h: Hook, evs: seq<Event>, ev: Event)
    requires IsHistory(h, evs) && Possible(Later(h, evs), ev)
    ensures IsHistory(h, evs + [ev]) && Later(h, evs + [ev]) == Next(Later(h, evs), ev)
    decreases |evs|
  {
    if evs == [] {
      assert (evs + [ev])[1..] == [];
    } else {
      assert (evs + [ev])[1..] == evs[1..] + [ev];
      HistoryAppend(Next(h, evs[0]), evs[1..], ev);
    }
  }

  lemma Extended(start: Time, evs: seq<Event>, ev: Event) returns (more: seq<Event>, h: Hook)
    requires IsHistory(Fresh(start), evs) && Possible(Later(Fresh(start), evs), ev)
    ensures IsHistory(Fresh(start), more) && h == Later(Fresh(start), more) == Next(Later(Fresh(start), evs), ev)
  {
    HistoryAppend(Fresh(start), evs, ev);
    more, h := evs + [ev], Next(Later(Fresh(start), evs), ev);
  }

  /** The exception in PollingFlagIsExact happens: going back to an id that settled before any other
      id stored an answer polls again without saying so. */
  lemma RevisitLooksSettled(a: Id, b: Id, job: JobDto) returns (evs: seq<Event>)
    requires a != "" && b != "" && a != b && Terminal(job.status)
    ensures IsHistory(Fresh(0), evs)
    ensures var h := Later(Fresh(0), evs);
            && h.requestId == Some(a) && h.mounted.Some? && h.mounted.value < |h.instances|
            && h.instances[h.mounted.value].requestId == a && h.instances[h.mounted.value].inFlight
            && !h.instances[h.mounted.value].cancelled
            && !Derive(h.requestId, h.state).isPolling
  {
    var h;
    evs, h := Extended(0, [], Render(Some(a)));
    evs, h := Extended(0, evs, Flush);
    evs, h := Extended(0, evs, Deliver(0, Resolved(job)));
    evs, h := Extended(0, evs, Render(Some(b)));
    evs, h := Extended(0, evs, Flush);
    evs, h := Extended(0, evs, Render(Some(a)));
    evs, h := Extended(0, evs, Flush);
  }

  /** With instant `pending` answers and punctual timers, every count up to 135 is reached. */
  lemma {:induction false} BoundIsReached(id: Id, pending: JobDto, k: nat) returns (evs: seq<Event>)
    requires id != "" && !Terminal(pending.status) && 1 <= k <= MAX_REQUESTS
    ensures IsHistory(Fresh(0), evs)
    ensures var h := Later(Fresh(0), evs);
            && |h.instances| == 1 && h.now == POLL_INTERVAL_MS * (k - 1)
            && h.instances[0].sent == k && h.instances[0].inFlight
            && !h.instances[0].cancelled && h.instances[0].startedAt == 0
    decreases k
  {
    if k == 1 {
      evs := [];
      HistoryAppend(Fresh(0), evs, Render(Some(id)));
      evs := evs + [Render(Some(id))];
      HistoryAppend(Fresh(0), evs, Flush);
      evs := evs + [Flush];
    } else {
      evs := BoundIsReached(id, pending, k - 1);
      HistoryAppend(Fresh(0), evs, Deliver(0, Resolved(pending)));
      evs := evs + [Deliver(0, Resolved(pending))];
      HistoryAppend(Fresh(0), evs, Tick(POLL_INTERVAL_MS));
      evs := evs + [Tick(POLL_INTERVAL_MS)];
      HistoryAppend(Fresh(0), evs, Fire(0));
      evs := evs + [Fire(0)];
    }
  }
}
