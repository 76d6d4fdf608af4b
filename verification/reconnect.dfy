/** The worker's life cycle: open, consume, back off, and leave nothing open behind. */
module Reconnect {
  import opened Domain

  const INITIAL_RECONNECT_DELAY: nat := 1
  const MAX_RECONNECT_DELAY: nat := 15

  function Min(a: nat, b: nat): nat {
    if a < b then a else b
  }

  /** Where an attempt to open stops. */
  datatype Stage = Connecting | OpeningChannel | Declaring | Opened

  /** How one turn of the reconnect loop goes. `AmqpError` is one of the three pika exceptions the
      loop catches; `OtherError` is any other exception, which ends the process. */
  datatype Ending = Returns | AmqpError | OtherError

  /** When, if at all, a stop signal arrives during the turn. */
  datatype Stop = Never | BeforeCheck | WhileSleeping

  /** How closing a connection goes: it may be gone already, and the close may raise. */
  datatype Closing = AlreadyClosed | Closes | CloseRaises

  datatype Turn = Turn(stage: Stage, ending: Ending, stop: Stop, closing: Closing)

  /** Only an opened connection can end in a normal return from consuming. */
  predicate Plausible(t: Turn) {
    t.ending.Returns? ==> t.stage.Opened?
  }

  predicate AllPlausible(turns: seq<Turn>) {
    forall j | 0 <= j < |turns| :: Plausible(turns[j])
  }

  /** Failures since the last successful open, after the first n turns. */
  function Streak(turns: seq<Turn>, n: nat): nat
    requires n <= |turns|
  {
    if n == 0 then 0
    else if turns[n - 1].ending.Returns? then 0
    else if turns[n - 1].stage.Opened? then 1
    else Streak(turns, n - 1) + 1
  }

  function Pow2(k: nat): nat {
    if k == 0 then 1 else 2 * Pow2(k - 1)
  }

  /** The pause after the k-th failure in a row. */
  function Backoff(k: nat): nat
    requires k > 0
  {
    Min(Pow2(k - 1), MAX_RECONNECT_DELAY)
  }

  lemma BackoffDoubles(k: nat)
    requires k > 0
    ensures Backoff(1) == INITIAL_RECONNECT_DELAY
    ensures Backoff(k + 1) == Min(Backoff(k) * 2, MAX_RECONNECT_DELAY)
  {
  }

  function TotalBackoff(k: nat): nat {
    if k == 0 then 0 else TotalBackoff(k - 1) + Backoff(k)
  }

  lemma {:induction false} PowersGrow(k: nat)
    requires k >= 4
    ensures Pow2(k) >= 16
  {
    if k == 4 {
      assert Pow2(4) == 2 * Pow2(3) == 4 * Pow2(2) == 8 * Pow2(1);
    } else {
      PowersGrow(k - 1);
    }
  }

  /** The time slept over k failures in a row: doubling for four of them, then 15 s each. */
  lemma {:induction false} TotalBackoffClosedForm(k: nat)
    ensures k <= 4 ==> TotalBackoff(k) == Pow2(k) - 1
    ensures k >= 4 ==> TotalBackoff(k) == 15 * (k - 3)
  {
    if k > 0 {
      TotalBackoffClosedForm(k - 1);
      if k > 4 {
        PowersGrow(k - 1);
      } else {
        assert Pow2(0) == 1 && Pow2(1) == 2 && Pow2(2) == 4 && Pow2(3) == 8 && Pow2(4) == 16;
      }
    }
  }

  /** The turn ends the loop. */
  predicate Last(t: Turn) {
    !t.stop.Never? || t.ending.OtherError?
  }

  /** The pause after turn i: none unless the loop caught an error and was not told to stop. */
  function Pause(turns: seq<Turn>, i: nat): nat
    requires i < |turns|
    requires AllPlausible(turns)
  {
    if turns[i].ending.AmqpError? && !turns[i].stop.BeforeCheck?
    then Backoff(Streak(turns, i + 1))
    else 0
  }

  /** The turn after which the current streak of failures began. */
  function StreakStart(turns: seq<Turn>, n: nat): (k: nat)
    requires n <= |turns|
    ensures k <= n
  {
    if n == 0 then 0
    else if turns[n - 1].ending.Returns? then n
    else if turns[n - 1].stage.Opened? then n - 1
    else StreakStart(turns, n - 1)
  }

  function Total(pauses: seq<nat>): nat {
    if pauses == [] then 0 else Total(pauses[..|pauses| - 1]) + pauses[|pauses| - 1]
  }

  /** The pauses of the current streak add up to the closed form of its length. */
  lemma {:induction false} StreakSleeps(turns: seq<Turn>, slept: seq<nat>, n: nat)
    requires n <= |slept| <= |turns| && AllPlausible(turns)
    requires forall j | 0 <= j < n :: slept[j] == Pause(turns, j) && !Last(turns[j])
    ensures Total(slept[StreakStart(turns, n)..n]) == TotalBackoff(Streak(turns, n))
  {
    hide Backoff, Pow2;
    if n > 0 && !turns[n - 1].ending.Returns? {
      var k := StreakStart(turns, n);
      assert slept[k..n][..n - k - 1] == slept[k..n - 1];
      if !turns[n - 1].stage.Opened? {
        StreakSleeps(turns, slept, n - 1);
      }
    }
  }

  lemma StreakSleepsClosedForm(turns: seq<Turn>, slept: seq<nat>, n: nat)
    requires n <= |slept| <= |turns| && AllPlausible(turns)
    requires forall j | 0 <= j < n :: slept[j] == Pause(turns, j) && !Last(turns[j])
    ensures var k := Streak(turns, n);
            Total(slept[StreakStart(turns, n)..n]) == if k <= 4 then Pow2(k) - 1 else 15 * (k - 3)
  {
    hide Pow2, TotalBackoff;
    StreakSleeps(turns, slept, n);
    TotalBackoffClosedForm(Streak(turns, n));
  }

  /** After the k-th failure in a row comes a sleep of min(2^(k-1), 15) s; a turn that ended otherwise, or
      that was told to stop before the check, adds none. */
  ghost predicate SleepsAsPlanned(turns: seq<Turn>, slept: seq<nat>)
    requires |slept| <= |turns|
  {
    forall i | 0 <= i < |slept| ::
      if turns[i].ending.AmqpError? && !turns[i].stop.BeforeCheck?
      then Streak(turns, i + 1) > 0 && slept[i] == Min(Pow2(Streak(turns, i + 1) - 1), 15)
      else slept[i] == 0
  }

  /** At every point of the run, and after its last turn unless that ended it, the sleep since the last
      successful open adds up to 2^k - 1 s for k failures, or 15 (k - 3) s from four on. */
  ghost predicate StreaksAddUp(turns: seq<Turn>, slept: seq<nat>, ended: bool)
    requires |slept| <= |turns|
  {
    forall n | 0 <= n <= |slept| && (n == |slept| ==> !ended) ::
      var k := Streak(turns, n);
      Total(slept[StreakStart(turns, n)..n]) == if k <= 4 then Pow2(k) - 1 else 15 * (k - 3)
  }

  ghost predicate SleptPauses(turns: seq<Turn>, slept: seq<nat>)
    requires |slept| <= |turns| && AllPlausible(turns)
  {
    forall j | 0 <= j < |slept| :: slept[j] == Pause(turns, j)
  }

  lemma PausesArePlanned(turns: seq<Turn>, slept: seq<nat>)
    requires |slept| <= |turns| && AllPlausible(turns) && SleptPauses(turns, slept)
    ensures SleepsAsPlanned(turns, slept)
  {
    hide Pow2;
  }

  lemma PausesAddUp(turns: seq<Turn>, slept: seq<nat>, ended: bool)
    requires |slept| <= |turns| && AllPlausible(turns) && SleptPauses(turns, slept)
    requires forall j | 0 <= j < |slept| - 1 :: !Last(turns[j])
    requires !ended && slept != [] ==> !Last(turns[|slept| - 1])
    ensures StreaksAddUp(turns, slept, ended)
  {
    hide Pow2, Streak, Total, StreakStart, Pause, Last, Plausible;
    forall n | 0 <= n <= |slept| && (n == |slept| ==> !ended)
      ensures var k := Streak(turns, n);
              Total(slept[StreakStart(turns, n)..n]) == if k <= 4 then Pow2(k) - 1 else 15 * (k - 3)
    {
      StreakSleepsClosedForm(turns, slept, n);
    }
  }

  class InferenceWorker {
    var connection: Option<nat>
    var channel: Option<nat>
    var stopping: bool
    ghost var live: set<nat> // connections the broker still sees as open

    constructor ()
      ensures connection == None && channel == None && !stopping && live == {}
    {
      connection, channel, stopping, live := None, None, false, {};
    }

    /** _open: each stage may raise, leaving what was opened before it. */
    method Open(id: nat, stage: Stage) returns (ok: bool)
      requires connection.None? && channel.None?
      modifies this`connection, this`channel, this`live
      ensures ok <==> stage.Opened?
      ensures live == if stage.Connecting? then old(live) else old(live) + {id}
      ensures connection.Some? ==> connection.value == id
      ensures connection.Some? <==> !stage.Connecting?
      ensures channel.Some? <==> stage.Declaring? || stage.Opened?
    {
      if stage.Connecting? {
        return false;
      }
      connection := Some(id);
      live := live + {id};
      if stage.OpeningChannel? {
        return false;
      }
      channel := Some(id);
      ok := stage.Opened?;
    }

    /** connection.close(), on a connection that is open. */
    method Close(raises: bool) returns (raised: bool)
      requires connection.Some?
      modifies this`live
      ensures raised == raises
      ensures live == if raised then old(live) else old(live) - {connection.value}
    {
      if !raises {
        live := live - {connection.value};
      }
      raised := raises;
    }

    /** _close_quietly: what closing raises is swallowed, and nothing stays set whether it raises or
        not. A connection whose close did not raise is gone for the broker too. */
    method CloseQuietly(closing: Closing)
      modifies this`connection, this`channel, this`live
      ensures connection == None && channel == None
      ensures live == if old(connection).Some? && !closing.CloseRaises?
                        then old(live) - {old(connection).value} else old(live)
    {
      if connection.Some? {
        if closing.AlreadyClosed? {
          live := live - {connection.value};
        } else {
          var _ := Close(closing.CloseRaises?);
        }
      }
      connection, channel := None, None;
    }

    /** One turn of the loop: open, consume, pause after a caught error, close. `delay` is what the next
        pause would be. */
    method TakeTurn(turns: seq<Turn>, i: nat, delay: nat) returns (pause: nat, next: nat, raised: bool)
      requires i < |turns| && AllPlausible(turns)
      requires connection == None && channel == None && !stopping
      requires delay == Backoff(Streak(turns, i) + 1)
      modifies this
      ensures connection == None && channel == None
      ensures pause == Pause(turns, i)
      ensures raised <==> turns[i].ending.OtherError?
      ensures stopping <==> !turns[i].stop.Never?
      ensures !raised && !stopping ==> next == Backoff(Streak(turns, i + 1) + 1)
      ensures live <= old(live) + (if turns[i].closing.CloseRaises? then {i} else {})
    {
      hide Pow2, Backoff;
      BackoffDoubles(1);
      var t := turns[i];
      next, pause, raised := delay, 0, false;
      var ok := Open(i, t.stage);
      if ok {
        next := INITIAL_RECONNECT_DELAY;
      }
      stopping := t.stop.BeforeCheck? || (t.stop.WhileSleeping? && !t.ending.AmqpError?);
      if t.ending.OtherError? {
        raised := true;
      } else if t.ending.AmqpError? && !stopping {
        pause := next;
        BackoffDoubles(if ok then 1 else Streak(turns, i) + 1);
        next := Min(next * 2, MAX_RECONNECT_DELAY);
        stopping := t.stop.WhileSleeping?;
      }
      CloseQuietly(t.closing);
    }

    /** run, over the turns the environment has in store. `slept` lists the pause after each turn,
        0 for none; `raised` says an exception left the loop. After the k-th failure since the last
        successful open the worker sleeps min(2^(k-1), 15) s, its sleep since then adds up to 2^k - 1 s,
        or 15 (k - 3) s from four failures on, and it leaves no connection or channel set, nor open
        unless closing it raised. */
    method Run(turns: seq<Turn>) returns (slept: seq<nat>, raised: bool)
      requires AllPlausible(turns)
      requires connection == None && channel == None && !stopping && live == {}
      modifies this
      ensures |slept| <= |turns| && (|slept| < |turns| ==> stopping || raised)
      ensures SleepsAsPlanned(turns, slept) && StreaksAddUp(turns, slept, stopping || raised)
      ensures forall i | 0 <= i < |slept| - 1 :: turns[i].stop.Never? && !turns[i].ending.OtherError?
      ensures stopping <==> slept != [] && !turns[|slept| - 1].stop.Never?
      ensures raised <==> slept != [] && turns[|slept| - 1].ending.OtherError?
      ensures forall c | c in live :: c < |slept| && turns[c].closing.CloseRaises?
      ensures connection == None && channel == None
    {
      BackoffDoubles(1);
      assert Streak(turns, 0) == 0;
      hide Pow2, Backoff, Streak, AllPlausible, SleepsAsPlanned, StreaksAddUp;
      var delay := INITIAL_RECONNECT_DELAY;
      slept, raised := [], false;
      while |slept| < |turns| && !stopping && !raised
        invariant |slept| <= |turns| && SleptPauses(turns, slept)
        invariant connection == None && channel == None
        invariant !stopping && !raised ==> delay == Backoff(Streak(turns, |slept|) + 1)
        invariant forall c | c in live :: c < |slept| && turns[c].closing.CloseRaises?
        invariant stopping <==> slept != [] && !turns[|slept| - 1].stop.Never?
        invariant raised <==> slept != [] && turns[|slept| - 1].ending.OtherError?
        invariant forall j | 0 <= j < |slept| - 1 :: turns[j].stop.Never? && !turns[j].ending.OtherError?
        decreases |turns| - |slept|
      {
        var pause;
        pause, delay, raised := TakeTurn(turns, |slept|, delay);
        slept := slept + [pause];
      }
      PausesArePlanned(turns, slept);
      PausesAddUp(turns, slept, stopping || raised);
    }
  }
}
