/**
 * The countdown timer hook: a seconds counter and an active flag. While
 * active and above zero, every interval firing takes one second off; the
 * effect that runs after every change stops a timer that is active at zero.
 * Interval firings are explicit `Tick` calls.
 */
module UseTimer {

  datatype TimerState = TimerState(currentSeconds: int, isActive: bool)

  /** The effect run after every change: an active timer at zero stops. */
  function Settle(s: TimerState): (r: TimerState)
    ensures r.currentSeconds == s.currentSeconds
    ensures r.isActive <==> s.isActive && s.currentSeconds != 0
  {
    if s.isActive && s.currentSeconds == 0 then s.(isActive := false) else s
  }

  /** Whether the effect keeps an interval running. */
  predicate Running(s: TimerState) {
    s.isActive && s.currentSeconds > 0
  }

  /** One interval firing, followed by the effect. */
  function TickStep(s: TimerState): (r: TimerState)
    ensures Running(s) ==> r.currentSeconds == s.currentSeconds - 1
    ensures !Running(s) ==> r.currentSeconds == s.currentSeconds
    ensures r.isActive <==> s.isActive && s.currentSeconds != 0 && s.currentSeconds != 1
  {
    Settle(if Running(s) then s.(currentSeconds := s.currentSeconds - 1) else s)
  }

  function AfterTicks(s: TimerState, n: nat): TimerState
    decreases n
  {
    if n == 0 then s else AfterTicks(TickStep(s), n - 1)
  }

  class Timer {
    const seconds: int
    var currentSeconds: int
    var isActive: bool

    function State(): TimerState
      reads this
    {
      TimerState(currentSeconds, isActive)
    }

    /** The timer starts at `seconds`, active when `defaultStarted`. */
    constructor (seconds: int, defaultStarted: bool)
      ensures this.seconds == seconds
      ensures State() == Settle(TimerState(seconds, defaultStarted))
    {
      this.seconds := seconds;
      currentSeconds := seconds;
      isActive := defaultStarted && seconds != 0;
    }

    /** `start`: activates without touching the count. */
    method Start()
      modifies this
      ensures State() == Settle(old(State()).(isActive := true))
    {
      isActive := currentSeconds != 0;
    }

    /** `restart`: back to `seconds`, active. */
    method Restart()
      modifies this
      ensures State() == Settle(TimerState(seconds, true))
    {
      currentSeconds := seconds;
      isActive := seconds != 0;
    }

    /** One interval firing; there is none unless the timer is running. */
    method Tick()
      modifies this
      ensures State() == TickStep(old(State()))
    {
      if isActive && currentSeconds > 0 {
        currentSeconds := currentSeconds - 1;
      }
      if isActive && currentSeconds == 0 {
        isActive := false;
      }
    }
  }

  /** A tick never takes the count below zero, and is never left active at zero. */
  lemma TickBounds(s: TimerState)
    requires s.currentSeconds >= 0
    ensures 0 <= TickStep(s).currentSeconds <= s.currentSeconds
    ensures !(TickStep(s).isActive && TickStep(s).currentSeconds == 0)
  {
  }

  /** A started timer of `n` seconds counts down to zero in exactly `n` ticks and then stops. */
  lemma {:induction false} RunsDown(n: nat)
    ensures AfterTicks(Settle(TimerState(n, true)), n) == TimerState(0, false)
  {
    if n > 0 {
      RunsDownFrom(n);
    }
  }

  lemma {:induction false} RunsDownFrom(k: nat)
    requires k > 0
    ensures AfterTicks(TimerState(k, true), k) == TimerState(0, false)
    decreases k
  {
    if k == 1 {
      assert TickStep(TimerState(1, true)) == TimerState(0, false);
    } else {
      assert TickStep(TimerState(k, true)) == TimerState(k - 1, true);
      RunsDownFrom(k - 1);
    }
  }

  /** Before that it is still running, one second less per tick. */
  lemma {:induction false} CountsOnePerTick(n: nat, t: nat)
    requires t < n
    ensures AfterTicks(TimerState(n, true), t) == TimerState(n - t, true)
    decreases t
  {
    if t > 0 {
      assert TickStep(TimerState(n, true)) == TimerState(n - 1, true);
      CountsOnePerTick(n - 1, t - 1);
    }
  }

  /** An inactive timer never changes, however many ticks go by. */
  lemma {:induction false} StoppedStaysPut(s: TimerState, n: nat)
    requires !s.isActive
    ensures AfterTicks(s, n) == s
    decreases n
  {
    if n > 0 {
      assert TickStep(s) == s;
      StoppedStaysPut(s, n - 1);
    }
  }

  /** `start` on a finished timer does nothing: only `restart` brings the count back. */
  lemma StartAfterFinishStaysStopped(seconds: int)
    ensures Settle(TimerState(0, false).(isActive := true)) == TimerState(0, false)
    ensures seconds > 0 ==> Running(Settle(TimerState(seconds, true)))
  {
  }

  /** A negative count is never stopped by the effect and never ticks: the timer stays active forever. */
  lemma {:induction false} NegativeNeverStops(s: TimerState, n: nat)
    requires s.isActive && s.currentSeconds < 0
    ensures AfterTicks(s, n) == s
    decreases n
  {
    if n > 0 {
      assert TickStep(s) == s;
      NegativeNeverStops(s, n - 1);
    }
  }
}
