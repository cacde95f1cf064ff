/**
 * The countdown of one memory cycle (src/hooks/useMemoryTimer.ts): the phase
 * classifier, the clock rendering and the timer state machine.
 *
 * React's scheduling becomes explicit calls: `Tick` is one firing of the
 * one-second interval, `FireDelayedReset` is the three-second timeout that
 * follows the last tick, and `Sync` is one run of the effect that reconciles
 * the timer with the `isTimerActive`/`autoStart` props. The callbacks the hook
 * receives (`onPhaseChange`, `onTimerStateChange`, `onReset`) are recorded as
 * events in the order they are called.
 */
module MemoryTimer {
  import opened Types
  import opened Text

  /**
   * `calculatePhase`: `reset` once nothing remains, then `critical` in the last
   * 17% of the cycle, `urgency` in the last 44%, and `awareness` before that.
   * The first matching test wins, so a boundary value falls into the more
   * urgent phase. The fractions are compared exactly, in integers.
   */
  function CalculatePhase(remaining: int, total: int): (p: Phase)
    ensures p == Reset <==> remaining <= 0
    ensures p == Critical <==> 0 < remaining && 100 * remaining <= 17 * total
    ensures p == Urgency <==> 0 < remaining && 17 * total < 100 * remaining <= 44 * total
    ensures p == Awareness <==> 0 < remaining && 100 * remaining > 17 * total && 100 * remaining > 44 * total
  {
    if remaining <= 0 then Reset
    else if 100 * remaining <= 17 * total then Critical
    else if 100 * remaining <= 44 * total then Urgency
    else Awareness
  }

  /** How far along the cycle a phase is: awareness 0, urgency 1, critical 2, reset 3. */
  function Severity(p: Phase): nat {
    match p
    case Awareness => 0
    case Urgency => 1
    case Critical => 2
    case Reset => 3
  }

  /** Less time remaining never means a calmer phase. */
  lemma PhaseMonotone(a: int, b: int, total: int)
    requires a <= b
    ensures Severity(CalculatePhase(a, total)) >= Severity(CalculatePhase(b, total))
  {
  }

  /** The boundaries of the 180-second cycle the application uses. */
  lemma Phases180()
    ensures CalculatePhase(180, 180) == Awareness
    ensures CalculatePhase(80, 180) == Awareness
    ensures CalculatePhase(79, 180) == Urgency
    ensures CalculatePhase(31, 180) == Urgency
    ensures CalculatePhase(30, 180) == Critical
    ensures CalculatePhase(1, 180) == Critical
    ensures CalculatePhase(0, 180) == Reset
  {
  }

  /**
   * The phases announced by the ticks that run a timer down from `t` seconds
   * while it shows `phase`: each tick announces the phase of the decremented
   * time when that phase differs from the one shown.
   */
  function TickRun(total: int, t: nat, phase: Phase): seq<Phase>
    decreases t
  {
    if t == 0 then []
    else
      var p := CalculatePhase(t - 1, total);
      (if p != phase then [p] else []) + TickRun(total, t - 1, p)
  }

  /** Ticks through a stretch in which the phase stays the same announce nothing. */
  lemma {:induction false} SteadyRun(total: int, t: nat, lo: nat, phase: Phase)
    requires lo <= t
    requires forall r :: lo <= r < t ==> CalculatePhase(r, total) == phase
    ensures TickRun(total, t, phase) == TickRun(total, lo, phase)
    decreases t
  {
    if lo < t {
      SteadyRun(total, t - 1, lo, phase);
    }
  }

  /** A full 180-second cycle announces urgency, critical and reset, in that order. */
  lemma FullCycle180()
    ensures TickRun(180, 180, Awareness) == [Urgency, Critical, Reset]
  {
    AwarenessStretch180();
    UrgencyStretch180();
    CriticalStretch180();
  }

  lemma AwarenessStretch180()
    ensures TickRun(180, 180, Awareness) == [Urgency] + TickRun(180, 79, Urgency)
  {
    assert forall r :: 80 <= r < 180 ==> CalculatePhase(r, 180) == Awareness;
    SteadyRun(180, 180, 80, Awareness);
    assert CalculatePhase(79, 180) == Urgency;
  }

  lemma UrgencyStretch180()
    ensures TickRun(180, 79, Urgency) == [Critical] + TickRun(180, 30, Critical)
  {
    assert forall r :: 31 <= r < 79 ==> CalculatePhase(r, 180) == Urgency;
    SteadyRun(180, 79, 31, Urgency);
    assert CalculatePhase(30, 180) == Critical;
  }

  lemma CriticalStretch180()
    ensures TickRun(180, 30, Critical) == [Reset]
  {
    assert forall r :: 1 <= r < 30 ==> CalculatePhase(r, 180) == Critical;
    SteadyRun(180, 30, 1, Critical);
    assert CalculatePhase(0, 180) == Reset;
    assert TickRun(180, 1, Critical) == [Reset] + TickRun(180, 0, Reset);
  }

  /** The announced phases are all further along than `floor`, each further than the one before. */
  predicate Rising(events: seq<Phase>, floor: nat) {
    (forall i :: 0 <= i < |events| ==> Severity(events[i]) > floor)
    && (forall i, j :: 0 <= i < j < |events| ==> Severity(events[i]) < Severity(events[j]))
  }

  lemma RisingCons(p: Phase, rest: seq<Phase>, floor: nat)
    requires Severity(p) > floor && Rising(rest, Severity(p))
    ensures Rising([p] + rest, floor)
  {
    var run := [p] + rest;
    assert forall i :: 0 < i < |run| ==> run[i] == rest[i - 1];
  }

  /**
   * Running any cycle down from a consistent state announces phases in strictly
   * rising order, and, when there was time left, ends by announcing reset.
   */
  lemma {:induction false} TickRunRises(total: int, t: nat, phase: Phase)
    requires phase == CalculatePhase(t, total)
    ensures var run := TickRun(total, t, phase);
      Rising(run, Severity(phase))
      && (t > 0 && Severity(phase) < 3 ==> |run| > 0)
      && (t > 0 && |run| > 0 ==> Last(run) == Reset)
    decreases t
  {
    if t > 0 {
      var p := CalculatePhase(t - 1, total);
      var rest := TickRun(total, t - 1, p);
      assert Severity(p) >= Severity(phase) by {
        PhaseMonotone(t - 1, t, total);
      }
      TickRunRises(total, t - 1, p);
      if p != phase {
        assert TickRun(total, t, phase) == [p] + rest;
        RisingCons(p, rest, Severity(phase));
        LastCons(p, rest);
      } else {
        assert TickRun(total, t, phase) == rest;
        assert t - 1 > 0;
      }
    }
  }

  function Last(s: seq<Phase>): Phase
    requires |s| > 0
  {
    s[|s| - 1]
  }

  lemma LastCons(p: Phase, rest: seq<Phase>)
    ensures Last([p] + rest) == if |rest| == 0 then p else Last(rest)
  {
  }

  /** `s.padStart(2, '0')`. */
  function PadStart2(s: string): (r: string)
    ensures |s| >= 2 ==> r == s
    ensures |s| < 2 ==> |r| == 2 && r[2 - |s|..] == s && forall i :: 0 <= i < 2 - |s| ==> r[i] == '0'
    decreases 2 - |s|
  {
    if |s| >= 2 then s else PadStart2(['0'] + s)
  }

  /** `formatTime`: whole minutes, a colon, and the seconds as two digits. */
  function FormatTime(seconds: nat): string {
    NatToString(seconds / 60) + [':'] + PadStart2(NatToString(seconds % 60))
  }

  /** Reads an `m:ss` clock back: one or more digits, a colon, exactly two digits. */
  function ParseClock(s: string): Option<(nat, nat)> {
    var parts := Split(s, ':');
    if |parts| == 2 && |parts[0]| >= 1 && AllDigits(parts[0]) && |parts[1]| == 2 && AllDigits(parts[1]) then
      Some((DigitsValue(parts[0]), DigitsValue(parts[1])))
    else
      None
  }

  /** The two-digit rendering of a number below one hundred. */
  lemma TwoDigits(n: nat)
    requires n < 100
    ensures PadStart2(NatToString(n)) == [DigitChar(n / 10), DigitChar(n % 10)]
  {
    if n < 10 {
      PaddedDigit(n);
    } else {
      RenderedPair(n / 10, n % 10);
    }
  }

  lemma PaddedDigit(d: nat)
    requires d < 10
    ensures PadStart2(NatToString(d)) == ['0', DigitChar(d)]
  {
    var r := PadStart2([DigitChar(d)]);
    assert r[1..] == [DigitChar(d)];
    assert r == [r[0]] + r[1..];
  }

  lemma RenderedPair(a: nat, b: nat)
    requires 1 <= a < 10 && b < 10
    ensures PadStart2(NatToString(10 * a + b)) == [DigitChar(a), DigitChar(b)]
  {
    var n := 10 * a + b;
    assert n / 10 == a && n % 10 == b;
    assert NatToString(n) == NatToString(a) + [DigitChar(b)];
  }

  lemma TwoDigitsValue(a: nat, b: nat)
    requires a < 10 && b < 10
    ensures DigitsValue([DigitChar(a), DigitChar(b)]) == 10 * a + b
  {
    var s := [DigitChar(a), DigitChar(b)];
    assert DigitsValue([DigitChar(a)]) == a by {
      assert [DigitChar(a)][..0] == [];
    }
    assert s[..1] == [DigitChar(a)];
  }

  lemma SplitWithoutSeparator(s: string, sep: char)
    requires sep !in s
    ensures Split(s, sep) == [s]
  {
    SplitJoin([s], sep);
  }

  /** A clock splits at its colon into the minutes and the seconds. */
  lemma SplitClock(m: string, pad: string)
    requires ':' !in m && ':' !in pad
    ensures Split(m + [':'] + pad, ':') == [m, pad]
  {
    SplitWithoutSeparator(pad, ':');
    var tail := [':'] + pad;
    assert tail[1..] == pad;
    assert Split(tail, ':') == [[], pad];
    SplitPrefix(m, tail, ':');
    assert m + [':'] + pad == m + tail;
    assert m + [] == m;
  }

  lemma DigitsHaveNoColon(s: string)
    requires AllDigits(s)
    ensures ':' !in s
  {
  }

  /**
   * The rendered clock reads back as the minutes and the seconds, so it
   * determines the number of seconds it was made from.
   */
  lemma {:induction false} FormatTimeRoundTrip(seconds: nat)
    ensures ParseClock(FormatTime(seconds)) == Some((seconds / 60, seconds % 60))
    ensures seconds == (seconds / 60) * 60 + seconds % 60
  {
    var m := NatToString(seconds / 60);
    var sec := seconds % 60;
    var pad := PadStart2(NatToString(sec));
    TwoDigits(sec);
    assert |pad| == 2 && AllDigits(pad);
    DigitsHaveNoColon(m);
    DigitsHaveNoColon(pad);
    SplitClock(m, pad);
    var parts := Split(FormatTime(seconds), ':');
    assert parts == [m, pad];
    DigitsValueOfNatToString(seconds / 60);
    TwoDigitsValue(sec / 10, sec % 10);
    assert DigitsValue(parts[0]) == seconds / 60;
    assert DigitsValue(parts[1]) == sec;
  }

  /** The clock at the start of the application's cycle. */
  lemma ClockAtStart()
    ensures FormatTime(180) == "3:00"
  {
    assert 180 / 60 == 3 && 180 % 60 == 0;
    assert NatToString(3) == ['3'];
    assert NatToString(0) == ['0'];
    assert PadStart2(['0']) == ['0', '0'] by {
      assert ['0'] + ['0'] == ['0', '0'];
    }
    assert ['3'] + [':'] + ['0', '0'] == "3:00";
  }

  /** The clock in the last minute of the application's cycle. */
  lemma ClockInLastMinute()
    ensures FormatTime(59) == "0:59"
  {
    assert 59 / 60 == 0 && 59 % 60 == 59;
    assert NatToString(0) == ['0'];
    assert NatToString(59) == ['5', '9'] by {
      assert 59 / 10 == 5 && 59 % 10 == 9;
      assert NatToString(5) == ['5'];
    }
    assert PadStart2(['5', '9']) == ['5', '9'];
    assert ['0'] + [':'] + ['5', '9'] == "0:59";
  }

  /** A callback the timer makes, in the order it makes them. */
  datatype TimerEvent =
    | PhaseChanged(phase: Phase)        // onPhaseChange
    | TimerStateChanged(active: bool)   // onTimerStateChange
    | ResetNotified                     // onReset

  /** The phase-change callback a tick makes when the phase moves from `from` to `to`. */
  function PhaseEvents(from: Phase, to: Phase): seq<TimerEvent> {
    if to != from then [PhaseChanged(to)] else []
  }

  /** The `onPhaseChange` calls that announce `phases`, in order. */
  function Announcements(phases: seq<Phase>): (r: seq<TimerEvent>)
    ensures |r| == |phases| && forall i :: 0 <= i < |phases| ==> r[i] == PhaseChanged(phases[i])
  {
    seq(|phases|, i requires 0 <= i < |phases| => PhaseChanged(phases[i]))
  }

  lemma AnnouncementsAppend(a: seq<Phase>, b: seq<Phase>)
    ensures Announcements(a + b) == Announcements(a) + Announcements(b)
  {
    assert forall i :: 0 <= i < |a| ==> (a + b)[i] == a[i];
    assert forall i :: |a| <= i < |a| + |b| ==> (a + b)[i] == b[i - |a|];
  }

  /** The callbacks of a full 180-second run: urgency, critical and reset, once each. */
  lemma FullCycle180Announcements()
    ensures Announcements(TickRun(180, 180, Awareness))
      == [PhaseChanged(Urgency), PhaseChanged(Critical), PhaseChanged(Reset)]
  {
    FullCycle180();
  }

  /** One tick's announcement followed by the rest of the run is the whole run's announcements. */
  lemma AnnouncedStep(total: int, t: nat, phase: Phase, events: seq<TimerEvent>)
    requires t > 0
    ensures var p := CalculatePhase(t - 1, total);
      events + PhaseEvents(phase, p) + Announcements(TickRun(total, t - 1, p))
        == events + Announcements(TickRun(total, t, phase))
  {
    var p := CalculatePhase(t - 1, total);
    var first := if p != phase then [p] else [];
    assert TickRun(total, t, phase) == first + TickRun(total, t - 1, p);
    AnnouncementsAppend(first, TickRun(total, t - 1, p));
    assert Announcements(first) == PhaseEvents(phase, p);
  }

  /** The state the hook keeps, with its props. */
  class Timer {
    const cycleLength: int
    var autoStart: bool
    var isTimerActive: bool
    var timeRemaining: int
    var currentPhase: Phase
    var isActive: bool
    /**
     * Three-second reset timeouts scheduled and not yet fired, oldest first.
     * Each holds the `autoStart && isTimerActive` that the `resetTimer` it
     * calls closed over when the last tick scheduled it.
     */
    var pendingResets: seq<bool>
    var events: seq<TimerEvent>

    /**
     * The remaining time stays within the cycle, the phase shown is the one
     * the remaining time calls for, and a timer at zero is never running.
     */
    ghost predicate Valid()
      reads this
    {
      cycleLength > 0
      && 0 <= timeRemaining <= cycleLength
      && currentPhase == CalculatePhase(timeRemaining, cycleLength)
      && (isActive ==> timeRemaining > 0)
    }

    /** The hook's initial state. */
    constructor(cycleLength: int, autoStart: bool, isTimerActive: bool)
      requires cycleLength > 0
      ensures Valid()
      ensures this.cycleLength == cycleLength && this.autoStart == autoStart && this.isTimerActive == isTimerActive
      ensures timeRemaining == cycleLength && currentPhase == Awareness
      ensures isActive == (autoStart && isTimerActive)
      ensures pendingResets == [] && events == []
    {
      this.cycleLength := cycleLength;
      this.autoStart := autoStart;
      this.isTimerActive := isTimerActive;
      timeRemaining := cycleLength;
      currentPhase := Awareness;
      isActive := autoStart && isTimerActive;
      pendingResets := [];
      events := [];
    }

    /** `startTimer`: runs a fresh cycle from the top. */
    method StartTimer()
      requires Valid()
      modifies this
      ensures Valid()
      ensures isActive && timeRemaining == cycleLength && currentPhase == Awareness
      ensures events == old(events) + [TimerStateChanged(true)]
      ensures autoStart == old(autoStart) && isTimerActive == old(isTimerActive) && pendingResets == old(pendingResets)
    {
      isActive := true;
      timeRemaining := cycleLength;
      currentPhase := Awareness;
      events := events + [TimerStateChanged(true)];
    }

    /** `pauseTimer`: stops the countdown where it is. */
    method PauseTimer()
      requires Valid()
      modifies this
      ensures Valid()
      ensures !isActive
      ensures timeRemaining == old(timeRemaining) && currentPhase == old(currentPhase)
      ensures events == old(events) + [TimerStateChanged(false)]
      ensures autoStart == old(autoStart) && isTimerActive == old(isTimerActive) && pendingResets == old(pendingResets)
    {
      isActive := false;
      events := events + [TimerStateChanged(false)];
    }

    /** `resetTimer`: back to a full cycle, running only if both props allow it. */
    method ResetTimer()
      requires Valid()
      modifies this
      ensures Valid()
      ensures timeRemaining == cycleLength && currentPhase == Awareness
      ensures isActive == (autoStart && isTimerActive)
      ensures events == old(events) + [ResetNotified]
      ensures autoStart == old(autoStart) && isTimerActive == old(isTimerActive) && pendingResets == old(pendingResets)
    {
      Restart(autoStart && isTimerActive);
    }

    /** The body of a `resetTimer` whose props gave `resume`. */
    method Restart(resume: bool)
      requires Valid()
      modifies this
      ensures Valid()
      ensures timeRemaining == cycleLength && currentPhase == Awareness && isActive == resume
      ensures events == old(events) + [ResetNotified]
      ensures autoStart == old(autoStart) && isTimerActive == old(isTimerActive) && pendingResets == old(pendingResets)
    {
      timeRemaining := cycleLength;
      currentPhase := Awareness;
      isActive := resume;
      events := events + [ResetNotified];
    }

    /**
     * One firing of the one-second interval, which exists only while the
     * timer runs with time left. The time drops by one second; the phase is
     * announced only when it changes; at zero the timer stops and schedules
     * the delayed reset.
     */
    method Tick()
      requires Valid()
      modifies this
      ensures Valid()
      ensures !old(isActive) ==> unchanged(this)
      ensures old(isActive) ==> timeRemaining == old(timeRemaining) - 1
      ensures old(isActive) ==> currentPhase == CalculatePhase(old(timeRemaining) - 1, cycleLength)
      ensures old(isActive) ==> events == old(events) + PhaseEvents(old(currentPhase), currentPhase)
      ensures old(isActive) ==> isActive == (timeRemaining > 0)
      ensures old(isActive) ==>
        pendingResets == old(pendingResets) + (if timeRemaining == 0 then [autoStart && isTimerActive] else [])
      ensures autoStart == old(autoStart) && isTimerActive == old(isTimerActive)
    {
      if isActive && timeRemaining > 0 {
        var newTime := timeRemaining - 1;
        var newPhase := CalculatePhase(newTime, cycleLength);
        if newPhase != currentPhase {
          currentPhase := newPhase;
          events := events + [PhaseChanged(newPhase)];
        }
        if newTime <= 0 {
          isActive := false;
          pendingResets := pendingResets + [autoStart && isTimerActive];
          timeRemaining := 0;
        } else {
          timeRemaining := newTime;
        }
      } else if timeRemaining <= 0 {
        isActive := false;
      }
    }

    /**
     * The interval firing until it stops: a running timer counts down to
     * zero, announcing the phases `TickRun` lists from where it stood, and
     * schedules one delayed reset.
     */
    method RunDown()
      requires Valid()
      modifies this
      ensures Valid()
      ensures !old(isActive) ==> unchanged(this)
      ensures old(isActive) ==> !isActive && timeRemaining == 0 && currentPhase == Reset
      ensures old(isActive) ==>
        events == old(events) + Announcements(TickRun(cycleLength, old(timeRemaining), old(currentPhase)))
      ensures old(isActive) ==> pendingResets == old(pendingResets) + [autoStart && isTimerActive]
      ensures autoStart == old(autoStart) && isTimerActive == old(isTimerActive)
    {
      if !isActive {
        return;
      }
      ghost var expected := old(events) + Announcements(TickRun(cycleLength, timeRemaining, currentPhase));
      while isActive
        invariant Valid()
        invariant events + Announcements(TickRun(cycleLength, timeRemaining, currentPhase)) == expected
        invariant isActive || timeRemaining == 0
        invariant pendingResets == old(pendingResets) + (if isActive then [] else [autoStart && isTimerActive])
        invariant autoStart == old(autoStart) && isTimerActive == old(isTimerActive)
        decreases timeRemaining
      {
        ghost var before := events;
        ghost var t := timeRemaining;
        ghost var phase := currentPhase;
        Tick();
        AnnouncedStep(cycleLength, t, phase, before);
      }
    }

    /**
     * The oldest three-second timeout fires and resets the timer. It runs
     * the `resetTimer` of the render that scheduled it, so whether the timer
     * resumes follows the props of that time, not the current ones.
     */
    method FireDelayedReset()
      requires Valid() && |pendingResets| > 0
      modifies this
      ensures Valid()
      ensures pendingResets == old(pendingResets[1..])
      ensures timeRemaining == cycleLength && currentPhase == Awareness
      ensures isActive == old(pendingResets[0])
      ensures events == old(events) + [ResetNotified]
      ensures autoStart == old(autoStart) && isTimerActive == old(isTimerActive)
    {
      var resume := pendingResets[0];
      pendingResets := pendingResets[1..];
      Restart(resume);
    }

    /** New values of the `isTimerActive` and `autoStart` props. */
    method SetProps(timerActive: bool, auto: bool)
      requires Valid()
      modifies this
      ensures Valid()
      ensures isTimerActive == timerActive && autoStart == auto
      ensures isActive == old(isActive) && timeRemaining == old(timeRemaining) && currentPhase == old(currentPhase)
      ensures pendingResets == old(pendingResets) && events == old(events)
    {
      isTimerActive := timerActive;
      autoStart := auto;
    }

    /**
     * The reconciliation effect: a running timer stops when the prop turns it
     * off, and a stopped timer starts by itself only at the top of a cycle, so
     * a pause in mid-cycle is never resumed automatically.
     */
    method Sync()
      requires Valid()
      modifies this
      ensures Valid()
      ensures !isTimerActive && old(isActive) ==> !isActive
      ensures isActive && !old(isActive) <==> isTimerActive && autoStart && !old(isActive) && timeRemaining == cycleLength
      ensures isActive != old(isActive) ==> (isActive <==> isTimerActive)
      ensures timeRemaining == old(timeRemaining) && currentPhase == old(currentPhase)
      ensures autoStart == old(autoStart) && isTimerActive == old(isTimerActive)
      ensures pendingResets == old(pendingResets) && events == old(events)
    {
      if !isTimerActive && isActive {
        isActive := false;
      } else if isTimerActive && autoStart && !isActive && timeRemaining == cycleLength {
        isActive := true;
      }
    }

    /** The clock the hook returns for display. */
    function Clock(): (s: string)
      reads this
      requires Valid()
      ensures ParseClock(s) == Some((timeRemaining / 60, timeRemaining % 60))
    {
      FormatTimeRoundTrip(timeRemaining);
      FormatTime(timeRemaining)
    }
  }
}
