/**
 * The page (src/app/page.tsx): it wires the timer's callbacks to the memory
 * store, opens the reset sequence when a cycle ends and runs the cycle reset
 * when the sequence is completed, offers quick-log buttons in the critical
 * phase, and shows a dashboard filtered from the state.
 */
module Page {
  import opened Types
  import opened Lists
  import opened MemoryTimer
  import opened MemoryContext
  import LogList
  import ResetSequence

  /** A quick-log button: the text it logs, with its priority and category. */
  datatype QuickLogButton = QuickLogButton(text: string, priority: Priority, category: Category)

  /** `getQuickLogButtons`: three CRITICAL buttons in the critical phase, none otherwise. */
  function QuickLogButtons(phase: Phase): (r: seq<QuickLogButton>)
    ensures phase == Critical ==> |r| == 3
    ensures phase != Critical ==> r == []
    ensures forall b :: b in r ==> b.priority == CRITICAL && (b.category == Relationships || b.category == Work)
  {
    if phase == Critical then
      [ QuickLogButton("SARAH IS MY WIFE", CRITICAL, Relationships),
        QuickLogButton("AWS PASSWORD: temp123", CRITICAL, Work),
        QuickLogButton("MEETING AT 2PM", CRITICAL, Work) ]
    else []
  }

  /** The log `handleQuickLog` adds for a button: always an emergency, always persistent. */
  function QuickLogInput(b: QuickLogButton): (input: LogInput)
    ensures input.isEmergency && input.isPersistent
    ensures input.content == b.text && input.priority == b.priority && input.category == b.category
  {
    LogInput(b.text, b.priority, b.category, true, true)
  }

  /**
   * A quick log is queued as a reminder when it is added and is still among
   * the logs after the next cycle reset.
   */
  lemma QuickLogSurvivesReset(s: MemoryState, b: QuickLogButton, env1: Env, env2: Env)
    ensures var s1 := Apply(s, AddLog(QuickLogInput(b)), env1);
            var log := s1.logs[|s.logs|];
            log in s1.reminderQueue && log in Apply(s1, ResetCycle, env2).logs
  {
    PinnedLogSurvivesReset(s, QuickLogInput(b), env1, env2);
  }

  predicate IsCriticalLog(l: Log) { l.priority == CRITICAL }
  predicate IsCriticalPerson(r: Relationship) { r.importance == CRITICAL }
  predicate IsNotableHobby(h: Hobby) { h.importance == HIGH || h.importance == CRITICAL }
  predicate IsNotablePlace(p: Place) { p.importance == CRITICAL || p.importance == HIGH }

  /** What the dashboard shows. */
  datatype Dashboard = Dashboard(
    criticalMemories: seq<Log>,
    keyPeople: seq<Relationship>,
    hobbies: seq<Hobby>,
    places: seq<Place>)

  /**
   * Critical Memories: the CRITICAL logs handed to the memory list with at
   * most three shown, so the three most recent, newest first.
   */
  function CriticalMemories(logs: seq<Log>): (r: seq<Log>)
    ensures |r| == if |Filter(logs, IsCriticalLog)| < 3 then |Filter(logs, IsCriticalLog)| else 3
    ensures forall x :: x in r ==> x in logs && x.priority == CRITICAL
    ensures forall i, j :: 0 <= i < j < |r| ==> r[j].timestamp <= r[i].timestamp
    ensures forall x, y :: x in r && y in logs && y.priority == CRITICAL && y !in r ==> y.timestamp <= x.timestamp
  {
    var r := LogList.SortedLogs(Filter(logs, IsCriticalLog), Some(3));
    ShownAreCritical(logs, r);
    ShownNewestFirst(logs, r);
    ShownAreMostRecent(logs, r);
    r
  }

  lemma ShownAreCritical(logs: seq<Log>, r: seq<Log>)
    requires multiset(r) <= multiset(Filter(logs, IsCriticalLog))
    ensures forall x :: x in r ==> x in logs && x.priority == CRITICAL
  {
    forall x | x in r ensures x in logs && x.priority == CRITICAL {
      assert x in multiset(Filter(logs, IsCriticalLog));
      FilterMembers(logs, IsCriticalLog, x);
    }
  }

  lemma ShownNewestFirst(logs: seq<Log>, r: seq<Log>)
    requires r == LogList.SortedLogs(Filter(logs, IsCriticalLog), Some(3))
    ensures forall i, j :: 0 <= i < j < |r| ==> r[j].timestamp <= r[i].timestamp
  {
    ShownAreCritical(logs, r);
    forall i, j | 0 <= i < j < |r| ensures r[j].timestamp <= r[i].timestamp {
      assert r[i] in r && r[j] in r;
    }
  }

  lemma ShownAreMostRecent(logs: seq<Log>, r: seq<Log>)
    requires r == LogList.SortedLogs(Filter(logs, IsCriticalLog), Some(3))
    ensures forall x, y :: x in r && y in logs && y.priority == CRITICAL && y !in r ==> y.timestamp <= x.timestamp
  {
    var critical := Filter(logs, IsCriticalLog);
    ShownAreCritical(logs, r);
    forall x, y | x in r && y in logs && y.priority == CRITICAL && y !in r ensures y.timestamp <= x.timestamp {
      FilterMembers(logs, IsCriticalLog, y);
      assert y in multiset(critical) - multiset(r);
    }
  }

  /** The first `n` elements that pass `keep`, in list order. */
  function FirstPassing<T>(s: seq<T>, keep: T -> bool, n: nat): (r: seq<T>)
    ensures |r| == if |Filter(s, keep)| < n then |Filter(s, keep)| else n
    ensures forall x :: x in r ==> x in s && keep(x)
    ensures r <= Filter(s, keep)
  {
    var passing := Filter(s, keep);
    var r := SliceTo(passing, Some(n));
    assert forall x :: x in r ==> x in s && keep(x) by {
      forall x | x in r ensures x in s && keep(x) {
        FilterMembers(s, keep, x);
      }
    }
    r
  }

  /** The dashboard of a state. */
  function DashboardOf(s: MemoryState): (d: Dashboard)
    ensures d.criticalMemories == CriticalMemories(s.logs)
    ensures d.keyPeople == FirstPassing(s.relationships, IsCriticalPerson, 2)
    ensures d.hobbies == FirstPassing(s.hobbies, IsNotableHobby, 2)
    ensures d.places == FirstPassing(s.places, IsNotablePlace, 2)
    ensures |d.keyPeople| <= 2 && forall r :: r in d.keyPeople ==> r in s.relationships && r.importance == CRITICAL
    ensures |d.hobbies| <= 2 && forall h :: h in d.hobbies ==> h in s.hobbies && (h.importance == HIGH || h.importance == CRITICAL)
    ensures |d.places| <= 2 && forall p :: p in d.places ==> p in s.places && (p.importance == CRITICAL || p.importance == HIGH)
    ensures (exists r :: r in s.relationships && r.importance == CRITICAL) ==> |d.keyPeople| > 0
  {
    var people := FirstPassing(s.relationships, IsCriticalPerson, 2);
    assert (exists r :: r in s.relationships && r.importance == CRITICAL) ==> |people| > 0 by {
      if exists r :: r in s.relationships && r.importance == CRITICAL {
        var r :| r in s.relationships && r.importance == CRITICAL;
        FilterMembers(s.relationships, IsCriticalPerson, r);
      }
    }
    Dashboard(CriticalMemories(s.logs), people,
      FirstPassing(s.hobbies, IsNotableHobby, 2), FirstPassing(s.places, IsNotablePlace, 2))
  }

  /**
   * The Key People panel and step 4 of the reset sequence agree: the people
   * on the dashboard are the ones the reset sequence introduces first, in the
   * same order.
   */
  lemma KeyPeopleLeadResetSequence(s: MemoryState)
    ensures var people := DashboardOf(s).keyPeople;
            var lines := ResetSequence.PeopleLines(s.relationships);
            |people| <= |lines| && forall i :: 0 <= i < |people| ==> lines[i] == ResetSequence.PersonLine(people[i])
  {
    var people := DashboardOf(s).keyPeople;
    var critical := Filter(s.relationships, IsCriticalPerson);
    assert Filter(s.relationships, ResetSequence.IsCriticalPerson) == critical by {
      FilterSamePredicate(s.relationships, IsCriticalPerson, ResetSequence.IsCriticalPerson);
    }
    assert people <= critical;
  }

  /** Filters with predicates that agree everywhere keep the same elements. */
  lemma {:induction false} FilterSamePredicate<T>(s: seq<T>, p: T -> bool, q: T -> bool)
    requires forall x :: p(x) == q(x)
    ensures Filter(s, p) == Filter(s, q)
  {
    if |s| > 0 {
      FilterSamePredicate(s[1..], p, q);
    }
  }

  /** What the page shows: the reset sequence alone while it is open, the app otherwise. */
  datatype AppScreen = ResetSequenceScreen | MainScreen

  /** `MemoryApp`: the page's own state, the store it dispatches to and the timer it listens to. */
  class MemoryApp {
    const provider: MemoryProvider
    var showResetSequence: bool

    constructor(provider: MemoryProvider)
      ensures this.provider == provider && !showResetSequence
    {
      this.provider := provider;
      showResetSequence := false;
    }

    /** The page renders the reset sequence and nothing else while the flag is set. */
    function Screen(): (s: AppScreen)
      reads this
      ensures s == ResetSequenceScreen <==> showResetSequence
    {
      if showResetSequence then ResetSequenceScreen else MainScreen
    }

    /** `handleReset`. */
    method HandleReset()
      modifies this
      ensures showResetSequence
    {
      showResetSequence := true;
    }

    /**
     * `handlePhaseChange`, once its zero-delay timeout has run: the phase is
     * recorded and the reset sequence opens exactly when the phase is Reset.
     */
    method HandlePhaseChange(phase: Phase, now: int, freshId: string)
      modifies this, provider, provider.storage
      ensures provider.state == old(provider.state).(currentPhase := phase)
      ensures provider.storage.slot == old(provider.storage.slot)
      ensures showResetSequence == (old(showResetSequence) || phase == Reset)
    {
      provider.Dispatch(SetPhase(phase), now, freshId);
      if phase == Reset {
        HandleReset();
      }
    }

    /** `handleResetComplete`: the sequence closes and the cycle is reset once. */
    method HandleResetComplete(now: int, freshId: string)
      modifies this, provider, provider.storage
      ensures !showResetSequence
      ensures provider.state
        == Apply(old(provider.state), ResetCycle,
                 Env(now, freshId, provider.loadedAt, StoredSnapshot(old(provider.storage.slot))))
      ensures provider.storage.slot == Some(provider.state)
    {
      showResetSequence := false;
      provider.Dispatch(ResetCycle, now, freshId);
    }

    /** `handleQuickLog`: the button's text is logged as a persistent emergency. */
    method HandleQuickLog(b: QuickLogButton, now: int, freshId: string)
      modifies provider, provider.storage
      ensures provider.state
        == Apply(old(provider.state), AddLog(QuickLogInput(b)),
                 Env(now, freshId, provider.loadedAt, StoredSnapshot(old(provider.storage.slot))))
      ensures provider.storage.slot == Some(provider.state)
    {
      provider.Dispatch(AddLog(QuickLogInput(b)), now, freshId);
    }

    /**
     * The timer's callbacks as the page passes them: `onPhaseChange` is
     * `handlePhaseChange`, `onReset` is `handleReset` and
     * `onTimerStateChange` is `setTimerActive`.
     */
    method DeliverTimerEvent(e: TimerEvent, now: int, freshId: string)
      modifies this, provider, provider.storage
      ensures e.PhaseChanged? ==> provider.state == old(provider.state).(currentPhase := e.phase)
      ensures e.TimerStateChanged? ==>
        provider.state == old(provider.state).(user := old(provider.state).user.(isTimerActive := e.active))
        && provider.storage.slot == Some(provider.state)
      ensures e.ResetNotified? ==> provider.state == old(provider.state)
      ensures !e.TimerStateChanged? ==> provider.storage.slot == old(provider.storage.slot)
      ensures showResetSequence == (old(showResetSequence) || e.ResetNotified? || e == PhaseChanged(Reset))
    {
      match e
      case PhaseChanged(phase) =>
        HandlePhaseChange(phase, now, freshId);
      case TimerStateChanged(active) =>
        provider.Dispatch(SetTimerActive(active), now, freshId);
      case ResetNotified =>
        HandleReset();
    }
  }
}
