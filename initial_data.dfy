/**
 * The server loader (src/hooks/useInitialData.ts): reading a phase name,
 * the time left in a server-side cycle, the payload built from the responses,
 * and the flag that keeps a second fetch from starting.
 */
module InitialData {
  import opened Types

  /** The phase names the server uses. */
  function PhaseName(p: Phase): string {
    match p
    case Awareness => "awareness"
    case Urgency => "urgency"
    case Critical => "critical"
    case Reset => "reset"
  }

  /** `phaseFromString`: a known phase name gives that phase; anything else, or nothing, gives Awareness. */
  function PhaseFromString(phase: Option<string>): (p: Phase)
    ensures (exists q :: phase == Some(PhaseName(q))) ==> phase == Some(PhaseName(p))
    ensures !(exists q :: phase == Some(PhaseName(q))) ==> p == Awareness
  {
    match phase
    case None => Awareness
    case Some(name) =>
      if name == "awareness" then Awareness
      else if name == "urgency" then Urgency
      else if name == "critical" then Critical
      else if name == "reset" then Reset
      else
        assert forall q :: name != PhaseName(q);
        Awareness
  }

  /** Every phase is read back from its own name. */
  lemma PhaseNameRoundTrip(p: Phase)
    ensures PhaseFromString(Some(PhaseName(p))) == p
  {
  }

  /** Reading the name of a phase that was read gives the same phase again. */
  lemma PhaseFromStringIdempotent(phase: Option<string>)
    ensures PhaseFromString(Some(PhaseName(PhaseFromString(phase)))) == PhaseFromString(phase)
  {
    PhaseNameRoundTrip(PhaseFromString(phase));
  }

  /** Three hours, in milliseconds. */
  const DefaultCycleMillis: int := 180 * 60 * 1000

  /** The cycle record the server returns. */
  datatype Cycle = Cycle(startTime: Option<int>, phase: Option<string>)

  /**
   * `calculateTimeRemaining`: without a cycle or a start time (0 being falsy
   * too), the full three hours; otherwise what is left of them since the
   * start, never below 0.
   */
  function CalculateTimeRemaining(cycle: Option<Cycle>, now: int): (t: int)
    ensures t >= 0
    ensures (cycle.None? || cycle.value.startTime.None? || cycle.value.startTime.value == 0) ==> t == DefaultCycleMillis
    ensures cycle.Some? && cycle.value.startTime.Some? && cycle.value.startTime.value != 0 ==> (
      var elapsed := now - cycle.value.startTime.value;
      (elapsed >= DefaultCycleMillis ==> t == 0) && (elapsed < DefaultCycleMillis ==> t + elapsed == DefaultCycleMillis))
    ensures cycle.Some? && cycle.value.startTime.Some? && now >= cycle.value.startTime.value ==> t <= DefaultCycleMillis
  {
    if cycle.None? || cycle.value.startTime.None? || cycle.value.startTime.value == 0 then DefaultCycleMillis
    else
      var elapsed := now - cycle.value.startTime.value;
      if DefaultCycleMillis - elapsed > 0 then DefaultCycleMillis - elapsed else 0
  }

  /** The time left never grows as the clock moves on. */
  lemma TimeRemainingNonIncreasing(cycle: Option<Cycle>, now1: int, now2: int)
    requires now1 <= now2
    ensures CalculateTimeRemaining(cycle, now2) <= CalculateTimeRemaining(cycle, now1)
  {
  }

  /** The `LOAD_INITIAL_DATA` payload. */
  datatype Payload = Payload(
    user: User,
    logs: seq<Log>,
    relationships: seq<Relationship>,
    hobbies: seq<Hobby>,
    places: seq<Place>,
    currentPhase: Phase,
    timeRemaining: int)

  /** The payload built from the responses: each missing list is empty, a missing user is the current one. */
  function BuildPayload(current: User, user: Option<User>, logs: Option<seq<Log>>,
                        relationships: Option<seq<Relationship>>, hobbies: Option<seq<Hobby>>,
                        places: Option<seq<Place>>, cycle: Option<Cycle>, now: int): (p: Payload)
    ensures p.user == user.GetOr(current)
    ensures p.logs == logs.GetOr([]) && p.relationships == relationships.GetOr([])
    ensures p.hobbies == hobbies.GetOr([]) && p.places == places.GetOr([])
    ensures p.currentPhase == PhaseFromString(if cycle.Some? then cycle.value.phase else None)
    ensures p.timeRemaining == CalculateTimeRemaining(cycle, now) && 0 <= p.timeRemaining
  {
    Payload(user.GetOr(current), logs.GetOr([]), relationships.GetOr([]), hobbies.GetOr([]), places.GetOr([]),
      PhaseFromString(if cycle.Some? then cycle.value.phase else None), CalculateTimeRemaining(cycle, now))
  }

  /** The loader's `hasLoadedRef` and the payloads it has dispatched. */
  class InitialDataLoader {
    var hasLoaded: bool
    var dispatched: seq<Payload>

    constructor()
      ensures !hasLoaded && dispatched == []
    {
      hasLoaded := false;
      dispatched := [];
    }

    /** The effect starts a fetch only for a user with an id and when nothing is loaded or loading. */
    function ShouldFetch(userId: string): (b: bool)
      reads this
      ensures b <==> userId != [] && !hasLoaded
    {
      userId != [] && !hasLoaded
    }

    /** The synchronous start of `fetchData`: a no-op when loaded, otherwise the flag is set. */
    method BeginFetch() returns (started: bool)
      modifies this
      ensures started <==> !old(hasLoaded)
      ensures hasLoaded && dispatched == old(dispatched)
    {
      if hasLoaded {
        return false;
      }
      hasLoaded := true;
      return true;
    }

    /**
     * The rest of a started fetch, once the responses are in: an error in the
     * user response clears the flag and dispatches nothing; otherwise the
     * payload is dispatched and the flag stays set.
     */
    method FinishFetch(userError: bool, payload: Payload)
      requires hasLoaded
      modifies this
      ensures userError ==> !hasLoaded && dispatched == old(dispatched)
      ensures !userError ==> hasLoaded && dispatched == old(dispatched) + [payload]
    {
      if userError {
        hasLoaded := false;
        return;
      }
      dispatched := dispatched + [payload];
    }

    /** A thrown error clears the flag, so that a later effect may fetch again. */
    method FailFetch()
      modifies this
      ensures !hasLoaded && dispatched == old(dispatched)
    {
      hasLoaded := false;
    }
  }
}
