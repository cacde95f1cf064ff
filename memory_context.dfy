/**
 * The application state and its reducer (src/context/MemoryContext.tsx).
 *
 * `memoryReducer` is the pure function `Apply`. What it reads from outside
 * (the clock, the id generator, the clock reading taken when the default
 * user was built, and the stored snapshot `LOAD_STATE` loads) comes in as an
 * `Env`. The provider that owns the state and writes it back to storage after
 * the persisting actions is the class `MemoryProvider`.
 */
module MemoryContext {
  import opened Types
  import opened Lists
  import opened Storage
  import MemoryTimer

  /**
   * A stored user as it may come back from storage: snapshots written before
   * the timer settings existed lack `isTimerActive` and `autoStart`.
   */
  datatype SavedUser = SavedUser(
    id: string,
    name: string,
    condition: string,
    cycleLength: int,
    currentCycle: int,
    lastResetTime: int,
    trustCode: Option<string>,
    isTimerActive: Option<bool>,
    autoStart: Option<bool>)

  /** A stored state as it may come back from storage, lists added later possibly missing. */
  datatype SavedState = SavedState(
    user: SavedUser,
    logs: seq<Log>,
    relationships: seq<Relationship>,
    hobbies: Option<seq<Hobby>>,
    places: Option<seq<Place>>,
    currentPhase: Phase,
    timeRemaining: int,
    isConfused: bool,
    reminderQueue: Option<seq<Log>>)

  /** The stored form of a complete state. */
  function Snapshot(s: MemoryState): SavedState {
    var u := s.user;
    SavedState(
      SavedUser(u.id, u.name, u.condition, u.cycleLength, u.currentCycle, u.lastResetTime, u.trustCode,
                Some(u.isTimerActive), Some(u.autoStart)),
      s.logs, s.relationships, Some(s.hobbies), Some(s.places), s.currentPhase, s.timeRemaining,
      s.isConfused, Some(s.reminderQueue))
  }

  /** `MemoryAction`. */
  datatype Action =
    | LoadState
    | AddLog(log: LogInput)
    | AddRelationship(relationship: Relationship)   // its id is replaced by a fresh one
    | AddHobby(hobby: Hobby)                        // its id is replaced by a fresh one
    | AddPlace(place: Place)                        // its id is replaced by a fresh one
    | UpdateRelationship(updated: Relationship)
    | SetPhase(phase: Phase)
    | SetTimeRemaining(time: int)
    | SetConfused(confused: bool)
    | SetTimerActive(active: bool)
    | ResetCycle
    | ClearData

  /**
   * What the reducer reads besides the state and the action: `Date.now()`,
   * the next `uuidv4()`, the clock reading of the default user, and what
   * `MemoryStorage.load()` returns.
   */
  datatype Env = Env(now: int, freshId: string, loadedAt: int, stored: Option<SavedState>)

  /** `initialState`. */
  function InitialState(loadedAt: int): MemoryState {
    var user := DefaultUser(loadedAt);
    MemoryState(user, [], DefaultRelationships, DefaultHobbies, DefaultPlaces, Awareness,
                user.cycleLength, false, [])
  }

  /** The state starts at the top of a cycle, in the phase the timer computes for it. */
  lemma InitialStateAtTopOfCycle(loadedAt: int)
    ensures var s := InitialState(loadedAt);
      s.timeRemaining == s.user.cycleLength == 180 && s.user.currentCycle == 1
      && s.currentPhase == MemoryTimer.CalculatePhase(s.timeRemaining, s.user.cycleLength)
      && s.user.isTimerActive && s.user.autoStart
      && s.logs == [] && s.reminderQueue == []
  {
  }

  /** A loaded state, with the lists and flags that may be missing filled in. */
  function Loaded(saved: SavedState): MemoryState {
    var u := saved.user;
    MemoryState(
      User(u.id, u.name, u.condition, u.cycleLength, u.currentCycle, u.lastResetTime, u.trustCode,
           u.isTimerActive.GetOr(true), u.autoStart.GetOr(true)),
      saved.logs, saved.relationships,
      saved.hobbies.GetOr(DefaultHobbies), saved.places.GetOr(DefaultPlaces),
      saved.currentPhase, saved.timeRemaining, saved.isConfused,
      saved.reminderQueue.GetOr([]))
  }

  /** Loading the snapshot of a state gives back that state. */
  lemma LoadSnapshot(s: MemoryState)
    ensures Loaded(Snapshot(s)) == s
  {
  }

  /** The log `ADD_LOG` builds: a fresh id, the current time and the current cycle. */
  function NewLog(input: LogInput, env: Env, cycle: int): Log {
    Log(env.freshId, input.content, input.priority, input.category, env.now, cycle,
        input.isEmergency, input.isPersistent)
  }

  /** `relationships.map(r => r.id === updated.id ? updated : r)`. */
  function ReplaceById(rs: seq<Relationship>, updated: Relationship): (r: seq<Relationship>)
    ensures |r| == |rs|
    ensures forall i :: 0 <= i < |rs| ==> r[i] == if rs[i].id == updated.id then updated else rs[i]
  {
    seq(|rs|, i requires 0 <= i < |rs| => if rs[i].id == updated.id then updated else rs[i])
  }

  /** `memoryReducer`. */
  function Apply(s: MemoryState, a: Action, env: Env): (r: MemoryState)
    ensures !(a.LoadState? || a.ClearData?) ==> r.user.cycleLength == s.user.cycleLength && r.user.autoStart == s.user.autoStart
    ensures a.AddLog? ==> (|r.logs| == |s.logs| + 1 && r.logs[..|s.logs|] == s.logs
      && r.logs[|s.logs|].cycleNumber == s.user.currentCycle)
    ensures a.AddLog? ==> (IsPinned(r.logs[|s.logs|]) <==> r.reminderQueue == s.reminderQueue + [r.logs[|s.logs|]])
    ensures a.AddLog? && !IsPinned(r.logs[|s.logs|]) ==> r.reminderQueue == s.reminderQueue
    ensures a.ResetCycle? ==> (r.reminderQueue == [] && r.user.currentCycle == s.user.currentCycle + 1
      && r.timeRemaining == s.user.cycleLength && r.currentPhase == Awareness
      && r.user.isTimerActive == s.user.autoStart)
    ensures a.ResetCycle? || a.LoadState? || a.ClearData? || (|s.logs| <= |r.logs| && r.logs[..|s.logs|] == s.logs)
    ensures (a.ClearData? || (a.LoadState? && env.stored.None?)) ==> r == InitialState(env.loadedAt)
  {
    match a
    case LoadState =>
      (match env.stored
       case Some(saved) => Loaded(saved)
       case None => InitialState(env.loadedAt))
    case AddLog(input) =>
      var log := NewLog(input, env, s.user.currentCycle);
      s.(logs := s.logs + [log],
         reminderQueue := if log.priority == CRITICAL || log.isPersistent then s.reminderQueue + [log] else s.reminderQueue)
    case AddRelationship(rel) =>
      s.(relationships := s.relationships + [rel.(id := env.freshId)])
    case UpdateRelationship(updated) =>
      s.(relationships := ReplaceById(s.relationships, updated))
    case AddHobby(hobby) =>
      s.(hobbies := s.hobbies + [hobby.(id := env.freshId)])
    case AddPlace(place) =>
      s.(places := s.places + [place.(id := env.freshId)])
    case SetPhase(phase) =>
      s.(currentPhase := phase)
    case SetTimeRemaining(time) =>
      s.(timeRemaining := time)
    case SetConfused(confused) =>
      s.(isConfused := confused)
    case SetTimerActive(active) =>
      s.(user := s.user.(isTimerActive := active))
    case ResetCycle =>
      var kept := Filter(s.logs, IsPinned);
      s.(user := s.user.(currentCycle := s.user.currentCycle + 1, lastResetTime := env.now,
                         isTimerActive := s.user.autoStart),
         logs := kept,
         currentPhase := Awareness,
         timeRemaining := s.user.cycleLength,
         isConfused := false,
         reminderQueue := [])
    case ClearData =>
      InitialState(env.loadedAt)
  }

  /**
   * `RESET_CYCLE` also stamps the reset time, clears the confusion flag and
   * the queue, and keeps the people, hobbies and places and the rest of the
   * user as they were.
   */
  lemma ResetFrame(s: MemoryState, env: Env)
    ensures var r := Apply(s, ResetCycle, env);
      !r.isConfused && r.reminderQueue == []
      && r.user == s.user.(currentCycle := s.user.currentCycle + 1, lastResetTime := env.now,
                           isTimerActive := s.user.autoStart)
      && r.relationships == s.relationships && r.hobbies == s.hobbies && r.places == s.places
  {
  }

  /** A cycle reset keeps exactly the pinned logs. */
  lemma ResetKeepsPinned(s: MemoryState, env: Env)
    ensures forall log :: log in Apply(s, ResetCycle, env).logs <==> log in s.logs && IsPinned(log)
  {
    forall log ensures log in Apply(s, ResetCycle, env).logs <==> log in s.logs && IsPinned(log) {
      FilterMembers(s.logs, IsPinned, log);
    }
  }

  /**
   * A pinned log is queued as a reminder when it is added and is still among
   * the logs after the next cycle reset.
   */
  lemma PinnedLogSurvivesReset(s: MemoryState, input: LogInput, env1: Env, env2: Env)
    requires input.priority == CRITICAL || input.isPersistent
    ensures var s1 := Apply(s, AddLog(input), env1);
            var log := s1.logs[|s.logs|];
            log in s1.reminderQueue && log in Apply(s1, ResetCycle, env2).logs
  {
    var s1 := Apply(s, AddLog(input), env1);
    var log := s1.logs[|s.logs|];
    assert log == NewLog(input, env1, s.user.currentCycle);
    assert log in s1.reminderQueue;
    ResetKeepsPinned(s1, env2);
  }

  /** The `ADD_LOG` case and the stored-snapshot `addLog` make the same update. */
  lemma AddLogAgreesWithStorage(s: MemoryState, input: LogInput, env: Env)
    ensures Apply(s, AddLog(input), env) == WithLog(s, NewLog(input, env, s.user.currentCycle))
  {
  }

  /**
   * `ADD_RELATIONSHIP`, `ADD_HOBBY` and `ADD_PLACE` each append the payload,
   * under a fresh id, to their own list and change nothing else.
   */
  lemma AddItemsAppend(s: MemoryState, rel: Relationship, hobby: Hobby, place: Place, env: Env)
    ensures Apply(s, AddRelationship(rel), env) == s.(relationships := s.relationships + [rel.(id := env.freshId)])
    ensures Apply(s, AddHobby(hobby), env) == s.(hobbies := s.hobbies + [hobby.(id := env.freshId)])
    ensures Apply(s, AddPlace(place), env) == s.(places := s.places + [place.(id := env.freshId)])
  {
  }

  /** The four setters each change their one field and nothing else. */
  lemma SettersChangeOneField(s: MemoryState, phase: Phase, time: int, confused: bool, active: bool, env: Env)
    ensures Apply(s, SetPhase(phase), env) == s.(currentPhase := phase)
    ensures Apply(s, SetTimeRemaining(time), env) == s.(timeRemaining := time)
    ensures Apply(s, SetConfused(confused), env) == s.(isConfused := confused)
    ensures Apply(s, SetTimerActive(active), env) == s.(user := s.user.(isTimerActive := active))
  {
  }

  /**
   * `UPDATE_RELATIONSHIP` with a relationship already in the list: the list
   * then contains the update, and every entry with another id is untouched.
   */
  lemma UpdateRelationshipReplaces(s: MemoryState, updated: Relationship, env: Env)
    requires exists i :: 0 <= i < |s.relationships| && s.relationships[i].id == updated.id
    ensures var rs := Apply(s, UpdateRelationship(updated), env).relationships;
      updated in rs
      && (forall r :: r in rs && r.id != updated.id ==> r in s.relationships)
      && (forall r :: r in s.relationships && r.id != updated.id ==> r in rs)
  {
    var rs := Apply(s, UpdateRelationship(updated), env).relationships;
    var i :| 0 <= i < |s.relationships| && s.relationships[i].id == updated.id;
    assert rs[i] == updated;
    forall r | r in s.relationships && r.id != updated.id ensures r in rs {
      var j :| 0 <= j < |s.relationships| && s.relationships[j] == r;
      assert rs[j] == r;
    }
  }

  /** `UPDATE_RELATIONSHIP` changes the relationship list and nothing else. */
  lemma UpdateRelationshipFrame(s: MemoryState, updated: Relationship, env: Env)
    ensures var r := Apply(s, UpdateRelationship(updated), env);
      r == s.(relationships := r.relationships)
  {
  }

  /** Updating a relationship with itself leaves the list unchanged. */
  lemma UpdateRelationshipWithSame(s: MemoryState, i: int, env: Env)
    requires 0 <= i < |s.relationships|
    requires forall j :: 0 <= j < |s.relationships| && s.relationships[j].id == s.relationships[i].id ==> j == i
    ensures Apply(s, UpdateRelationship(s.relationships[i]), env).relationships == s.relationships
  {
  }

  /** Resetting twice keeps the same logs as resetting once. */
  lemma ResetLogsIdempotent(s: MemoryState, env1: Env, env2: Env)
    ensures var once := Apply(s, ResetCycle, env1);
      Apply(once, ResetCycle, env2).logs == once.logs
  {
    var once := Apply(s, ResetCycle, env1);
    ResetFiltersLogs(s, env1);
    ResetFiltersLogs(once, env2);
    FilterIdempotent(s.logs, IsPinned);
  }

  lemma ResetFiltersLogs(s: MemoryState, env: Env)
    ensures Apply(s, ResetCycle, env).logs == Filter(s.logs, IsPinned)
  {
  }

  /**
   * The consistency the reducer keeps: no log is stamped with a later cycle
   * than the current one, and every queued reminder is a pinned log that is
   * still in the log list.
   */
  ghost predicate Consistent(s: MemoryState) {
    (forall i :: 0 <= i < |s.logs| ==> s.logs[i].cycleNumber <= s.user.currentCycle)
    && (forall i :: 0 <= i < |s.reminderQueue| ==> IsPinned(s.reminderQueue[i]) && s.reminderQueue[i] in s.logs)
  }

  lemma InitialConsistent(loadedAt: int)
    ensures Consistent(InitialState(loadedAt))
  {
  }

  /** Every action except loading a stored state keeps the state consistent. */
  lemma ApplyKeepsConsistent(s: MemoryState, a: Action, env: Env)
    requires Consistent(s)
    requires a.LoadState? ==> env.stored.None? || Consistent(Loaded(env.stored.value))
    ensures Consistent(Apply(s, a, env))
  {
    var r := Apply(s, a, env);
    match a
    case AddLog(input) =>
      assert r.logs == s.logs + [r.logs[|s.logs|]];
      forall i | 0 <= i < |r.reminderQueue| ensures r.reminderQueue[i] in r.logs {
        if i < |s.reminderQueue| {
          assert r.reminderQueue[i] == s.reminderQueue[i];
        }
      }
    case ResetCycle =>
      ResetKeepsPinned(s, env);
      forall i | 0 <= i < |r.logs| ensures r.logs[i].cycleNumber <= r.user.currentCycle {
        assert r.logs[i] in s.logs;
      }
    case _ =>
  }

  /** After a reset, the reminders queued during the cycle are all still among the logs. */
  lemma ResetKeepsReminders(s: MemoryState, env: Env)
    requires Consistent(s)
    ensures forall log :: log in s.reminderQueue ==> log in Apply(s, ResetCycle, env).logs
  {
    ResetKeepsPinned(s, env);
  }

  /**
   * In a consistent state, the cycle reset of the reducer and the
   * `updateCycle` of the stored snapshot, moved to the next cycle, keep the
   * same logs.
   */
  lemma ResetAgreesWithUpdateCycle(s: MemoryState, env: Env)
    requires Consistent(s)
    ensures Apply(s, ResetCycle, env).logs == LogsAfterUpdate(s.logs, s.user.currentCycle + 1)
  {
    UpdateCycleOfOlderLogs(s.logs, s.user.currentCycle + 1);
  }

  /** What `MemoryStorage.load()` hands the reducer when the storage holds `slot`. */
  function StoredSnapshot(slot: Option<MemoryState>): Option<SavedState> {
    match slot
    case Some(m) => Some(Snapshot(m))
    case None => None
  }

  /** The actions after which the provider writes the new state to storage. */
  predicate Persists(a: Action) {
    a.AddLog? || a.AddRelationship? || a.UpdateRelationship? || a.AddHobby? || a.AddPlace?
    || a.SetTimerActive? || a.ResetCycle?
  }

  /** `MemoryProvider`: the reducer's state and the storage it writes through. */
  class MemoryProvider {
    var state: MemoryState
    const storage: MemoryStorage
    /** The clock reading the default user was built with. */
    const loadedAt: int

    /** `useReducer(memoryReducer, initialState)` followed by the mount effect's `LOAD_STATE`. */
    constructor(storage: MemoryStorage, loadedAt: int, now: int, freshId: string)
      modifies storage
      ensures this.storage == storage && this.loadedAt == loadedAt
      ensures storage.slot == old(storage.slot)
      ensures old(storage.slot).None? ==> state == InitialState(loadedAt)
      ensures old(storage.slot).Some? ==> state == old(storage.slot).value
    {
      this.storage := storage;
      this.loadedAt := loadedAt;
      state := InitialState(loadedAt);
      new;
      Dispatch(LoadState, now, freshId);
    }

    /**
     * `dispatch`: the reducer computes the new state from what storage holds;
     * the persisting actions then save it, and `CLEAR_DATA` empties storage.
     */
    method Dispatch(a: Action, now: int, freshId: string)
      modifies this, storage
      ensures state == Apply(old(state), a, Env(now, freshId, loadedAt, StoredSnapshot(old(storage.slot))))
      ensures Persists(a) ==> storage.slot == Some(state)
      ensures a.ClearData? ==> storage.slot == None
      ensures !Persists(a) && !a.ClearData? ==> storage.slot == old(storage.slot)
      ensures a.LoadState? && old(storage.slot).Some? ==> state == old(storage.slot).value
    {
      var loaded := storage.Load();
      state := Apply(state, a, Env(now, freshId, loadedAt, StoredSnapshot(loaded)));
      if a.LoadState? && loaded.Some? {
        LoadSnapshot(loaded.value);
      }
      if Persists(a) {
        storage.Save(state);
      } else if a.ClearData? {
        storage.Clear();
      }
    }
  }
}
