/**
 * The persisted snapshot (src/lib/storage.ts): one stored `MemoryState`
 * under a fixed key, the load-mutate-save updates applied to it, and the
 * built-in data a new user starts from.
 *
 * The browser's `localStorage` entry becomes the `slot` field of a
 * `MemoryStorage` object; `JSON.stringify`/`JSON.parse` are taken to give
 * back the value that was stored.
 */
module Storage {
  import opened Types
  import opened Text
  import opened Lists

  /** The rule `updateCycle` keeps a log by when cycle `cycleNumber` starts. */
  predicate KeptByUpdateCycle(log: Log, cycleNumber: int) {
    log.isPersistent || log.priority == CRITICAL || log.cycleNumber >= cycleNumber
  }

  function KeepOnUpdate(cycleNumber: int): Log -> bool {
    log => KeptByUpdateCycle(log, cycleNumber)
  }

  /** The logs `updateCycle` leaves in place. */
  function LogsAfterUpdate(logs: seq<Log>, cycleNumber: int): (r: seq<Log>)
    ensures forall log :: log in r <==> log in logs && KeptByUpdateCycle(log, cycleNumber)
  {
    var r := Filter(logs, KeepOnUpdate(cycleNumber));
    assert forall log :: log in r <==> log in logs && KeptByUpdateCycle(log, cycleNumber) by {
      forall log ensures log in r <==> log in logs && KeptByUpdateCycle(log, cycleNumber) {
        FilterMembers(logs, KeepOnUpdate(cycleNumber), log);
      }
    }
    r
  }

  /**
   * `updateCycle` keeps at least what a cycle reset keeps: its pinned logs are
   * exactly the pinned logs of the input, in their original order.
   */
  lemma UpdateCycleKeepsPinned(logs: seq<Log>, cycleNumber: int)
    ensures Filter(LogsAfterUpdate(logs, cycleNumber), IsPinned) == Filter(logs, IsPinned)
  {
    FilterOfFilter(logs, IsPinned, KeepOnUpdate(cycleNumber));
  }

  lemma {:induction false} FilterAgree<T>(s: seq<T>, p: T -> bool, q: T -> bool)
    requires forall i :: 0 <= i < |s| ==> p(s[i]) == q(s[i])
    ensures Filter(s, p) == Filter(s, q)
  {
    if |s| > 0 {
      FilterAgree(s[1..], p, q);
    }
  }

  /**
   * When every stored log comes from an earlier cycle than the one starting,
   * `updateCycle` keeps exactly the pinned logs, as a cycle reset does.
   */
  lemma UpdateCycleOfOlderLogs(logs: seq<Log>, cycleNumber: int)
    requires forall i :: 0 <= i < |logs| ==> logs[i].cycleNumber < cycleNumber
    ensures LogsAfterUpdate(logs, cycleNumber) == Filter(logs, IsPinned)
  {
    FilterAgree(logs, KeepOnUpdate(cycleNumber), IsPinned);
  }

  /** The stored snapshot after `addLog`: the log is appended, and queued when pinned. */
  function WithLog(s: MemoryState, log: Log): MemoryState {
    s.(logs := s.logs + [log],
       reminderQueue := if log.priority == CRITICAL || log.isPersistent then s.reminderQueue + [log] else s.reminderQueue)
  }

  /** The browser's storage entry for the memory system. */
  class MemoryStorage {
    var slot: Option<MemoryState>

    /** Nothing stored yet. */
    constructor()
      ensures slot == None
    {
      slot := None;
    }

    /** `save`: the stored snapshot becomes `state`. */
    method Save(state: MemoryState)
      modifies this
      ensures slot == Some(state)
    {
      slot := Some(state);
    }

    /** `load`: the stored snapshot, or nothing. */
    method Load() returns (r: Option<MemoryState>)
      ensures r == slot
    {
      r := slot;
    }

    /** `addLog`: the log is appended to the stored logs and, when pinned, to the reminder queue. */
    method AddLog(log: Log)
      modifies this
      ensures old(slot).None? ==> slot == None
      ensures old(slot).Some? ==> slot == Some(WithLog(old(slot).value, log))
    {
      var stored := Load();
      if stored.Some? {
        var state := stored.value;
        state := state.(logs := state.logs + [log]);
        if log.priority == CRITICAL || log.isPersistent {
          state := state.(reminderQueue := state.reminderQueue + [log]);
        }
        Save(state);
      }
    }

    /** `addRelationship`: one more stored relationship, nothing else changed. */
    method AddRelationship(relationship: Relationship)
      modifies this
      ensures old(slot).None? ==> slot == None
      ensures old(slot).Some? ==> slot == Some(old(slot).value.(relationships := old(slot).value.relationships + [relationship]))
    {
      var stored := Load();
      if stored.Some? {
        var state := stored.value;
        state := state.(relationships := state.relationships + [relationship]);
        Save(state);
      }
    }

    /** `addHobby`: one more stored hobby, nothing else changed. */
    method AddHobby(hobby: Hobby)
      modifies this
      ensures old(slot).None? ==> slot == None
      ensures old(slot).Some? ==> slot == Some(old(slot).value.(hobbies := old(slot).value.hobbies + [hobby]))
    {
      var stored := Load();
      if stored.Some? {
        var state := stored.value;
        state := state.(hobbies := state.hobbies + [hobby]);
        Save(state);
      }
    }

    /** `addPlace`: one more stored place, nothing else changed. */
    method AddPlace(place: Place)
      modifies this
      ensures old(slot).None? ==> slot == None
      ensures old(slot).Some? ==> slot == Some(old(slot).value.(places := old(slot).value.places + [place]))
    {
      var stored := Load();
      if stored.Some? {
        var state := stored.value;
        state := state.(places := state.places + [place]);
        Save(state);
      }
    }

    /**
     * `updateCycle`: records the new cycle number and reset time and prunes the
     * stored logs to the persistent, the CRITICAL and those of the new cycle
     * or later.
     */
    method UpdateCycle(cycleNumber: int, resetTime: int)
      modifies this
      ensures old(slot).None? ==> slot == None
      ensures old(slot).Some? ==> slot.Some?
      ensures old(slot).Some? ==> slot.value.user == old(slot).value.user.(currentCycle := cycleNumber, lastResetTime := resetTime)
      ensures old(slot).Some? ==> slot.value.logs == LogsAfterUpdate(old(slot).value.logs, cycleNumber)
      ensures old(slot).Some? ==> slot.value == old(slot).value.(user := slot.value.user, logs := slot.value.logs)
    {
      var stored := Load();
      if stored.Some? {
        var state := stored.value;
        state := state.(user := state.user.(currentCycle := cycleNumber));
        state := state.(user := state.user.(lastResetTime := resetTime));
        state := state.(logs := Filter(state.logs, KeepOnUpdate(cycleNumber)));
        Save(state);
      }
    }

    /** `clear`: nothing stored any more. */
    method Clear()
      modifies this
      ensures slot == None
    {
      slot := None;
    }
  }

  /** `getPlaceholderImage`: the picsum.photos address of a seeded image. */
  function PlaceholderImage(seed: string, width: nat, height: nat): string {
    "https://picsum.photos/seed/" + seed + "/" + NatToString(width) + "/" + NatToString(height)
  }

  /** `defaultUser`, `loadedAt` being the clock reading when the module is loaded. */
  function DefaultUser(loadedAt: int): User {
    User("marcus-chen", "Marcus Chen", "48-hour episodic memory reset", 180, 1, loadedAt,
         Some("SARAH2024"), true, true)
  }

  /** `defaultRelationships`. */
  const DefaultRelationships: seq<Relationship> := [Sarah, Amanda, David, Linda, Robert, Buddy]

  const Sarah: Relationship :=
    Relationship("1", "Sarah Chen", "Wife", Some(PlaceholderImage("sarah-wife", 150, 150)),
      ["Anniversary May 15", "Allergic to shellfish", "Works at Google", "Loves hiking", "Has dimples when she smiles"],
      None, Some("Had breakfast together, discussed weekend plans"), CRITICAL, Some("555-0001"), Some("May 15"),
      Some(Family), None)

  const Amanda: Relationship :=
    Relationship("2", "Dr. Amanda Rodriguez", "Neurologist", Some(PlaceholderImage("doctor-amanda", 150, 150)),
      ["Treating your condition", "Weekly appointments Tuesdays 2PM", "Emergency contact: 555-0123", "Office on 5th floor"],
      None, None, CRITICAL, Some("555-0123"), None,
      Some(MedicalContact), None)

  const David: Relationship :=
    Relationship("3", "David Kim", "Best Friend & Coworker", Some(PlaceholderImage("david-friend", 150, 150)),
      ["Software engineer at same company", "Knows about your condition", "Helps with work tasks", "Plays guitar"],
      None, Some("Helped debug the login system yesterday"), HIGH, Some("555-0456"), None,
      Some(Friend), None)

  const Linda: Relationship :=
    Relationship("4", "Mom (Linda Chen)", "Mother", Some(PlaceholderImage("mom-linda", 150, 150)),
      ["Calls every Sunday", "Lives in Sacramento", "Retired teacher", "Makes amazing dumplings"],
      None, None, HIGH, Some("555-0789"), Some("March 8"),
      Some(Family), None)

  const Robert: Relationship :=
    Relationship("5", "Dad (Robert Chen)", "Father", Some(PlaceholderImage("dad-robert", 150, 150)),
      ["Retired engineer", "Loves fishing", "Lives in Sacramento with Mom", "Built your first computer"],
      None, None, HIGH, Some("555-0790"), Some("July 22"),
      Some(Family), None)

  const Buddy: Relationship :=
    Relationship("6", "Buddy", "Golden Retriever", Some(PlaceholderImage("golden-retriever", 150, 150)),
      ["5 years old", "Loves tennis balls", "Needs morning and evening walks", "Favorite treat: peanut butter"],
      None, Some("Took him to the park this morning"), HIGH, None, None,
      Some(Other), None)

  /** `defaultHobbies`. */
  const DefaultHobbies: seq<Hobby> :=
    [ Hobby("1", "Photography", "Landscape and street photography", Some(PlaceholderImage("photography", 200, 150)),
        HIGH, Some("Took photos at Golden Gate Park last weekend"),
        ["Canon EOS R camera", "Favorite subjects: cityscapes", "Instagram: @marcusshots", "Darkroom in garage"], None),
      Hobby("2", "Rock Climbing", "Indoor and outdoor climbing", Some(PlaceholderImage("climbing", 200, 150)),
        MEDIUM, Some("Went to Planet Granite yesterday"),
        ["Member at Planet Granite", "Favorite route: 5.9 difficulty", "Climbing shoes size 10", "Usually climbs Tuesdays/Thursdays"], None),
      Hobby("3", "Cooking", "Experimenting with Asian fusion", Some(PlaceholderImage("cooking", 200, 150)),
        MEDIUM, None,
        ["Specialty: Korean-Italian fusion", "Favorite cookbook: \"The Food Lab\"", "Has spice collection from travels", "Sarah loves the kimchi pasta"], None)
    ]

  /** `defaultPlaces`. */
  const DefaultPlaces: seq<Place> :=
    [ Place("1", "Home", "Your apartment in Mission District", Some(PlaceholderImage("home-apartment", 200, 150)),
        CRITICAL, None,
        ["Address: 1234 Mission St, Apt 4B", "Keys usually on kitchen counter", "Buddy's food in kitchen cabinet", "Emergency key with Sarah"],
        Some("1234 Mission St, Apt 4B, San Francisco, CA")),
      Place("2", "Golden Gate Park", "Favorite place for walks and photography", Some(PlaceholderImage("golden-gate-park", 200, 150)),
        HIGH, Some("Last Sunday for photography"),
        ["Best lighting in early morning", "Buddy loves the dog park area", "Japanese Tea Garden is peaceful", "Free parking near museum"],
        Some("Golden Gate Park, San Francisco, CA")),
      Place("3", "Tartine Bakery", "Favorite coffee shop for morning routine", Some(PlaceholderImage("coffee-shop", 200, 150)),
        MEDIUM, Some("Yesterday morning"),
        ["Order: Large coffee, almond croissant", "Usually sit at corner table", "Good WiFi for work", "Sarah likes their sourdough"],
        Some("600 Guerrero St, San Francisco, CA")),
      Place("4", "Office - TechFlow Inc", "Your workplace in SOMA", Some(PlaceholderImage("office-building", 200, 150)),
        HIGH, None,
        ["Floor 12, desk by the window", "Badge access required", "David sits across from you", "Lunch usually at 12:30"],
        Some("789 Howard St, San Francisco, CA"))
    ]

}
