/**
 * The records of the memory assistant (src/types/index.ts), as Dafny values.
 *
 * Optional TypeScript fields (`photo?: string`) become `Option`s; optional
 * booleans (`isPersistent?: boolean`) become `bool`, an absent flag reading as
 * `false` exactly as JavaScript's truthiness does in every place the source
 * tests it.
 */
module Types {

  datatype Option<+T> = None | Some(value: T) {
    function GetOr(default: T): T {
      match this
      case Some(v) => v
      case None => default
    }
  }

  /** Severity of a log, and importance of a person, hobby or place. */
  datatype Priority = CRITICAL | HIGH | MEDIUM | LOW

  datatype Category = Relationships | Work | Medical | Personal | Emergency | Hobbies | Places

  /** The four phases of a memory cycle, from the calmest to the terminal one. */
  datatype Phase = Awareness | Urgency | Critical | Reset

  datatype RelationshipType = Family | Friend | MedicalContact | WorkContact | Other

  datatype User = User(
    id: string,
    name: string,
    condition: string,
    cycleLength: int,      // seconds
    currentCycle: int,
    lastResetTime: int,    // timestamp
    trustCode: Option<string>,
    isTimerActive: bool,
    autoStart: bool)

  datatype Log = Log(
    id: string,
    content: string,
    priority: Priority,
    category: Category,
    timestamp: int,
    cycleNumber: int,
    isEmergency: bool,
    isPersistent: bool)

  /** What a caller hands to `addLog`: a log without its id, timestamp and cycle number. */
  datatype LogInput = LogInput(
    content: string,
    priority: Priority,
    category: Category,
    isEmergency: bool,
    isPersistent: bool)

  /**
   * A person. The record is read through two fact lists: `keyFacts` (the
   * declared field, filled in by the built-in data and shown on the cards) and
   * `facts` (the `facts[].fact` texts the relationship form writes and the
   * reset sequence reads). Likewise the declared `relationship` tag sits beside
   * the `relationshipType` tag the form writes.
   */
  datatype Relationship = Relationship(
    id: string,
    name: string,
    relation: string,
    photo: Option<string>,
    keyFacts: seq<string>,
    facts: Option<seq<string>>,
    lastInteraction: Option<string>,
    importance: Priority,
    contactInfo: Option<string>,
    birthday: Option<string>,
    relationship: Option<RelationshipType>,
    relationshipType: Option<RelationshipType>)

  /** A hobby; `details` holds the `details[].detail` texts the hobby card reads. */
  datatype Hobby = Hobby(
    id: string,
    name: string,
    description: string,
    image: Option<string>,
    importance: Priority,
    lastEngaged: Option<string>,
    keyDetails: seq<string>,
    details: Option<seq<string>>)

  datatype Place = Place(
    id: string,
    name: string,
    description: string,
    image: Option<string>,
    importance: Priority,
    lastVisited: Option<string>,
    keyDetails: seq<string>,
    address: Option<string>)

  datatype MemoryState = MemoryState(
    user: User,
    logs: seq<Log>,
    relationships: seq<Relationship>,
    hobbies: seq<Hobby>,
    places: seq<Place>,
    currentPhase: Phase,
    timeRemaining: int,
    isConfused: bool,
    reminderQueue: seq<Log>)

  datatype ResetSequenceStep = ResetSequenceStep(
    id: string,
    title: string,
    content: string,
    priority: Priority,
    delay: int)   // milliseconds

  /** The lucide-react icons the components choose between. */
  datatype Icon =
    | HeartIcon | UserIcon | BriefcaseIcon | PlusIcon | AlertTriangleIcon
    | CameraIcon | MountainIcon | ChefHatIcon | Gamepad2Icon | MusicIcon
    | HomeIcon | BuildingIcon | CoffeeIcon | UtensilsIcon | TreesIcon | MapPinIcon

  /**
   * The rank every list component gives a priority:
   * CRITICAL 4, HIGH 3, MEDIUM 2, LOW 1.
   */
  function Rank(p: Priority): (r: int)
    ensures 1 <= r <= 4
  {
    match p
    case CRITICAL => 4
    case HIGH => 3
    case MEDIUM => 2
    case LOW => 1
  }

  /**
   * A log that is CRITICAL or marked persistent: such a log is queued as a
   * reminder when it is added and survives a cycle reset.
   */
  predicate IsPinned(log: Log) {
    log.priority == CRITICAL || log.isPersistent
  }
}
