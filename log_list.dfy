/**
 * The memory list (src/components/LogList.tsx): a copy of the logs sorted by
 * priority and then by recency, cut to `maxItems`, and the icon of each
 * log's category.
 */
module LogList {
  import opened Types
  import opened Lists

  /** Priority rank first, then the timestamp: the larger comes first. */
  function LogKey(log: Log): Key {
    Key(Rank(log.priority), log.timestamp)
  }

  /**
   * `sortedLogs`: ordered by priority (CRITICAL, HIGH, MEDIUM, LOW) and, within
   * a priority, newest first; as many as `slice(0, maxItems)` leaves, drawn
   * from the input and ranked at or above every log left out.
   */
  function SortedLogs(logs: seq<Log>, maxItems: Option<int>): (r: seq<Log>)
    ensures |r| == SliceEnd(|logs|, maxItems)
    ensures maxItems.None? ==> multiset(r) == multiset(logs)
    ensures multiset(r) <= multiset(logs)
    ensures forall i, j :: 0 <= i < j < |r| ==>
      Rank(r[j].priority) < Rank(r[i].priority)
      || (Rank(r[j].priority) == Rank(r[i].priority) && r[j].timestamp <= r[i].timestamp)
    ensures forall x, y :: x in r && y in multiset(logs) - multiset(r) ==>
      Rank(y.priority) < Rank(x.priority) || (Rank(y.priority) == Rank(x.priority) && y.timestamp <= x.timestamp)
    ensures forall k :: WithKey(r, LogKey, k) <= WithKey(logs, LogKey, k)
  {
    SortTakeAll(logs, LogKey);
    SortTake(logs, LogKey, maxItems)
  }

  /** `getCategoryIcon`; the categories without an icon of their own fall to User. */
  function CategoryIcon(category: Category): Icon {
    match category
    case Relationships => HeartIcon
    case Work => BriefcaseIcon
    case Medical => PlusIcon
    case Personal => UserIcon
    case Emergency => AlertTriangleIcon
    case _ => UserIcon
  }

  /** Every icon other than User names exactly one category. */
  lemma CategoryIconIdentifies(a: Category, b: Category)
    requires CategoryIcon(a) == CategoryIcon(b) && CategoryIcon(a) != UserIcon
    ensures a == b
  {
  }

  /** The categories shown with the User icon. */
  lemma CategoryIconUser(c: Category)
    ensures CategoryIcon(c) == UserIcon <==> c == Personal || c == Hobbies || c == Places
  {
  }
}
