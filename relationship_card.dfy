/**
 * The people list (src/components/RelationshipCard.tsx): a copy sorted by
 * importance and cut to `maxItems`, and the icon chosen from the relation.
 */
module RelationshipCard {
  import opened Types
  import opened Text
  import opened Lists
  import opened Keywords

  function RelationshipKey(r: Relationship): Key {
    Key(Rank(r.importance), 0)
  }

  /**
   * `RelationshipList`'s `sortedRelationships`: most important first; the
   * people of one importance that are shown are the first ones of that
   * importance in the input, in input order.
   */
  function SortedRelationships(rs: seq<Relationship>, maxItems: Option<int>): (r: seq<Relationship>)
    ensures |r| == SliceEnd(|rs|, maxItems)
    ensures multiset(r) <= multiset(rs)
    ensures forall i, j :: 0 <= i < j < |r| ==> Rank(r[j].importance) <= Rank(r[i].importance)
    ensures forall x, y :: x in r && y in multiset(rs) - multiset(r) ==> Rank(y.importance) <= Rank(x.importance)
    ensures forall k :: WithKey(r, RelationshipKey, k) <= WithKey(rs, RelationshipKey, k)
  {
    SortTake(rs, RelationshipKey, maxItems)
  }

  const RelationRules: seq<Rule> := [
    Rule(["wife", "husband", "spouse"], HeartIcon),
    Rule(["doctor", "dr."], UserIcon)
  ]

  /** `getRelationIcon`, on the lower-cased relation. */
  function RelationIcon(relation: string): Icon {
    Classify(ToLower(relation), RelationRules, UserIcon)
  }

  /** The heart marks exactly the spouses: a relation naming a wife, a husband or a spouse. */
  lemma RelationIconHeart(relation: string)
    ensures RelationIcon(relation) == HeartIcon <==> AnyIncluded(ToLower(relation), ["wife", "husband", "spouse"])
    ensures RelationIcon(relation) != HeartIcon ==> RelationIcon(relation) == UserIcon
  {
  }

  /** The choice ignores the case of ASCII letters. */
  lemma RelationIconIgnoresCase(relation: string)
    ensures RelationIcon(ToLower(relation)) == RelationIcon(relation)
  {
    ToLowerIdempotent(relation);
  }
}
