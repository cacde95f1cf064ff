/**
 * The place list (src/components/PlaceCard.tsx): a copy sorted by importance
 * and cut to `maxItems`, the icon chosen from the name, and the preview of a
 * place's key details.
 */
module PlaceCard {
  import opened Types
  import opened Text
  import opened Lists
  import opened Keywords

  function PlaceKey(p: Place): Key {
    Key(Rank(p.importance), 0)
  }

  /** `PlaceList`'s `sortedPlaces`. */
  function SortedPlaces(places: seq<Place>, maxItems: Option<int>): (r: seq<Place>)
    ensures |r| == SliceEnd(|places|, maxItems)
    ensures multiset(r) <= multiset(places)
    ensures forall i, j :: 0 <= i < j < |r| ==> Rank(r[j].importance) <= Rank(r[i].importance)
    ensures forall x, y :: x in r && y in multiset(places) - multiset(r) ==> Rank(y.importance) <= Rank(x.importance)
    ensures forall k :: WithKey(r, PlaceKey, k) <= WithKey(places, PlaceKey, k)
  {
    SortTake(places, PlaceKey, maxItems)
  }

  const PlaceRules: seq<Rule> := [
    Rule(["home", "apartment"], HomeIcon),
    Rule(["office", "work"], BuildingIcon),
    Rule(["coffee", "cafe", "bakery"], CoffeeIcon),
    Rule(["restaurant", "food"], UtensilsIcon),
    Rule(["park", "garden"], TreesIcon)
  ]

  /** `getPlaceIcon`, on the lower-cased name, with the map pin as the fallback. */
  function PlaceIcon(name: string): Icon {
    Classify(ToLower(name), PlaceRules, MapPinIcon)
  }

  /** The map pin is shown exactly for a name that mentions none of the keywords. */
  lemma PlaceIconFallback(name: string)
    ensures PlaceIcon(name) == MapPinIcon <==> forall i :: 0 <= i < |PlaceRules| ==> !AnyIncluded(ToLower(name), PlaceRules[i].words)
  {
  }

  /** The choice ignores the case of ASCII letters. */
  lemma PlaceIconIgnoresCase(name: string)
    ensures PlaceIcon(ToLower(name)) == PlaceIcon(name)
  {
    ToLowerIdempotent(name);
  }

  /** The key-details preview: at most three details, plus a count of the rest. */
  function PlacePreview(place: Place): (p: Preview<string>)
    ensures |p.shown| == (if |place.keyDetails| < 3 then |place.keyDetails| else 3)
    ensures p.shown == place.keyDetails[..|p.shown|]
    ensures p.more.Some? <==> |place.keyDetails| > 3
    ensures p.more.Some? ==> p.more.value == |place.keyDetails| - 3
    ensures p.more.None? ==> p.shown == place.keyDetails
  {
    PreviewDetails(place.keyDetails)
  }
}
