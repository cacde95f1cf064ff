/**
 * The hobby list (src/components/HobbyCard.tsx): a copy sorted by importance
 * and cut to `maxItems`, the icon chosen from the name, and the preview of a
 * hobby's details.
 */
module HobbyCard {
  import opened Types
  import opened Text
  import opened Lists
  import opened Keywords

  function HobbyKey(h: Hobby): Key {
    Key(Rank(h.importance), 0)
  }

  /** `HobbyList`'s `sortedHobbies`. */
  function SortedHobbies(hobbies: seq<Hobby>, maxItems: Option<int>): (r: seq<Hobby>)
    ensures |r| == SliceEnd(|hobbies|, maxItems)
    ensures multiset(r) <= multiset(hobbies)
    ensures forall i, j :: 0 <= i < j < |r| ==> Rank(r[j].importance) <= Rank(r[i].importance)
    ensures forall x, y :: x in r && y in multiset(hobbies) - multiset(r) ==> Rank(y.importance) <= Rank(x.importance)
    ensures forall k :: WithKey(r, HobbyKey, k) <= WithKey(hobbies, HobbyKey, k)
  {
    SortTake(hobbies, HobbyKey, maxItems)
  }

  const HobbyRules: seq<Rule> := [
    Rule(["photo"], CameraIcon),
    Rule(["climb", "hik"], MountainIcon),
    Rule(["cook", "food"], ChefHatIcon),
    Rule(["game"], Gamepad2Icon),
    Rule(["music"], MusicIcon)
  ]

  /** `getHobbyIcon`, on the lower-cased name; the camera is also the fallback. */
  function HobbyIcon(name: string): Icon {
    Classify(ToLower(name), HobbyRules, CameraIcon)
  }

  /** A name mentioning photography always shows the camera, whatever else it mentions. */
  lemma HobbyIconPhotoFirst(name: string)
    requires Includes(ToLower(name), "photo")
    ensures HobbyIcon(name) == CameraIcon
  {
    assert AnyIncluded(ToLower(name), HobbyRules[0].words);
  }

  /**
   * The music icon is chosen only for a name that mentions music and none of
   * the keywords tested before it.
   */
  lemma HobbyIconMusic(name: string)
    ensures HobbyIcon(name) == MusicIcon <==>
      Includes(ToLower(name), "music")
      && !exists i :: 0 <= i < 4 && AnyIncluded(ToLower(name), HobbyRules[i].words)
  {
    var text := ToLower(name);
    var i := MatchIndex(text, HobbyRules);
    assert HobbyIcon(name) == if i < |HobbyRules| then HobbyRules[i].icon else CameraIcon;
    assert HobbyIcon(name) == MusicIcon <==> i == 4;
    assert AnyIncluded(text, HobbyRules[4].words) <==> Includes(text, "music");
  }

  /** The details preview: at most three of the `details` texts, plus a count of the rest. */
  function HobbyPreview(hobby: Hobby): (p: Preview<string>)
    ensures var details := hobby.details.GetOr([]);
      |p.shown| == (if |details| < 3 then |details| else 3) && p.shown == details[..|p.shown|]
    ensures hobby.details.None? ==> p == Preview([], None)
    ensures p.more.Some? <==> |hobby.details.GetOr([])| > 3
    ensures p.more.Some? ==> p.more.value == |hobby.details.GetOr([])| - 3
    ensures p.more.None? ==> p.shown == hobby.details.GetOr([])
  {
    PreviewDetails(hobby.details.GetOr([]))
  }
}
