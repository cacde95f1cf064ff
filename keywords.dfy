/**
 * The first-match keyword classifiers of the cards: a lower-cased name is
 * tested against groups of keywords in a fixed order, and the first group
 * with a keyword contained in the name chooses the icon.
 */
module Keywords {
  import opened Types
  import opened Text

  /** A group of keywords and the icon it chooses. */
  datatype Rule = Rule(words: seq<string>, icon: Icon)

  /** `text.includes(w1) || text.includes(w2) || ...`. */
  function AnyIncluded(text: string, words: seq<string>): (r: bool)
    ensures r <==> exists i :: 0 <= i < |words| && Includes(text, words[i])
  {
    if |words| == 0 then false
    else
      assert forall i :: 0 < i < |words| ==> words[i] == words[1..][i - 1];
      Includes(text, words[0]) || AnyIncluded(text, words[1..])
  }

  /** The position of the first rule that matches, or the number of rules when none does. */
  function MatchIndex(text: string, rules: seq<Rule>): (i: nat)
    ensures i <= |rules|
    ensures i < |rules| ==> AnyIncluded(text, rules[i].words)
    ensures forall j :: 0 <= j < i ==> !AnyIncluded(text, rules[j].words)
  {
    if |rules| == 0 then 0
    else if AnyIncluded(text, rules[0].words) then 0
    else
      var i := MatchIndex(text, rules[1..]);
      assert forall j :: 0 < j <= i ==> rules[j] == rules[1..][j - 1];
      1 + i
  }

  /** The icon of the first matching rule, or `fallback` when no rule matches. */
  function Classify(text: string, rules: seq<Rule>, fallback: Icon): (r: Icon)
    ensures (exists i :: 0 <= i < |rules| && AnyIncluded(text, rules[i].words) && r == rules[i].icon
               && forall j :: 0 <= j < i ==> !AnyIncluded(text, rules[j].words))
         || (r == fallback && forall i :: 0 <= i < |rules| ==> !AnyIncluded(text, rules[i].words))
  {
    var i := MatchIndex(text, rules);
    if i < |rules| then rules[i].icon else fallback
  }
}
