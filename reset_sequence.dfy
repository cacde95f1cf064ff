/**
 * The scripted reorientation shown after a cycle ends
 * (src/components/ResetSequence.tsx): seven fixed steps, three of them built
 * from the remembered people and logs, shown one after another on a timer or
 * skipped, and a completion screen whose button starts the next cycle.
 */
module ResetSequence {
  import opened Types
  import opened Text
  import opened Lists
  import Storage

  /** The texts shown in place of an empty list. */
  const NoPeopleText := "No critical relationships saved."
  const NoCriticalMemoriesText := "No critical memories from the last cycle."
  const NoHighMemoriesText := "No high priority memories from the last cycle."

  /** `text || fallback` on strings: the empty string is falsy. */
  function OrElse(text: string, fallback: string): (r: string)
    ensures text != "" ==> r == text
    ensures text == "" ==> r == fallback
  {
    if text == "" then fallback else text
  }

  predicate IsCriticalPerson(r: Relationship) { r.importance == CRITICAL }
  predicate IsCriticalLog(l: Log) { l.priority == CRITICAL }
  predicate IsHighLog(l: Log) { l.priority == HIGH }

  /** The first fact as written: `r.facts?.[0]?.fact || 'Important person'`. */
  function FirstFactAsWritten(r: Relationship): string {
    match r.facts
    case Some(fs) => OrElse(if |fs| > 0 then fs[0] else "", "Important person")
    case None => "Important person"
  }

  /**
   * A relationship recorded with `keyFacts` only, as every built-in one is,
   * is always introduced as "Important person": its facts are never read.
   */
  lemma FirstFactIgnoresKeyFacts(r: Relationship)
    requires r.facts.None?
    ensures FirstFactAsWritten(r) == "Important person"
  {
  }

  /**
   * The first fact as intended: the first entry of `facts` when there is a
   * non-empty one, otherwise the first entry of `keyFacts` when there is a
   * non-empty one, otherwise "Important person".
   */
  function FirstFact(r: Relationship): (f: string)
    ensures r.facts.Some? && |r.facts.value| > 0 && r.facts.value[0] != "" ==> f == r.facts.value[0]
    ensures !(r.facts.Some? && |r.facts.value| > 0 && r.facts.value[0] != "") ==>
      (if |r.keyFacts| > 0 && r.keyFacts[0] != "" then f == r.keyFacts[0] else f == "Important person")
  {
    var fromFacts := if r.facts.Some? && |r.facts.value| > 0 then r.facts.value[0] else "";
    var fromKeyFacts := if |r.keyFacts| > 0 then r.keyFacts[0] else "";
    OrElse(OrElse(fromFacts, fromKeyFacts), "Important person")
  }

  /** The correction changes nothing for a relationship whose `facts` the written code can read. */
  lemma FirstFactExtendsWritten(r: Relationship)
    ensures FirstFactAsWritten(r) != "Important person" ==> FirstFact(r) == FirstFactAsWritten(r)
    ensures FirstFactAsWritten(r) == "Important person" && r.keyFacts == [] ==> FirstFact(r) == "Important person"
  {
  }

  function PersonLineAsWritten(r: Relationship): string {
    r.name + " - " + r.relation + ": " + FirstFactAsWritten(r)
  }

  function PersonLine(r: Relationship): string {
    r.name + " - " + r.relation + ": " + FirstFact(r)
  }

  /** Step 4 as written: one line per CRITICAL person, or a fixed text when there is none. */
  function PeopleContentAsWritten(rs: seq<Relationship>): string {
    OrElse(Join(Map(Filter(rs, IsCriticalPerson), PersonLineAsWritten), '\n'), NoPeopleText)
  }

  /**
   * The lines of step 4 in the corrected reading (see README, Findings): one
   * per CRITICAL person, in list order, each with `FirstFact`.
   */
  function PeopleLines(rs: seq<Relationship>): (lines: seq<string>)
    ensures |lines| == |Filter(rs, IsCriticalPerson)|
    ensures forall i :: 0 <= i < |lines| ==> lines[i] == PersonLine(Filter(rs, IsCriticalPerson)[i])
  {
    Map(Filter(rs, IsCriticalPerson), PersonLine)
  }

  /** A joined list starts with its first element. */
  lemma JoinStartsWith(xs: seq<string>, sep: char)
    requires |xs| > 0
    ensures xs[0] <= Join(xs, sep)
  {
  }

  lemma NoDashInNoPeopleText()
    ensures '-' !in NoPeopleText
  {
  }

  /** The lines of step 4 exist exactly when there is a CRITICAL person, and never spell the fixed text. */
  lemma PeopleJoin(rs: seq<Relationship>)
    ensures |PeopleLines(rs)| > 0 <==> exists r :: r in rs && IsCriticalPerson(r)
    ensures Join(PeopleLines(rs), '\n') != NoPeopleText
    ensures |PeopleLines(rs)| > 0 ==> Join(PeopleLines(rs), '\n') != ""
  {
    var lines := PeopleLines(rs);
    var critical := Filter(rs, IsCriticalPerson);
    forall r | r in rs && IsCriticalPerson(r) ensures r in critical {
      FilterMembers(rs, IsCriticalPerson, r);
    }
    if |lines| > 0 {
      var name := critical[0].name;
      FilterMembers(rs, IsCriticalPerson, critical[0]);
      assert lines[0] == name + " - " + critical[0].relation + ": " + FirstFact(critical[0]);
      assert lines[0][|name| + 1] == '-';
      JoinStartsWith(lines, '\n');
      var j := Join(lines, '\n');
      assert j[|name| + 1] == '-';
      NoDashInNoPeopleText();
      if |j| == |NoPeopleText| {
        assert NoPeopleText[|name| + 1] in NoPeopleText;
        assert j[|name| + 1] != NoPeopleText[|name| + 1];
      }
    } else {
      assert critical == [];
    }
  }

  /**
   * Step 4 in the corrected reading lists the CRITICAL people when there is
   * at least one, and shows the fixed text exactly when there is none.
   */
  function PeopleContent(rs: seq<Relationship>): (c: string)
    ensures (exists r :: r in rs && IsCriticalPerson(r)) ==> c == Join(PeopleLines(rs), '\n')
    ensures c == NoPeopleText <==> !exists r :: r in rs && IsCriticalPerson(r)
  {
    PeopleJoin(rs);
    OrElse(Join(PeopleLines(rs), '\n'), NoPeopleText)
  }

  /** `• content`. */
  function Bullet(l: Log): string {
    "• " + l.content
  }

  /** The bulleted lines of the first `limit` logs that pass `keep`. */
  function BulletLines(logs: seq<Log>, keep: Log -> bool, limit: nat): (lines: seq<string>)
    ensures |lines| == if |Filter(logs, keep)| < limit then |Filter(logs, keep)| else limit
    ensures forall i :: 0 <= i < |lines| ==> lines[i] == "• " + Filter(logs, keep)[i].content
  {
    Map(SliceTo(Filter(logs, keep), Some(limit)), Bullet)
  }

  /** Bulleted lines never join to the empty text. */
  lemma BulletsJoin(logs: seq<Log>, keep: Log -> bool, limit: nat)
    ensures |BulletLines(logs, keep, limit)| > 0 ==> Join(BulletLines(logs, keep, limit), '\n') != ""
  {
    var lines := BulletLines(logs, keep, limit);
    if |lines| > 0 {
      JoinStartsWith(lines, '\n');
      assert lines[0][0] == '•';
    }
  }

  /** Step 5: the first five CRITICAL logs, or a fixed text when there is none. */
  function CriticalMemoriesContent(logs: seq<Log>): (c: string)
    ensures |Filter(logs, IsCriticalLog)| > 0 ==> c == Join(BulletLines(logs, IsCriticalLog, 5), '\n')
    ensures |Filter(logs, IsCriticalLog)| == 0 ==> c == NoCriticalMemoriesText
  {
    BulletsJoin(logs, IsCriticalLog, 5);
    OrElse(Join(BulletLines(logs, IsCriticalLog, 5), '\n'), NoCriticalMemoriesText)
  }

  /** Step 6: the first three HIGH logs, or a fixed text when there is none. */
  function HighMemoriesContent(logs: seq<Log>): (c: string)
    ensures |Filter(logs, IsHighLog)| > 0 ==> c == Join(BulletLines(logs, IsHighLog, 3), '\n')
    ensures |Filter(logs, IsHighLog)| == 0 ==> c == NoHighMemoriesText
  {
    BulletsJoin(logs, IsHighLog, 3);
    OrElse(Join(BulletLines(logs, IsHighLog, 3), '\n'), NoHighMemoriesText)
  }

  /** How long each step stays on screen, in milliseconds. */
  const StepDelays: seq<int> := [1000, 2000, 2000, 3000, 3000, 2000, 2000]

  /** The step ids: the step numbers, counted from 1. */
  const StepIds: seq<string> := ["1", "2", "3", "4", "5", "6", "7"]

  lemma StepIdsAreNumbers()
    ensures |StepIds| == 7
    ensures forall i :: 0 <= i < 7 ==> StepIds[i] == [DigitChar(i + 1)]
  {
  }

  /** `steps`, built from the state the sequence opens on, with step 4 in the corrected reading. */
  function Steps(state: MemoryState): (steps: seq<ResetSequenceStep>)
    ensures |steps| == 7
    ensures forall i :: 0 <= i < 7 ==> steps[i].id == StepIds[i] && steps[i].delay == StepDelays[i]
    ensures steps[3].content == PeopleContent(state.relationships)
    ensures steps[4].content == CriticalMemoriesContent(state.logs)
    ensures steps[5].content == HighMemoriesContent(state.logs)
  {
    StepList(PeopleContent(state.relationships), CriticalMemoriesContent(state.logs), HighMemoriesContent(state.logs))
  }

  /** The seven steps around the texts of steps 4 to 6. */
  function StepList(people: string, critical: string, high: string): (steps: seq<ResetSequenceStep>)
    ensures |steps| == 7
    ensures forall i :: 0 <= i < 7 ==> steps[i].id == StepIds[i] && steps[i].delay == StepDelays[i]
    ensures steps[3].content == people && steps[4].content == critical && steps[5].content == high
  {
    [ HelloStep, ConditionStep, TrustStep,
      ResetSequenceStep("4", "Most Important People", people, CRITICAL, 3000),
      ResetSequenceStep("5", "Critical Memories", critical, HIGH, 3000),
      ResetSequenceStep("6", "Recent Important Events", high, HIGH, 2000),
      ReadyStep
    ]
  }

  /** The four steps whose text is fixed. */
  const HelloStep := ResetSequenceStep("1", "Hello", "Your name is Marcus Chen", CRITICAL, 1000)
  const ConditionStep := ResetSequenceStep("2", "Your Condition",
    "You have a memory condition that resets every 48 hours. This app helps you remember.", CRITICAL, 2000)
  const TrustStep := ResetSequenceStep("3", "Trust Verification",
    "You left yourself a trust code: SARAH2024. This means you can trust this information.", CRITICAL, 2000)
  const ReadyStep := ResetSequenceStep("7", "You Are Ready",
    "You have access to all your memories. The timer will start when you're ready.", MEDIUM, 2000)

  /** The built-in people, CRITICAL ones first. */
  lemma BuiltInPeopleSplit()
    ensures Storage.DefaultRelationships
      == [Storage.Sarah, Storage.Amanda] + [Storage.David, Storage.Linda, Storage.Robert, Storage.Buddy]
  {
  }

  lemma BuiltInFirstTwoCritical()
    ensures Filter([Storage.Sarah, Storage.Amanda], IsCriticalPerson) == [Storage.Sarah, Storage.Amanda]
  {
    FilterAll([Storage.Sarah, Storage.Amanda], IsCriticalPerson);
  }

  lemma BuiltInRestNotCritical()
    ensures Filter([Storage.David, Storage.Linda, Storage.Robert, Storage.Buddy], IsCriticalPerson) == []
  {
    FilterNone([Storage.David, Storage.Linda, Storage.Robert, Storage.Buddy], IsCriticalPerson);
  }

  /** Of the built-in people, Sarah and Dr. Rodriguez are the CRITICAL ones. */
  lemma BuiltInCriticalPeople()
    ensures Filter(Storage.DefaultRelationships, IsCriticalPerson) == [Storage.Sarah, Storage.Amanda]
  {
    BuiltInPeopleSplit();
    BuiltInFirstTwoCritical();
    BuiltInRestNotCritical();
    FilterAppend([Storage.Sarah, Storage.Amanda], [Storage.David, Storage.Linda, Storage.Robert, Storage.Buddy],
      IsCriticalPerson);
  }

  lemma BuiltInLinesAsWritten()
    ensures PersonLineAsWritten(Storage.Sarah) == "Sarah Chen" + " - " + "Wife" + ": " + "Important person"
    ensures PersonLineAsWritten(Storage.Amanda) == "Dr. Amanda Rodriguez" + " - " + "Neurologist" + ": " + "Important person"
  {
  }

  lemma SarahFirstFact()
    ensures FirstFact(Storage.Sarah) == "Anniversary May 15"
  {
    assert Storage.Sarah.keyFacts[0] == "Anniversary May 15";
  }

  lemma AmandaFirstFact()
    ensures FirstFact(Storage.Amanda) == "Treating your condition"
  {
    assert Storage.Amanda.keyFacts[0] == "Treating your condition";
  }

  lemma PersonLineFrom(r: Relationship, name: string, relation: string, fact: string)
    requires r.name == name && r.relation == relation && FirstFact(r) == fact
    ensures PersonLine(r) == name + " - " + relation + ": " + fact
  {
  }

  lemma SarahLine()
    ensures PersonLine(Storage.Sarah) == "Sarah Chen" + " - " + "Wife" + ": " + "Anniversary May 15"
  {
    SarahFirstFact();
    PersonLineFrom(Storage.Sarah, "Sarah Chen", "Wife", "Anniversary May 15");
  }

  lemma AmandaLine()
    ensures PersonLine(Storage.Amanda) == "Dr. Amanda Rodriguez" + " - " + "Neurologist" + ": " + "Treating your condition"
  {
    AmandaFirstFact();
    PersonLineFrom(Storage.Amanda, "Dr. Amanda Rodriguez", "Neurologist", "Treating your condition");
  }

  /** Step 4 for a list with exactly two CRITICAL people. */
  lemma TwoCriticalPeople(rs: seq<Relationship>, x: Relationship, y: Relationship)
    requires Filter(rs, IsCriticalPerson) == [x, y]
    ensures PeopleContent(rs) == PersonLine(x) + "\n" + PersonLine(y)
  {
    assert PeopleLines(rs) == [PersonLine(x), PersonLine(y)];
    JoinTwo(PersonLine(x), PersonLine(y));
  }

  /** Step 4 as written for a list with exactly two CRITICAL people. */
  lemma TwoCriticalPeopleAsWritten(rs: seq<Relationship>, x: Relationship, y: Relationship)
    requires Filter(rs, IsCriticalPerson) == [x, y]
    ensures PeopleContentAsWritten(rs) == PersonLineAsWritten(x) + "\n" + PersonLineAsWritten(y)
  {
    assert Map([x, y], PersonLineAsWritten) == [PersonLineAsWritten(x), PersonLineAsWritten(y)];
    JoinTwo(PersonLineAsWritten(x), PersonLineAsWritten(y));
  }

  /** Two lines joined by a newline. */
  lemma JoinTwo(a: string, b: string)
    ensures Join([a, b], '\n') == a + "\n" + b
  {
    assert [a, b][1..] == [b];
  }

  /**
   * With the built-in people, the sequence as written introduces both CRITICAL
   * people as "Important person", although each has a first key fact to show.
   */
  lemma BuiltInPeopleAsWritten()
    ensures PeopleContentAsWritten(Storage.DefaultRelationships)
      == PersonLineAsWritten(Storage.Sarah) + "\n" + PersonLineAsWritten(Storage.Amanda)
    ensures PersonLineAsWritten(Storage.Sarah) == "Sarah Chen" + " - " + "Wife" + ": " + "Important person"
    ensures PersonLineAsWritten(Storage.Amanda) == "Dr. Amanda Rodriguez" + " - " + "Neurologist" + ": " + "Important person"
  {
    BuiltInCriticalPeople();
    TwoCriticalPeopleAsWritten(Storage.DefaultRelationships, Storage.Sarah, Storage.Amanda);
    BuiltInLinesAsWritten();
  }

  /** With the corrected first fact, the same people are introduced by their first key facts. */
  lemma BuiltInPeople()
    ensures PeopleContent(Storage.DefaultRelationships)
      == PersonLine(Storage.Sarah) + "\n" + PersonLine(Storage.Amanda)
    ensures PersonLine(Storage.Sarah) == "Sarah Chen" + " - " + "Wife" + ": " + "Anniversary May 15"
    ensures PersonLine(Storage.Amanda) == "Dr. Amanda Rodriguez" + " - " + "Neurologist" + ": " + "Treating your condition"
  {
    BuiltInCriticalPeople();
    TwoCriticalPeople(Storage.DefaultRelationships, Storage.Sarah, Storage.Amanda);
    SarahLine();
    AmandaLine();
  }

  /** The screen the sequence shows. */
  datatype Screen = Initializing | StepScreen(index: nat) | Completion

  /** The component's state. */
  class ResetSequenceView {
    const steps: seq<ResetSequenceStep>
    var currentStep: nat
    var isVisible: bool
    /** How many times the completion callback has been called. */
    var completions: nat

    ghost predicate Valid()
      reads this
    {
      |steps| == 7 && currentStep <= |steps|
    }

    /** What the component renders. */
    function View(): (s: Screen)
      reads this
      ensures s == Initializing <==> !isVisible
      ensures s == Completion <==> isVisible && currentStep >= |steps|
      ensures s.StepScreen? <==> isVisible && currentStep < |steps|
      ensures s.StepScreen? ==> s.index == currentStep
    {
      if !isVisible then Initializing
      else if currentStep >= |steps| then Completion
      else StepScreen(currentStep)
    }

    /** The first render, before the mount effect has run. */
    constructor(state: MemoryState)
      ensures Valid()
      ensures steps == Steps(state) && currentStep == 0 && !isVisible && completions == 0
    {
      steps := Steps(state);
      currentStep := 0;
      isVisible := false;
      completions := 0;
    }

    /** The mount effect: the sequence becomes visible. */
    method Mount()
      requires Valid()
      modifies this
      ensures Valid()
      ensures isVisible && currentStep == old(currentStep) && completions == old(completions)
    {
      isVisible := true;
    }

    /** The delay of the pending step timer: the step's own delay, or two seconds when it is 0. */
    function PendingDelay(): (d: int)
      reads this
      requires Valid() && currentStep < |steps|
      ensures d != 0
      ensures steps[currentStep].delay != 0 ==> d == steps[currentStep].delay
      ensures steps[currentStep].delay == 0 ==> d == 2000
    {
      if steps[currentStep].delay != 0 then steps[currentStep].delay else 2000
    }

    /** The step timer fires; it is armed only while a step is visible. */
    method Advance()
      requires Valid() && isVisible && currentStep < |steps|
      modifies this
      ensures Valid()
      ensures currentStep == old(currentStep) + 1 && isVisible && completions == old(completions)
    {
      currentStep := currentStep + 1;
    }

    /** `handleSkip`, from the button on a step screen. */
    method Skip()
      requires Valid() && View().StepScreen?
      modifies this
      ensures Valid()
      ensures currentStep == |steps| && View() == Completion && completions == old(completions)
    {
      currentStep := |steps|;
    }

    /** `handleComplete`, from the button on the completion screen. */
    method Complete()
      requires Valid() && View() == Completion
      modifies this
      ensures Valid()
      ensures completions == old(completions) + 1
      ensures currentStep == old(currentStep) && isVisible == old(isVisible)
    {
      completions := completions + 1;
    }
  }
}
