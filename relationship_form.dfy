/**
 * The person form (src/components/RelationshipForm.tsx): the form data it
 * starts from, field-by-field input, and the relationship a submission adds
 * or writes back.
 */
module RelationshipForm {
  import opened Types
  import opened Text
  import opened Lists
  import opened MemoryContext

  /** `formData`: every field as the text the inputs hold, and the two selects. */
  datatype FormData = FormData(
    name: string,
    relation: string,
    photo: string,
    contactInfo: string,
    birthday: string,
    relationship: RelationshipType,
    importance: Priority,
    keyFacts: string,
    lastInteraction: string)

  /** `value || ''` for an optional text. */
  function TextOf(o: Option<string>): (t: string)
    ensures o.None? ==> t == []
    ensures o.Some? ==> t == o.value
  {
    match o
    case Some(v) => v
    case None => []
  }

  /** The form data the form opens with: the edited relationship's fields, or empty fields. */
  function InitialFormData(editing: Option<Relationship>): (f: FormData)
    ensures editing.None? ==> f == FormData([], [], [], [], [], Other, MEDIUM, [], [])
    ensures editing.Some? ==> (f.name == editing.value.name && f.relation == editing.value.relation
      && f.importance == editing.value.importance
      && f.keyFacts == Join(editing.value.facts.GetOr([]), '\n')
      && f.relationship == editing.value.relationshipType.GetOr(Other)
      && f.photo == TextOf(editing.value.photo) && f.contactInfo == TextOf(editing.value.contactInfo)
      && f.birthday == TextOf(editing.value.birthday) && f.lastInteraction == TextOf(editing.value.lastInteraction))
  {
    match editing
    case None => FormData([], [], [], [], [], Other, MEDIUM, [], [])
    case Some(r) =>
      FormData(r.name, r.relation, TextOf(r.photo), TextOf(r.contactInfo), TextOf(r.birthday),
        r.relationshipType.GetOr(Other), r.importance, Join(r.facts.GetOr([]), '\n'), TextOf(r.lastInteraction))
  }

  predicate NonEmpty(s: string) { |s| > 0 }

  /** The fact texts of the facts box: one per line, trimmed, blank lines dropped, in order. */
  function ParseFacts(text: string): (facts: seq<string>)
    ensures forall i :: 0 <= i < |facts| ==> facts[i] != [] && IsTrimmed(facts[i])
  {
    TrimmedLines(Split(text, '\n'))
  }

  /** The lines trimmed, with the empty ones dropped. */
  function TrimmedLines(lines: seq<string>): (facts: seq<string>)
    ensures forall i :: 0 <= i < |facts| ==> facts[i] != [] && IsTrimmed(facts[i])
  {
    var trimmed := Map(lines, Trim);
    FilterKeepsTrimmed(trimmed);
    Filter(trimmed, NonEmpty)
  }

  lemma FilterKeepsTrimmed(xs: seq<string>)
    requires forall i :: 0 <= i < |xs| ==> IsTrimmed(xs[i])
    ensures forall i :: 0 <= i < |Filter(xs, NonEmpty)| ==> IsTrimmed(Filter(xs, NonEmpty)[i])
  {
    var kept := Filter(xs, NonEmpty);
    forall i | 0 <= i < |kept| ensures IsTrimmed(kept[i]) {
      assert kept[i] in multiset(xs);
      var j :| 0 <= j < |xs| && xs[j] == kept[i];
    }
  }

  /** A fact is kept exactly when it is a line of the box, trimmed, and not empty. */
  lemma ParseFactsMembers(text: string)
    ensures forall x :: x in ParseFacts(text) <==> x != [] && x in Map(Split(text, '\n'), Trim)
  {
    var lines := Split(text, '\n');
    assert ParseFacts(text) == TrimmedLines(lines);
    forall x ensures x in TrimmedLines(lines) <==> x != [] && x in Map(lines, Trim) {
      FilterMembers(Map(lines, Trim), NonEmpty, x);
    }
  }

  /**
   * Any lines joined by newlines, blank or untrimmed ones included, parse to
   * the trimmed lines that are not empty, in their order.
   */
  lemma ParseJoinedLines(lines: seq<string>)
    requires forall i :: 0 <= i < |lines| ==> '\n' !in lines[i]
    ensures ParseFacts(Join(lines, '\n')) == Filter(Map(lines, Trim), NonEmpty)
  {
    if |lines| == 0 {
      assert Split([], '\n') == [[]];
      assert Map([[]], Trim) == [[]];
      assert Filter([[]], NonEmpty) == Filter([], NonEmpty);
    } else {
      SplitJoin(lines, '\n');
    }
  }

  /** A fact the facts box gives back unchanged: non-empty, trimmed and on one line. */
  predicate IsPlainFact(fact: string) {
    fact != [] && IsTrimmed(fact) && '\n' !in fact
  }

  /** Trimming leaves trimmed texts as they are. */
  lemma {:induction false} MapTrimOfTrimmed(xs: seq<string>)
    requires forall i :: 0 <= i < |xs| ==> IsTrimmed(xs[i])
    ensures Map(xs, Trim) == xs
  {
    forall i | 0 <= i < |xs| ensures Map(xs, Trim)[i] == xs[i] {
      TrimOfTrimmed(xs[i]);
    }
  }

  /**
   * Opening the form on saved facts and submitting it gives the same facts
   * back, provided each is non-empty, trimmed and on one line.
   */
  lemma ParseJoinedFacts(facts: seq<string>)
    requires forall i :: 0 <= i < |facts| ==> IsPlainFact(facts[i])
    ensures ParseFacts(Join(facts, '\n')) == facts
  {
    if |facts| == 0 {
      assert Split([], '\n') == [[]];
      assert Map([[]], Trim) == [[]];
      assert Filter([[]], NonEmpty) == Filter([], NonEmpty);
    } else {
      SplitJoin(facts, '\n');
      MapTrimOfTrimmed(facts);
      FilterAll(facts, NonEmpty);
    }
  }

  /** `value.trim() || undefined`. */
  function Normalize(value: string): (o: Option<string>)
    ensures o.None? <==> IsBlank(value)
    ensures o.Some? ==> o.value == Trim(value) && o.value != [] && IsTrimmed(o.value)
  {
    var t := Trim(value);
    if t == [] then None else Some(t)
  }

  /** An optional field the form gives back unchanged. */
  predicate IsPlainOptional(o: Option<string>) {
    o.None? || (o.value != [] && IsTrimmed(o.value))
  }

  /** Opening the form on an optional field and submitting it gives the field back. */
  lemma NormalizeTextOf(o: Option<string>)
    requires IsPlainOptional(o)
    ensures Normalize(TextOf(o)) == o
  {
    if o.Some? {
      TrimOfTrimmed(o.value);
    }
  }

  /** What a submission does. */
  datatype Submission = Rejected | Add(added: Relationship) | Update(updated: Relationship)

  /**
   * `handleSubmit`: a blank name or relation is rejected; otherwise the
   * trimmed fields and the parsed facts either update the edited relationship,
   * keeping its id and every field the form does not show, or make a new one.
   */
  function BuildSubmission(f: FormData, editing: Option<Relationship>): (r: Submission)
    ensures r.Rejected? <==> IsBlank(f.name) || IsBlank(f.relation)
    ensures r.Update? <==> editing.Some? && !r.Rejected?
    ensures r.Update? ==> (r.updated.id == editing.value.id && r.updated.keyFacts == editing.value.keyFacts
      && r.updated.relationship == editing.value.relationship)
    ensures r.Add? ==> r.added.keyFacts == [] && r.added.relationship.None?
  {
    var name := Trim(f.name);
    var relation := Trim(f.relation);
    if name == [] || relation == [] then Rejected
    else
      var facts := ParseFacts(f.keyFacts);
      match editing
      case Some(e) =>
        Update(e.(name := name, relation := relation, photo := Normalize(f.photo),
          contactInfo := Normalize(f.contactInfo), birthday := Normalize(f.birthday),
          relationshipType := Some(f.relationship), importance := f.importance, facts := Some(facts),
          lastInteraction := Normalize(f.lastInteraction)))
      case None =>
        Add(Relationship([], name, relation, Normalize(f.photo), [], Some(facts), Normalize(f.lastInteraction),
          f.importance, Normalize(f.contactInfo), Normalize(f.birthday), None, Some(f.relationship)))
  }

  /** The relationship a submission adds or writes back. */
  function Submitted(r: Submission): Relationship
    requires !r.Rejected?
  {
    if r.Add? then r.added else r.updated
  }

  /**
   * An accepted submission carries the trimmed name and relation, the
   * normalised optional fields, the two selects and the parsed facts.
   */
  lemma SubmissionFields(f: FormData, editing: Option<Relationship>)
    requires !IsBlank(f.name) && !IsBlank(f.relation)
    ensures var rel := Submitted(BuildSubmission(f, editing));
      rel.name == Trim(f.name) && rel.relation == Trim(f.relation) && rel.name != [] && rel.relation != []
      && rel.photo == Normalize(f.photo) && rel.contactInfo == Normalize(f.contactInfo)
      && rel.birthday == Normalize(f.birthday) && rel.lastInteraction == Normalize(f.lastInteraction)
      && rel.relationshipType == Some(f.relationship) && rel.importance == f.importance
      && rel.facts == Some(ParseFacts(f.keyFacts))
  {
  }

  /** A relationship the form shows exactly: every field it edits is already in normal form. */
  predicate IsPlainRelationship(r: Relationship) {
    r.name != [] && IsTrimmed(r.name) && r.relation != [] && IsTrimmed(r.relation)
    && IsPlainOptional(r.photo) && IsPlainOptional(r.contactInfo) && IsPlainOptional(r.birthday)
    && IsPlainOptional(r.lastInteraction)
    && r.relationshipType.Some?
    && r.facts.Some? && forall i :: 0 <= i < |r.facts.value| ==> IsPlainFact(r.facts.value[i])
  }

  /** The form data of an edited relationship that has facts and a type. */
  lemma InitialFormDataOf(r: Relationship)
    requires r.facts.Some? && r.relationshipType.Some?
    ensures InitialFormData(Some(r)) == FormData(r.name, r.relation, TextOf(r.photo), TextOf(r.contactInfo),
      TextOf(r.birthday), r.relationshipType.value, r.importance, Join(r.facts.value, '\n'), TextOf(r.lastInteraction))
  {
  }

  /** An accepted edit writes the form's fields over the edited relationship. */
  lemma BuildUpdate(f: FormData, e: Relationship)
    requires Trim(f.name) != [] && Trim(f.relation) != []
    ensures BuildSubmission(f, Some(e)) == Update(e.(name := Trim(f.name), relation := Trim(f.relation),
      photo := Normalize(f.photo), contactInfo := Normalize(f.contactInfo), birthday := Normalize(f.birthday),
      relationshipType := Some(f.relationship), importance := f.importance, facts := Some(ParseFacts(f.keyFacts)),
      lastInteraction := Normalize(f.lastInteraction)))
  {
  }

  /** Opening the form on a relationship and submitting it unchanged writes the same relationship back. */
  lemma UnchangedEditWritesBack(r: Relationship)
    requires IsPlainRelationship(r)
    ensures BuildSubmission(InitialFormData(Some(r)), Some(r)) == Update(r)
  {
    InitialFormDataOf(r);
    TrimOfTrimmed(r.name);
    TrimOfTrimmed(r.relation);
    BuildUpdate(InitialFormData(Some(r)), r);
    NormalizeTextOf(r.photo);
    NormalizeTextOf(r.contactInfo);
    NormalizeTextOf(r.birthday);
    NormalizeTextOf(r.lastInteraction);
    ParseJoinedFacts(r.facts.value);
  }

  /** A field input of the form, with the value it carries. */
  datatype Input =
    | NameInput(value: string)
    | RelationInput(value: string)
    | PhotoInput(value: string)
    | ContactInfoInput(value: string)
    | BirthdayInput(value: string)
    | RelationshipInput(kind: RelationshipType)
    | ImportanceInput(importance: Priority)
    | KeyFactsInput(value: string)
    | LastInteractionInput(value: string)

  /** The form's state. */
  class RelationshipFormView {
    const editing: Option<Relationship>
    var formData: FormData
    /** How many times `onClose` has been called by a submission. */
    var closes: nat

    constructor(editing: Option<Relationship>)
      ensures this.editing == editing && formData == InitialFormData(editing) && closes == 0
    {
      this.editing := editing;
      formData := InitialFormData(editing);
      closes := 0;
    }

    /** `handleInputChange`: the one field the input names takes its value. */
    method HandleInputChange(input: Input)
      modifies this
      ensures closes == old(closes)
      ensures input.NameInput? ==> formData == old(formData).(name := input.value)
      ensures input.RelationInput? ==> formData == old(formData).(relation := input.value)
      ensures input.PhotoInput? ==> formData == old(formData).(photo := input.value)
      ensures input.ContactInfoInput? ==> formData == old(formData).(contactInfo := input.value)
      ensures input.BirthdayInput? ==> formData == old(formData).(birthday := input.value)
      ensures input.RelationshipInput? ==> formData == old(formData).(relationship := input.kind)
      ensures input.ImportanceInput? ==> formData == old(formData).(importance := input.importance)
      ensures input.KeyFactsInput? ==> formData == old(formData).(keyFacts := input.value)
      ensures input.LastInteractionInput? ==> formData == old(formData).(lastInteraction := input.value)
    {
      match input
      case NameInput(v) => formData := formData.(name := v);
      case RelationInput(v) => formData := formData.(relation := v);
      case PhotoInput(v) => formData := formData.(photo := v);
      case ContactInfoInput(v) => formData := formData.(contactInfo := v);
      case BirthdayInput(v) => formData := formData.(birthday := v);
      case RelationshipInput(k) => formData := formData.(relationship := k);
      case ImportanceInput(p) => formData := formData.(importance := p);
      case KeyFactsInput(v) => formData := formData.(keyFacts := v);
      case LastInteractionInput(v) => formData := formData.(lastInteraction := v);
    }

    /**
     * `handleSubmit`: a rejected submission changes nothing; otherwise the
     * relationship is added or updated in the store and the form is closed.
     */
    method Submit(provider: MemoryProvider, now: int, freshId: string) returns (r: Submission)
      modifies this, provider, provider.storage
      ensures r == BuildSubmission(formData, editing) && formData == old(formData)
      ensures r.Rejected? ==> (provider.state == old(provider.state)
        && provider.storage.slot == old(provider.storage.slot) && closes == old(closes))
      ensures r.Add? ==> provider.state == Apply(old(provider.state), AddRelationship(r.added),
        Env(now, freshId, provider.loadedAt, StoredSnapshot(old(provider.storage.slot))))
      ensures r.Update? ==> provider.state == Apply(old(provider.state), UpdateRelationship(r.updated),
        Env(now, freshId, provider.loadedAt, StoredSnapshot(old(provider.storage.slot))))
      ensures !r.Rejected? ==> provider.storage.slot == Some(provider.state) && closes == old(closes) + 1
    {
      r := BuildSubmission(formData, editing);
      if r.Add? {
        provider.Dispatch(AddRelationship(r.added), now, freshId);
      } else if r.Update? {
        provider.Dispatch(UpdateRelationship(r.updated), now, freshId);
      }
      if !r.Rejected? {
        closes := closes + 1;
      }
    }
  }
}
