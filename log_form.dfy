/**
 * The memory form (src/components/LogForm.tsx): the text, priority, category
 * and persistence the user is editing, and the log a submission adds.
 */
module LogForm {
  import opened Types
  import opened Text
  import opened MemoryContext

  /**
   * The `addLog` payload of `handleSubmit`: nothing for blank text, otherwise
   * the trimmed text, with a CRITICAL log always persistent.
   */
  function SubmitPayload(content: string, priority: Priority, category: Category, isEmergency: bool,
                         isPersistent: bool): (r: Option<LogInput>)
    ensures r.None? <==> IsBlank(content)
    ensures r.Some? ==> r.value.content == Trim(content) && r.value.content != [] && IsTrimmed(r.value.content)
    ensures r.Some? ==> (r.value.isPersistent <==> isPersistent || priority == CRITICAL)
    ensures r.Some? ==> r.value.priority == priority && r.value.category == category && r.value.isEmergency == isEmergency
  {
    var text := Trim(content);
    if text == [] then None
    else Some(LogInput(text, priority, category, isEmergency, isPersistent || priority == CRITICAL))
  }

  /**
   * A CRITICAL memory submitted through the form is queued as a reminder and
   * survives the next cycle reset, whatever the persistence box says.
   */
  lemma CriticalSubmissionSurvivesReset(s: MemoryState, content: string, category: Category, isEmergency: bool,
                                        isPersistent: bool, env1: Env, env2: Env)
    requires !IsBlank(content)
    ensures var input := SubmitPayload(content, CRITICAL, category, isEmergency, isPersistent).value;
            var s1 := Apply(s, AddLog(input), env1);
            s1.logs[|s.logs|] in s1.reminderQueue && s1.logs[|s.logs|] in Apply(s1, ResetCycle, env2).logs
  {
    var input := SubmitPayload(content, CRITICAL, category, isEmergency, isPersistent).value;
    assert input.priority == CRITICAL;
    PinnedLogSurvivesReset(s, input, env1, env2);
  }

  /** The form's state. */
  class LogFormView {
    const isEmergency: bool
    /** Whether the parent passed `onClose`. */
    const hasOnClose: bool
    var content: string
    var priority: Priority
    var category: Category
    var isPersistent: bool
    /** How many times `onClose` has been called. */
    var closes: nat

    /** The initial form: an emergency form starts CRITICAL and persistent, any other MEDIUM and not. */
    constructor(isEmergency: bool, hasOnClose: bool)
      ensures this.isEmergency == isEmergency && this.hasOnClose == hasOnClose
      ensures content == [] && category == Personal && closes == 0
      ensures priority == (if isEmergency then CRITICAL else MEDIUM)
      ensures isPersistent == isEmergency
    {
      this.isEmergency := isEmergency;
      this.hasOnClose := hasOnClose;
      content := [];
      priority := if isEmergency then CRITICAL else MEDIUM;
      category := Personal;
      isPersistent := isEmergency;
      closes := 0;
    }

    /** The text area's `onChange`. */
    method SetContent(text: string)
      modifies this
      ensures content == text
      ensures priority == old(priority) && category == old(category) && isPersistent == old(isPersistent)
      ensures closes == old(closes)
    {
      content := text;
    }

    /** A priority button. */
    method SetPriority(p: Priority)
      modifies this
      ensures priority == p
      ensures content == old(content) && category == old(category) && isPersistent == old(isPersistent)
      ensures closes == old(closes)
    {
      priority := p;
    }

    /** A category button. */
    method SetCategory(c: Category)
      modifies this
      ensures category == c
      ensures content == old(content) && priority == old(priority) && isPersistent == old(isPersistent)
      ensures closes == old(closes)
    {
      category := c;
    }

    /** The persistence check box. */
    method SetPersistent(checked: bool)
      modifies this
      ensures isPersistent == checked
      ensures content == old(content) && priority == old(priority) && category == old(category)
      ensures closes == old(closes)
    {
      isPersistent := checked;
    }

    /**
     * `handleSubmit`: blank text does nothing; otherwise the payload is added
     * to the store, the text is cleared and `onClose` is called when present.
     */
    method Submit(provider: MemoryProvider, now: int, freshId: string) returns (submitted: bool)
      modifies this, provider, provider.storage
      ensures submitted <==> !IsBlank(old(content))
      ensures !submitted ==> provider.state == old(provider.state) && provider.storage.slot == old(provider.storage.slot)
      ensures !submitted ==> content == old(content) && closes == old(closes)
      ensures submitted ==>
        provider.state == Apply(old(provider.state),
          AddLog(SubmitPayload(old(content), priority, category, isEmergency, isPersistent).value),
          Env(now, freshId, provider.loadedAt, StoredSnapshot(old(provider.storage.slot))))
        && provider.storage.slot == Some(provider.state)
      ensures submitted ==> content == [] && closes == old(closes) + (if hasOnClose then 1 else 0)
      ensures priority == old(priority) && category == old(category) && isPersistent == old(isPersistent)
    {
      var payload := SubmitPayload(content, priority, category, isEmergency, isPersistent);
      if payload.None? {
        return false;
      }
      Record(provider, payload.value, now, freshId);
      return true;
    }

    /** The rest of `handleSubmit` once the text is known not to be blank. */
    method Record(provider: MemoryProvider, input: LogInput, now: int, freshId: string)
      modifies this, provider, provider.storage
      ensures provider.state
        == Apply(old(provider.state), AddLog(input),
                 Env(now, freshId, provider.loadedAt, StoredSnapshot(old(provider.storage.slot))))
      ensures provider.storage.slot == Some(provider.state)
      ensures content == [] && closes == old(closes) + (if hasOnClose then 1 else 0)
      ensures priority == old(priority) && category == old(category) && isPersistent == old(isPersistent)
    {
      provider.Dispatch(AddLog(input), now, freshId);
      content := [];
      if hasOnClose {
        closes := closes + 1;
      }
    }
  }
}
