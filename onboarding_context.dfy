/**
 * The onboarding provider: whether onboarding was completed (unknown until
 * loaded), the answers collected so far, and a loading flag. Storage is an
 * abstract key-value map; whether each storage call succeeds is a parameter.
 */
module OnboardingContext {
  import opened Wrappers

  /** One answer value: a string choice, a yes/no flag, or a number (age, slider position). */
  datatype Answer = Text(text: string) | Flag(flag: bool) | Number(number: real)

  /** The `OnboardingData` record: answer key to answer. A missing key is an unanswered question. */
  type Answers = map<string, Answer>

  /**
   * What storage holds under a key: a raw string, or the JSON encoding of a
   * set of answers. A raw string under the answers key stands for text that
   * is not such an encoding, so parsing it fails.
   */
  datatype Stored = Raw(text: string) | Json(answers: Answers)

  type Storage = map<string, Stored>

  const CompletedKey: string := "@bible_ai_onboarding_completed"
  const DataKey: string := "@bible_ai_onboarding_data"

  /** The provider's state together with what storage holds. */
  datatype OnboardingState = OnboardingState(
    hasCompleted: Option<bool>,
    answers: Answers,
    isLoading: bool,
    storage: Storage)

  /** The state the provider starts in: unknown, no answers, loading. */
  function Initial(storage: Storage): (st: OnboardingState)
    ensures st.hasCompleted.None? && st.answers == map[] && st.isLoading && st.storage == storage
  {
    OnboardingState(None, map[], true, storage)
  }

  /** `completed === 'true'` for what a read of `key` returns. */
  predicate StoredTrue(storage: Storage, key: string) {
    key in storage && storage[key] == Raw("true")
  }

  /**
   * `loadOnboardingState`: both keys are read; the flag is whether the
   * completed key holds `'true'`; stored answers replace the current ones. A
   * failed read, or stored answers that do not parse, leave the flag false.
   * Loading ends on every path.
   */
  function AfterLoad(st: OnboardingState, readOk: bool): (r: OnboardingState)
    ensures !r.isLoading && r.hasCompleted.Some? && r.storage == st.storage
    ensures !readOk ==> r.hasCompleted == Some(false) && r.answers == st.answers
    ensures readOk && DataKey in st.storage && st.storage[DataKey].Json? ==>
              r.hasCompleted == Some(StoredTrue(st.storage, CompletedKey)) && r.answers == st.storage[DataKey].answers
    ensures readOk && (DataKey !in st.storage || st.storage[DataKey] == Raw("")) ==>
              r.hasCompleted == Some(StoredTrue(st.storage, CompletedKey)) && r.answers == st.answers
    ensures readOk && DataKey in st.storage && st.storage[DataKey].Raw? && st.storage[DataKey].text != "" ==>
              r.hasCompleted == Some(false) && r.answers == st.answers
  {
    var done := st.(isLoading := false);
    if !readOk then done.(hasCompleted := Some(false))
    else
      var flag := StoredTrue(st.storage, CompletedKey);
      if DataKey !in st.storage then done.(hasCompleted := Some(flag))
      else match st.storage[DataKey]
        case Json(answers) => done.(hasCompleted := Some(flag), answers := answers)
        case Raw(text) => if text == "" then done.(hasCompleted := Some(flag)) else done.(hasCompleted := Some(false))
  }

  /** `updateOnboardingData(key, value)`: one answer is set; nothing else changes. */
  function AfterUpdate(st: OnboardingState, key: string, value: Answer): (r: OnboardingState)
    ensures key in r.answers && r.answers[key] == value
    ensures forall k :: k != key ==> (k in r.answers <==> k in st.answers)
    ensures forall k :: k != key && k in st.answers ==> r.answers[k] == st.answers[k]
    ensures r.hasCompleted == st.hasCompleted && r.isLoading == st.isLoading && r.storage == st.storage
  {
    st.(answers := st.answers[key := value])
  }

  /**
   * `completeOnboarding`: the two writes are issued together; each one that
   * succeeds reaches storage, and only when both succeed does the flag become
   * true. The answers never change.
   */
  function AfterComplete(st: OnboardingState, flagWriteOk: bool, dataWriteOk: bool): (r: OnboardingState)
    ensures r.answers == st.answers && r.isLoading == st.isLoading
    ensures flagWriteOk && dataWriteOk ==> r.hasCompleted == Some(true)
    ensures !(flagWriteOk && dataWriteOk) ==> r.hasCompleted == st.hasCompleted
    ensures flagWriteOk ==> StoredTrue(r.storage, CompletedKey)
    ensures dataWriteOk ==> DataKey in r.storage && r.storage[DataKey] == Json(st.answers)
    ensures !flagWriteOk ==> (CompletedKey in r.storage <==> CompletedKey in st.storage)
    ensures !flagWriteOk && CompletedKey in st.storage ==> r.storage[CompletedKey] == st.storage[CompletedKey]
    ensures !dataWriteOk ==> (DataKey in r.storage <==> DataKey in st.storage)
    ensures !dataWriteOk && DataKey in st.storage ==> r.storage[DataKey] == st.storage[DataKey]
    ensures forall k :: k != CompletedKey && k != DataKey ==> (k in r.storage <==> k in st.storage)
    ensures forall k :: k != CompletedKey && k != DataKey && k in st.storage ==> r.storage[k] == st.storage[k]
  {
    var s1 := if flagWriteOk then st.storage[CompletedKey := Raw("true")] else st.storage;
    var s2 := if dataWriteOk then s1[DataKey := Json(st.answers)] else s1;
    st.(storage := s2, hasCompleted := if flagWriteOk && dataWriteOk then Some(true) else st.hasCompleted)
  }

  /**
   * `resetOnboarding`: both keys are removed (each one whose removal
   * succeeds); only when both succeed is the flag set to false and the
   * answers cleared.
   */
  function AfterReset(st: OnboardingState, flagRemoveOk: bool, dataRemoveOk: bool): (r: OnboardingState)
    ensures r.isLoading == st.isLoading
    ensures flagRemoveOk && dataRemoveOk ==> r.hasCompleted == Some(false) && r.answers == map[]
    ensures !(flagRemoveOk && dataRemoveOk) ==> r.hasCompleted == st.hasCompleted && r.answers == st.answers
    ensures flagRemoveOk ==> CompletedKey !in r.storage
    ensures dataRemoveOk ==> DataKey !in r.storage
    ensures !flagRemoveOk ==> (CompletedKey in r.storage <==> CompletedKey in st.storage)
    ensures !dataRemoveOk ==> (DataKey in r.storage <==> DataKey in st.storage)
    ensures forall k :: k in r.storage ==> k in st.storage && r.storage[k] == st.storage[k]
    ensures forall k :: k != CompletedKey && k != DataKey ==> (k in r.storage <==> k in st.storage)
  {
    var s1 := if flagRemoveOk then st.storage - {CompletedKey} else st.storage;
    var s2 := if dataRemoveOk then s1 - {DataKey} else s1;
    if flagRemoveOk && dataRemoveOk then st.(storage := s2, hasCompleted := Some(false), answers := map[])
    else st.(storage := s2)
  }

  /** After a successful `completeOnboarding`, the next load finds the flag set and the same answers. */
  lemma CompleteThenLoad(st: OnboardingState)
    ensures AfterLoad(AfterComplete(st, true, true), true).hasCompleted == Some(true)
    ensures AfterLoad(AfterComplete(st, true, true), true).answers == st.answers
  {
    var done := AfterComplete(st, true, true);
    assert CompletedKey != DataKey;
    assert StoredTrue(done.storage, CompletedKey);
  }

  /** After a successful `resetOnboarding`, nothing is stored, and a load yields flag false and no answers. */
  lemma ResetThenLoad(st: OnboardingState)
    ensures AfterLoad(AfterReset(st, true, true), true).hasCompleted == Some(false)
    ensures AfterLoad(AfterReset(st, true, true), true).answers == map[]
  {
  }

  /** Complete, then reset, both successful: the flag is false, the answers are gone, and neither key is stored. */
  lemma CompleteThenReset(st: OnboardingState)
    ensures var r := AfterReset(AfterComplete(st, true, true), true, true);
            r.hasCompleted == Some(false) && r.answers == map[] && CompletedKey !in r.storage && DataKey !in r.storage
  {
  }

  /** The provider. */
  class OnboardingStore {
    var hasCompleted: Option<bool>
    var answers: Answers
    var isLoading: bool
    var storage: Storage

    function State(): OnboardingState
      reads this
    {
      OnboardingState(hasCompleted, answers, isLoading, storage)
    }

    constructor(stored: Storage)
      ensures State() == Initial(stored)
    {
      hasCompleted := None;
      answers := map[];
      isLoading := true;
      storage := stored;
    }

    method LoadOnboardingState(readOk: bool)
      modifies this
      ensures State() == AfterLoad(old(State()), readOk)
    {
      if readOk {
        var completed := StoredTrue(storage, CompletedKey);
        hasCompleted := Some(completed);
        if DataKey in storage {
          match storage[DataKey]
          case Json(stored) =>
            answers := stored;
          case Raw(text) =>
            if text != "" {
              hasCompleted := Some(false);
            }
        }
      } else {
        hasCompleted := Some(false);
      }
      isLoading := false;
    }

    method UpdateOnboardingData(key: string, value: Answer)
      modifies this
      ensures State() == AfterUpdate(old(State()), key, value)
    {
      answers := answers[key := value];
    }

    method CompleteOnboarding(flagWriteOk: bool, dataWriteOk: bool)
      modifies this
      ensures State() == AfterComplete(old(State()), flagWriteOk, dataWriteOk)
    {
      if flagWriteOk {
        storage := storage[CompletedKey := Raw("true")];
      }
      if dataWriteOk {
        storage := storage[DataKey := Json(answers)];
      }
      if flagWriteOk && dataWriteOk {
        hasCompleted := Some(true);
      }
    }

    method ResetOnboarding(flagRemoveOk: bool, dataRemoveOk: bool)
      modifies this
      ensures State() == AfterReset(old(State()), flagRemoveOk, dataRemoveOk)
    {
      if flagRemoveOk {
        storage := storage - {CompletedKey};
      }
      if dataRemoveOk {
        storage := storage - {DataKey};
      }
      if flagRemoveOk && dataRemoveOk {
        hasCompleted := Some(false);
        answers := map[];
      }
    }
  }
}
