/**
 * The onboarding screen: fourteen question steps, a cursor moved by Next and
 * Back, the encoding of option choices into answers and back, the rule that
 * disables Next, and the age derived from the chosen birth date.
 */
module OnboardingScreen {
  import opened Wrappers
  import opened OnboardingContext
  import opened DatePicker

  datatype StepKind = Single | Slider | Vision | DatePickerStep

  /** A step's kind, the answer key it fills (if any), and the values of its options. */
  datatype StepConfig = StepConfig(kind: StepKind, dataKey: Option<string>, options: seq<string>)

  const TotalSteps: int := 14

  /** `STEPS`, keeping what the logic reads: kind, answer key and option values. */
  const Steps: seq<StepConfig> := [
    StepConfig(Single, Some("gender"), ["male", "female"]),
    StepConfig(DatePickerStep, Some("birthDate"), []),
    StepConfig(Single, Some("spiritualState"), ["lost", "searching", "returning", "strong"]),
    StepConfig(Single, Some("prayerFrequency"), ["rarely", "sometimes", "often", "daily"]),
    StepConfig(Single, Some("biggestStruggle"), ["temptation", "doubt", "fear", "lust", "anxiety", "loneliness"]),
    StepConfig(Single, Some("currentStruggle"), ["anger", "pride", "laziness", "envy", "greed"]),
    StepConfig(Single, Some("feelsDistant"), ["yes", "no"]),
    StepConfig(Single, Some("seeking"), ["peace", "discipline", "faith", "purpose", "love"]),
    StepConfig(Slider, Some("temptationStrength"), []),
    StepConfig(Single, Some("doubtFrequency"), ["low", "medium", "high"]),
    StepConfig(Single, Some("motivation"), ["god", "destiny", "love", "strength"]),
    StepConfig(Single, Some("wantsDailyGuidance"), ["yes", "no"]),
    StepConfig(Single, Some("guidanceStyle"), ["gentle", "direct"]),
    StepConfig(Vision, None, [])
  ]

  /** There is one step per position of the cursor, and only the last (the vision step) fills no answer. */
  lemma StepsShape()
    ensures |Steps| == TotalSteps
    ensures forall i :: 0 <= i < TotalSteps - 1 ==> Steps[i].dataKey.Some?
    ensures Steps[TotalSteps - 1].dataKey.None? && Steps[TotalSteps - 1].kind == Vision
  {
  }

  /**
   * `calculateAge(birthDate)` on the day `today`: the difference of the years,
   * less one while this year's birthday is still to come. This is the number
   * of whole years lived: the birthday that many years on has been reached,
   * the one after has not.
   */
  function CalculateAge(birth: Date, today: Date): (age: int)
    ensures OnOrBefore(Date(birth.year + age, birth.month, birth.day), today)
    ensures !OnOrBefore(Date(birth.year + age + 1, birth.month, birth.day), today)
  {
    var age := today.year - birth.year;
    var monthDiff := today.month - birth.month;
    if monthDiff < 0 || (monthDiff == 0 && today.day < birth.day) then age - 1 else age
  }

  /** Calendar order on (year, month, day). */
  predicate OnOrBefore(a: Date, b: Date) {
    a.year < b.year || (a.year == b.year && (a.month < b.month || (a.month == b.month && a.day <= b.day)))
  }

  /** The whole number of years lived is unique, so `CalculateAge` is the only age with that property. */
  lemma AgeIsUnique(birth: Date, today: Date, n: int)
    requires OnOrBefore(Date(birth.year + n, birth.month, birth.day), today)
    requires !OnOrBefore(Date(birth.year + n + 1, birth.month, birth.day), today)
    ensures n == CalculateAge(birth, today)
  {
  }

  /** The two questions whose answer is stored as a boolean. */
  predicate IsYesNoKey(key: string) {
    key == "feelsDistant" || key == "wantsDailyGuidance"
  }

  /** What `getCurrentValue` returns: `undefined`, or a value. */
  datatype Value = Undefined | Defined(answer: Answer)

  /**
   * `getCurrentValue` for `step`: the slider position, `'selected'` once a
   * birth date is chosen, `'yes'`/`'no'` for a stored boolean, and the stored
   * answer otherwise.
   */
  function CurrentValue(step: StepConfig, answers: Answers, sliderValue: real, birthDate: Option<Date>): (v: Value)
    ensures step.dataKey.None? ==> v.Undefined?
    ensures step.dataKey == Some("temptationStrength") ==> v == Defined(Number(sliderValue))
    ensures step.dataKey == Some("birthDate") ==>
              v == if birthDate.Some? then Defined(Answer.Text("selected")) else Undefined
    ensures step.dataKey.Some? && IsYesNoKey(step.dataKey.value) ==>
              (v.Defined? <==> step.dataKey.value in answers && answers[step.dataKey.value].Flag?)
    ensures step.dataKey.Some? && IsYesNoKey(step.dataKey.value) && step.dataKey.value in answers ==>
              && (answers[step.dataKey.value] == Flag(true) ==> v == Defined(Answer.Text("yes")))
              && (answers[step.dataKey.value] == Flag(false) ==> v == Defined(Answer.Text("no")))
    ensures step.dataKey.Some? && step.dataKey.value !in {"temptationStrength", "birthDate"} && !IsYesNoKey(step.dataKey.value) ==>
              v == if step.dataKey.value in answers then Defined(answers[step.dataKey.value]) else Undefined
  {
    match step.dataKey
    case None => Undefined
    case Some(key) =>
      if key == "temptationStrength" then Defined(Number(sliderValue))
      else if key == "birthDate" then (if birthDate.Some? then Defined(Answer.Text("selected")) else Undefined)
      else if key !in answers then Undefined
      else if IsYesNoKey(key) then
        match answers[key]
        case Flag(true) => Defined(Answer.Text("yes"))
        case Flag(false) => Defined(Answer.Text("no"))
        case _ => Undefined
      else Defined(answers[key])
  }

  /** JavaScript truthiness of the current value. */
  predicate Truthy(v: Value) {
    match v
    case Undefined => false
    case Defined(Text(text)) => text != ""
    case Defined(Flag(flag)) => flag
    case Defined(Number(number)) => number != 0.0
  }

  /** `isNextDisabled`: an unanswered single-choice step, or a date step with no date chosen. */
  function IsNextDisabled(step: StepConfig, current: Value, birthDate: Option<Date>): (disabled: bool)
    ensures step.kind == Slider || step.kind == Vision ==> !disabled
    ensures step.kind == DatePickerStep ==> (disabled <==> birthDate.None?)
    ensures step.kind == Single ==> (disabled <==> !Truthy(current))
  {
    (step.kind == Single && !Truthy(current)) || (step.kind == DatePickerStep && birthDate.None?)
  }

  /** The answer `handleOptionSelect(value)` stores under `key`: a boolean for the yes/no questions, the string otherwise. */
  function OptionAnswer(key: string, value: string): (a: Answer)
    ensures IsYesNoKey(key) ==> a == Flag(value == "yes")
    ensures !IsYesNoKey(key) ==> a == Answer.Text(value)
  {
    if IsYesNoKey(key) then Flag(value == "yes") else Answer.Text(value)
  }

  /** The answers after `handleOptionSelect(value)` on `step`; a step without a key changes nothing. */
  function SelectOption(step: StepConfig, answers: Answers, value: string): (r: Answers)
    ensures step.dataKey.None? ==> r == answers
    ensures step.dataKey.Some? ==> r == answers[step.dataKey.value := OptionAnswer(step.dataKey.value, value)]
  {
    match step.dataKey
    case None => answers
    case Some(key) => answers[key := OptionAnswer(key, value)]
  }

  /**
   * Selecting an option and reading the step back: a yes/no step reads `'yes'`
   * exactly after `'yes'` and `'no'` after anything else; any other answer
   * step reads back the option chosen.
   */
  lemma SelectThenRead(step: StepConfig, answers: Answers, value: string, sliderValue: real, birthDate: Option<Date>)
    requires step.dataKey.Some? && step.dataKey.value != "temptationStrength" && step.dataKey.value != "birthDate"
    ensures var read := CurrentValue(step, SelectOption(step, answers, value), sliderValue, birthDate);
            && (IsYesNoKey(step.dataKey.value) ==> read == Defined(Answer.Text(if value == "yes" then "yes" else "no")))
            && (!IsYesNoKey(step.dataKey.value) ==> read == Defined(Answer.Text(value)))
  {
  }

  /** On every single-choice step, choosing any of its options reads back that option and enables Next. */
  lemma ChoosingAnOptionEnablesNext(i: int, o: int, answers: Answers, sliderValue: real, birthDate: Option<Date>)
    requires 0 <= i < |Steps| && Steps[i].kind == Single
    requires 0 <= o < |Steps[i].options|
    ensures var step := Steps[i];
            var read := CurrentValue(step, SelectOption(step, answers, step.options[o]), sliderValue, birthDate);
            read == Defined(Answer.Text(step.options[o])) && !IsNextDisabled(step, read, birthDate)
  {
    var step := Steps[i];
    var value := step.options[o];
    SelectThenRead(step, answers, value, sliderValue, birthDate);
    assert IsYesNoKey(step.dataKey.value) ==> value == "yes" || value == "no" by {
      if IsYesNoKey(step.dataKey.value) {
        assert i == 6 || i == 11;
      }
    }
    assert value != "";
  }

  /** The step cursor and whether the closing loading screen is shown. */
  datatype Cursor = Cursor(step: int, showLoading: bool)

  predicate ValidCursor(c: Cursor) {
    0 <= c.step < TotalSteps
  }

  /** `handleNext`: forward one step, or on the last step show the loading screen. */
  function AfterNext(c: Cursor): (r: Cursor)
    requires ValidCursor(c)
    ensures ValidCursor(r)
    ensures c.step < TotalSteps - 1 ==> r.step == c.step + 1 && r.showLoading == c.showLoading
    ensures c.step == TotalSteps - 1 ==> r.step == c.step && r.showLoading
  {
    if c.step < TotalSteps - 1 then c.(step := c.step + 1) else c.(showLoading := true)
  }

  /** `handleBack`: back one step, never before the first. */
  function AfterBack(c: Cursor): (r: Cursor)
    requires ValidCursor(c)
    ensures ValidCursor(r) && r.showLoading == c.showLoading
    ensures c.step > 0 ==> r.step == c.step - 1
    ensures c.step == 0 ==> r == c
  {
    if c.step > 0 then c.(step := c.step - 1) else c
  }

  /** Back undoes Next before the last step, and Next undoes Back after the first. */
  lemma NextAndBackAreInverse(c: Cursor)
    requires ValidCursor(c)
    ensures c.step < TotalSteps - 1 ==> AfterBack(AfterNext(c)) == c
    ensures c.step > 0 ==> AfterNext(AfterBack(c)) == c
  {
  }

  /** The screen's own state; the answers live in the onboarding store it is given. */
  class OnboardingFlow {
    var currentStep: int
    var showLoading: bool
    var sliderValue: real
    var selectedBirthDate: Option<Date>
    const store: OnboardingStore

    function CursorState(): Cursor
      reads this
    {
      Cursor(currentStep, showLoading)
    }

    constructor(store: OnboardingStore)
      ensures this.store == store
      ensures currentStep == 0 && !showLoading && sliderValue == 0.5 && selectedBirthDate.None?
    {
      this.store := store;
      currentStep := 0;
      showLoading := false;
      sliderValue := 0.5;
      selectedBirthDate := None;
    }

    method HandleNext()
      requires ValidCursor(CursorState())
      modifies this
      ensures CursorState() == AfterNext(old(CursorState()))
      ensures sliderValue == old(sliderValue) && selectedBirthDate == old(selectedBirthDate)
    {
      if currentStep < TotalSteps - 1 {
        currentStep := currentStep + 1;
      } else {
        showLoading := true;
      }
    }

    method HandleBack()
      requires ValidCursor(CursorState())
      modifies this
      ensures CursorState() == AfterBack(old(CursorState()))
      ensures sliderValue == old(sliderValue) && selectedBirthDate == old(selectedBirthDate)
    {
      if currentStep > 0 {
        currentStep := currentStep - 1;
      }
    }

    /** The step's current value and whether Next is disabled, as the screen renders them. */
    function NextDisabled(): (disabled: bool)
      reads this, store
      requires ValidCursor(CursorState())
      ensures Steps[currentStep].kind == Slider || Steps[currentStep].kind == Vision ==> !disabled
      ensures Steps[currentStep].kind == DatePickerStep ==> (disabled <==> selectedBirthDate.None?)
      ensures Steps[currentStep].kind == Single ==>
                (disabled <==> !Truthy(CurrentValue(Steps[currentStep], store.answers, sliderValue, selectedBirthDate)))
    {
      var step := Steps[currentStep];
      IsNextDisabled(step, CurrentValue(step, store.answers, sliderValue, selectedBirthDate), selectedBirthDate)
    }

    method HandleOptionSelect(value: string)
      requires ValidCursor(CursorState())
      modifies store
      ensures store.answers == SelectOption(Steps[currentStep], old(store.answers), value)
      ensures store.hasCompleted == old(store.hasCompleted) && store.isLoading == old(store.isLoading)
      ensures store.storage == old(store.storage)
    {
      var step := Steps[currentStep];
      match step.dataKey
      case None =>
      case Some(key) =>
        store.UpdateOnboardingData(key, OptionAnswer(key, value));
    }

    method HandleSliderChange(value: real)
      requires ValidCursor(CursorState())
      modifies this, store
      ensures sliderValue == value && currentStep == old(currentStep) && selectedBirthDate == old(selectedBirthDate)
      ensures showLoading == old(showLoading)
      ensures Steps[currentStep].dataKey == Some("temptationStrength") ==>
                store.answers == old(store.answers)["temptationStrength" := Number(value)]
      ensures Steps[currentStep].dataKey != Some("temptationStrength") ==> store.answers == old(store.answers)
      ensures store.hasCompleted == old(store.hasCompleted) && store.storage == old(store.storage)
      ensures store.isLoading == old(store.isLoading)
    {
      sliderValue := value;
      if Steps[currentStep].dataKey == Some("temptationStrength") {
        store.UpdateOnboardingData("temptationStrength", Number(value));
      }
    }

    /**
     * `handleDateChange(date)` on the day `today`: the date is selected, and
     * its ISO form `iso` and the age are recorded together.
     */
    method HandleDateChange(date: Date, today: Date, iso: string)
      modifies this, store
      ensures selectedBirthDate == Some(date)
      ensures currentStep == old(currentStep) && showLoading == old(showLoading) && sliderValue == old(sliderValue)
      ensures store.answers == old(store.answers)["birthDate" := Answer.Text(iso)]["age" := Number(CalculateAge(date, today) as real)]
      ensures store.hasCompleted == old(store.hasCompleted) && store.storage == old(store.storage)
      ensures store.isLoading == old(store.isLoading)
    {
      selectedBirthDate := Some(date);
      var age := CalculateAge(date, today);
      store.UpdateOnboardingData("birthDate", Answer.Text(iso));
      store.UpdateOnboardingData("age", Number(age as real));
    }
  }
}
