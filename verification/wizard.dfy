/** The three-step community wizard (`src/components/CommunityWizard.tsx`):
    its answer record, the handlers it wires to its controls, and the
    conditions under which each control is on screen. The component's local
    state is a `WizardState`; leaving the wizard is reported to the caller as
    an `Outcome`. */
module Wizard {
  import opened Seqs

  /** The answers collected across the three steps. `channelBudget` is the
      slider's value array, whose single element is the budget. */
  datatype WizardData = WizardData(
    communitySize: string,
    coreActivities: seq<string>,
    moderationCapacity: string,
    channelBudget: seq<int>,
    importWorkspace: bool,
    importProvider: string)

  /** The activity checkboxes, in display order. */
  const Activities: seq<string> := ["Projects", "Events", "Recruiting", "Support", "Research"]

  /** `a` is one of the activity checkboxes. */
  predicate IsActivity(a: string) {
    a in Activities
  }

  /** The provider badges shown when importing. */
  const Providers: seq<string> := ["Slack", "Discord"]

  /** The items of the community-size select. */
  const SizeOptions: seq<string> := ["<25", "25-100", "100-300", "300+"]

  /** The items of the moderation-capacity select. */
  const ModerationOptions: seq<string> := ["low", "medium", "high"]

  /** The slider's bounds. */
  const MinBudget := 4
  const MaxBudget := 20

  const TotalSteps := 3

  /** The answers a freshly mounted wizard starts from. */
  const DefaultData := WizardData("", [], "", [10], false, "")

  /** The component's local state: the answers and the step on screen. */
  datatype WizardState = WizardState(data: WizardData, step: int)

  /** A freshly mounted wizard. */
  const Fresh := WizardState(DefaultData, 1)

  /** How handling one control leaves the wizard: still open, completed
      (the caller's `onComplete` receives the answers), or cancelled (the
      caller's `onCancel`). */
  datatype Outcome = Continuing(state: WizardState) | Completed(answers: WizardData) | Cancelled

  /** `handleActivityChange`: a check appends the activity at the end, an
      uncheck removes every occurrence of it and keeps every copy of the
      others. Nothing but the activity list
      changes. */
  function HandleActivityChange(d: WizardData, activity: string, checked: bool): (r: WizardData)
    ensures r.(coreActivities := d.coreActivities) == d
    ensures checked ==> |r.coreActivities| == |d.coreActivities| + 1
    ensures checked ==> r.coreActivities[..|d.coreActivities|] == d.coreActivities
    ensures checked ==> r.coreActivities[|d.coreActivities|] == activity
    ensures !checked ==> activity !in r.coreActivities
    ensures !checked ==> forall a :: a in r.coreActivities <==> a in d.coreActivities && a != activity
    ensures !checked ==> forall a :: multiset(r.coreActivities)[a] == if a == activity then 0 else multiset(d.coreActivities)[a]
    ensures !checked ==> IsSubsequence(r.coreActivities, d.coreActivities)
  {
    if checked then d.(coreActivities := d.coreActivities + [activity])
    else d.(coreActivities := RemoveAll(d.coreActivities, activity))
  }

  /** `canContinue`: the three step-1 answers are given (JavaScript
      truthiness of a string is non-emptiness). */
  predicate CanContinue(d: WizardData) {
    d.communitySize != "" && |d.coreActivities| > 0 && d.moderationCapacity != ""
  }

  /** The Continue button's `disabled` condition. */
  predicate ContinueDisabled(st: WizardState) {
    st.step == 1 && !CanContinue(st.data)
  }

  /** `handleContinue`: the next step, or completion with the current answers
      on the last step. No answer is validated here; the button's `disabled`
      condition is the only gate. */
  function HandleContinue(st: WizardState): (r: Outcome)
    ensures r.Completed? <==> st.step >= TotalSteps
    ensures r.Completed? ==> r.answers == st.data
    ensures r.Continuing? ==> r.state.step == st.step + 1 && r.state.data == st.data
    ensures st.step < TotalSteps ==> r == Continuing(st.(step := st.step + 1))
  {
    if st.step < TotalSteps then Continuing(st.(step := st.step + 1)) else Completed(st.data)
  }

  /** The user's gestures inside the dialog. A checkbox event carries the
      `checked` value the checkbox reports. */
  datatype Event =
    | SelectSize(size: string)
    | CheckActivity(activity: string, checked: bool)
    | SelectModeration(capacity: string)
    | SlideBudget(value: seq<int>)
    | CheckImport(checked: bool)
    | ChooseProvider(provider: string)
    | Continue
    | Back
    | Cancel

  /** The handler each control is wired to, applied as written. */
  function Handle(st: WizardState, e: Event): Outcome {
    match e
    case SelectSize(v) => Continuing(st.(data := st.data.(communitySize := v)))
    case CheckActivity(a, c) => Continuing(st.(data := HandleActivityChange(st.data, a, c)))
    case SelectModeration(v) => Continuing(st.(data := st.data.(moderationCapacity := v)))
    case SlideBudget(v) => Continuing(st.(data := st.data.(channelBudget := v)))
    case CheckImport(c) => Continuing(st.(data := st.data.(importWorkspace := c)))
    case ChooseProvider(p) => Continuing(st.(data := st.data.(importProvider := p)))
    case Continue => HandleContinue(st)
    case Back => Continuing(st.(step := st.step - 1))
    case Cancel => Cancelled
  }

  /** Whether the control an event comes from is on screen and enabled, and
      the event is one that control can emit: selects emit one of their
      items, the slider one value within its bounds, a checkbox the negation
      of what it shows, and the provider badges appear only while importing.
      Cancel (the button, or closing the dialog) is always available. */
  predicate Offered(st: WizardState, e: Event) {
    match e
    case SelectSize(v) => st.step == 1 && v in SizeOptions
    case CheckActivity(a, c) => st.step == 1 && a in Activities && c == (a !in st.data.coreActivities)
    case SelectModeration(v) => st.step == 1 && v in ModerationOptions
    case SlideBudget(v) => st.step == 1 && |v| == 1 && MinBudget <= v[0] <= MaxBudget
    case CheckImport(c) => st.step == 2 && c == !st.data.importWorkspace
    case ChooseProvider(p) => st.step == 2 && st.data.importWorkspace && p in Providers
    case Continue => !ContinueDisabled(st)
    case Back => st.step > 1
    case Cancel => true
  }

  /** Every answer holds a value its control can produce. */
  predicate AnswersWellFormed(d: WizardData) {
    && (d.communitySize == "" || d.communitySize in SizeOptions)
    && (forall a :: a in d.coreActivities ==> IsActivity(a))
    && NoDuplicates(d.coreActivities)
    && (d.moderationCapacity == "" || d.moderationCapacity in ModerationOptions)
    && |d.channelBudget| == 1 && MinBudget <= d.channelBudget[0] <= MaxBudget
    && (d.importProvider == "" || d.importProvider in Providers)
  }

  /** What holds of every wizard state reachable through offered events:
      the step stays within 1..3, and past step 1 the step-1 answers are
      given. */
  predicate Inv(st: WizardState) {
    && 1 <= st.step <= TotalSteps
    && AnswersWellFormed(st.data)
    && (st.step > 1 ==> CanContinue(st.data))
  }

  /** The defaults satisfy the invariant. */
  lemma FreshInv()
    ensures Inv(Fresh)
    ensures Fresh.step == 1 && Fresh.data.channelBudget == [10]
    ensures Fresh.data.coreActivities == [] && !Fresh.data.importWorkspace
    ensures Fresh.data.communitySize == "" && Fresh.data.moderationCapacity == ""
    ensures Fresh.data.importProvider == ""
  {
  }

  /** Driven by its checkbox, the activity toggle never duplicates an
      activity: a check happens only for an activity not yet listed. */
  lemma ToggleKeepsNoDuplicates(d: WizardData, activity: string, checked: bool)
    requires NoDuplicates(d.coreActivities)
    requires checked == (activity !in d.coreActivities)
    ensures NoDuplicates(HandleActivityChange(d, activity, checked).coreActivities)
  {
    if activity !in d.coreActivities {
      AppendFreshKeepsNoDuplicates(d.coreActivities, activity);
    }
  }

  /** An offered event keeps the invariant; completion hands over answers
      that pass the step-1 gate. */
  lemma HandlePreservesInv(st: WizardState, e: Event)
    requires Inv(st) && Offered(st, e)
    ensures Handle(st, e).Continuing? ==> Inv(Handle(st, e).state)
    ensures Handle(st, e).Completed? ==> CanContinue(Handle(st, e).answers)
    ensures Handle(st, e).Completed? ==> AnswersWellFormed(Handle(st, e).answers)
  {
    match e
    case CheckActivity(a, c) =>
      ToggleKeepsNoDuplicates(st.data, a, c);
      var r := HandleActivityChange(st.data, a, c);
      if c {
        assert r.coreActivities == st.data.coreActivities + [a];
        forall x | x in r.coreActivities
          ensures IsActivity(x)
        {
          if x != a {
            assert x in st.data.coreActivities;
          }
        }
      }
    case _ =>
  }

  /** Leaving step 1 forward needs all three step-1 answers. */
  lemma ForwardFromStepOneNeedsAnswers(st: WizardState)
    requires st.step == 1 && Offered(st, Continue)
    ensures Handle(st, Continue).Continuing?
    ensures Handle(st, Continue).state.step == 2
    ensures st.data.communitySize != "" && st.data.moderationCapacity != ""
    ensures |st.data.coreActivities| > 0
  {
  }

  /** Back moves one step down and leaves the answers alone. */
  lemma BackKeepsAnswers(st: WizardState)
    requires Offered(st, Back)
    ensures Handle(st, Back).Continuing?
    ensures Handle(st, Back).state.data == st.data
    ensures Handle(st, Back).state.step == st.step - 1 >= 1
  {
  }

  /** Unchecking "import" keeps the chosen provider; only a provider badge
      writes that answer. */
  lemma ProviderOnlyWrittenByBadge(st: WizardState, e: Event)
    requires Handle(st, e).Continuing?
    requires Handle(st, e).state.data.importProvider != st.data.importProvider
    ensures e.ChooseProvider? && e.provider == Handle(st, e).state.data.importProvider
  {
  }

  /** The state after each of `events`, applying only offered events and
      ignoring the rest; stops at the first event that closes the wizard. */
  function Run(st: WizardState, events: seq<Event>): Outcome
    decreases |events|
  {
    if |events| == 0 then Continuing(st)
    else if !Offered(st, events[0]) then Run(st, events[1..])
    else match Handle(st, events[0])
      case Continuing(st') => Run(st', events[1..])
      case other => other
  }

  /** Whatever the user does inside the dialog, the step stays within 1..3
      and any completed answers pass the step-1 gate. */
  lemma {:induction false} RunKeepsInv(st: WizardState, events: seq<Event>)
    requires Inv(st)
    ensures Run(st, events).Continuing? ==> Inv(Run(st, events).state)
    ensures Run(st, events).Completed? ==> CanContinue(Run(st, events).answers)
    decreases |events|
  {
    if |events| > 0 {
      if !Offered(st, events[0]) {
        RunKeepsInv(st, events[1..]);
      } else {
        HandlePreservesInv(st, events[0]);
        if Handle(st, events[0]).Continuing? {
          RunKeepsInv(Handle(st, events[0]).state, events[1..]);
        }
      }
    }
  }
}
