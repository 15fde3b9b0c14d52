/** The top-level view state of `src/App.tsx`: which screen is showing,
    whether the communication blueprint has been approved, and the wizard
    answers and recommendation summary carried between screens. The handlers
    are modelled as written: none checks the current view, and
    `handleOpenHub` alone checks the approval flag. Which handlers can
    actually fire is decided by what is on screen (module `Workspace`). */
module App {
  import opened Wrappers
  import Wizard

  /** The five screens. */
  datatype View = ChatView | WizardView | RecommendationView | ChangeSetView | HubView

  /** The counts shown on the recommendation screen. */
  datatype Summary = Summary(
    channels: int,
    subgroups: int,
    archiveCandidates: int,
    channelBudgetUsed: int,
    channelBudgetMax: int)

  /** The summary every wizard completion produces, whatever the answers. */
  const BlueprintSummary := Summary(9, 3, 2, 9, 10)

  datatype AppState = AppState(
    currentView: View,
    blueprintApproved: bool,
    wizardData: Option<Wizard.WizardData>,
    recommendationData: Option<Summary>)

  /** The state the application starts in. */
  const Init := AppState(ChatView, false, None, None)

  /** `handleWizardComplete`: show the recommendation for `data`. */
  function HandleWizardComplete(s: AppState, data: Wizard.WizardData): AppState {
    s.(currentView := RecommendationView, wizardData := Some(data), recommendationData := Some(BlueprintSummary))
  }

  /** `handleApproveBlueprint`: move on to the change-set preview. */
  function HandleApproveBlueprint(s: AppState): AppState {
    s.(currentView := ChangeSetView)
  }

  /** `handleFinalApproval`: back to chat with the blueprint approved. */
  function HandleFinalApproval(s: AppState): AppState {
    s.(currentView := ChatView, blueprintApproved := true)
  }

  /** `handleOpenHub`: refused (only a notice is shown) until approval. */
  function HandleOpenHub(s: AppState): AppState {
    if !s.blueprintApproved then s else s.(currentView := HubView)
  }

  /** `handleOpenWizard`. */
  function HandleOpenWizard(s: AppState): AppState {
    s.(currentView := WizardView)
  }

  /** `handleBackToChat`, shared by the wizard's cancel and the back buttons
      of the recommendation and Hub screens. */
  function HandleBackToChat(s: AppState): AppState {
    s.(currentView := ChatView)
  }

  /** The inline back handler of the change-set preview. */
  function HandleBackToRecommendation(s: AppState): AppState {
    s.(currentView := RecommendationView)
  }

  /** One handler invocation. */
  datatype Action =
    | WizardComplete(data: Wizard.WizardData)
    | ApproveBlueprint
    | FinalApproval
    | OpenHub
    | OpenWizard
    | BackToChat
    | BackToRecommendation

  function Apply(s: AppState, a: Action): AppState {
    match a
    case WizardComplete(d) => HandleWizardComplete(s, d)
    case ApproveBlueprint => HandleApproveBlueprint(s)
    case FinalApproval => HandleFinalApproval(s)
    case OpenHub => HandleOpenHub(s)
    case OpenWizard => HandleOpenWizard(s)
    case BackToChat => HandleBackToChat(s)
    case BackToRecommendation => HandleBackToRecommendation(s)
  }

  /** The state after invoking `actions` in order. */
  function Run(s: AppState, actions: seq<Action>): AppState
    decreases |actions|
  {
    if |actions| == 0 then s else Run(Apply(s, actions[0]), actions[1..])
  }

  /** The application opens on chat, locked, with nothing carried over. */
  lemma InitialState()
    ensures Init.currentView == ChatView && !Init.blueprintApproved
    ensures Init.wizardData == None && Init.recommendationData == None
  {
  }

  /** Completing the wizard shows the recommendation for the given answers;
      the summary is the same whatever the answers and whatever came before,
      and approval is untouched. */
  lemma WizardCompleteEffect(s: AppState, t: AppState, d: Wizard.WizardData, e: Wizard.WizardData)
    ensures HandleWizardComplete(s, d).currentView == RecommendationView
    ensures HandleWizardComplete(s, d).wizardData == Some(d)
    ensures HandleWizardComplete(s, d).recommendationData == Some(Summary(9, 3, 2, 9, 10))
    ensures HandleWizardComplete(s, d).recommendationData == HandleWizardComplete(t, e).recommendationData
    ensures HandleWizardComplete(s, d).blueprintApproved == s.blueprintApproved
  {
  }

  /** Approving the blueprint changes the view only. */
  lemma ApproveBlueprintEffect(s: AppState)
    ensures HandleApproveBlueprint(s).currentView == ChangeSetView
    ensures HandleApproveBlueprint(s).blueprintApproved == s.blueprintApproved
    ensures HandleApproveBlueprint(s).wizardData == s.wizardData
    ensures HandleApproveBlueprint(s).recommendationData == s.recommendationData
  {
  }

  /** Final approval returns to chat approved, keeps the carried data, and
      applying it twice is applying it once. */
  lemma FinalApprovalEffect(s: AppState)
    ensures HandleFinalApproval(s).currentView == ChatView
    ensures HandleFinalApproval(s).blueprintApproved
    ensures HandleFinalApproval(s).wizardData == s.wizardData
    ensures HandleFinalApproval(s).recommendationData == s.recommendationData
    ensures HandleFinalApproval(HandleFinalApproval(s)) == HandleFinalApproval(s)
  {
  }

  /** Opening the Hub is a no-op while locked; once approved it changes the
      view only. */
  lemma OpenHubEffect(s: AppState)
    ensures !s.blueprintApproved ==> HandleOpenHub(s) == s
    ensures s.blueprintApproved ==> HandleOpenHub(s) == s.(currentView := HubView)
    ensures HandleOpenHub(s).currentView == HubView <==> s.blueprintApproved || s.currentView == HubView
  {
  }

  /** Back from the change set goes to the recommendation, every other back
      or cancel to chat, and opening the wizard to the wizard; none touches
      the approval flag or the carried data. */
  lemma NavigationEffect(s: AppState, a: Action)
    requires a == BackToRecommendation || a == BackToChat || a == OpenWizard
    ensures Apply(s, a).currentView ==
      (if a == BackToRecommendation then RecommendationView
       else if a == BackToChat then ChatView
       else WizardView)
    ensures Apply(s, a).blueprintApproved == s.blueprintApproved
    ensures Apply(s, a).wizardData == s.wizardData
    ensures Apply(s, a).recommendationData == s.recommendationData
  {
  }

  /** No handler withdraws approval. */
  lemma ApplyKeepsApproval(s: AppState, a: Action)
    requires s.blueprintApproved
    ensures Apply(s, a).blueprintApproved
  {
  }

  /** Approval is monotone over any sequence of handler invocations. */
  lemma {:induction false} ApprovalMonotone(s: AppState, actions: seq<Action>)
    requires s.blueprintApproved
    ensures Run(s, actions).blueprintApproved
    decreases |actions|
  {
    if |actions| > 0 {
      ApplyKeepsApproval(s, actions[0]);
      ApprovalMonotone(Apply(s, actions[0]), actions[1..]);
    }
  }

  /** Approval is only ever granted by a final approval. */
  lemma {:induction false} ApprovalNeedsFinalApproval(s: AppState, actions: seq<Action>)
    requires !s.blueprintApproved && Run(s, actions).blueprintApproved
    ensures FinalApproval in actions
    decreases |actions|
  {
    if actions[0] != FinalApproval {
      ApprovalNeedsFinalApproval(Apply(s, actions[0]), actions[1..]);
    }
  }
}
