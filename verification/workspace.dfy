/** The whole application as the user drives it: the `App` state, the
    wizard's local state while the wizard screen is mounted, and the clicks
    the screen offers. `renderMainContent` decides which handlers the main
    area wires to which buttons, and the sidebar is present on every screen.
    A click on a control that is not on screen cannot happen; `Dispatch`
    leaves the session unchanged for it. */
module Workspace {
  import opened Wrappers
  import opened App
  import Wizard
  import Sidebar

  /** The application state plus the wizard component's local state, present
      exactly while the wizard screen is mounted. */
  datatype Session = Session(app: AppState, wizard: Option<Wizard.WizardState>)

  const Start := Session(App.Init, None)

  /** A click or input anywhere on screen. `MainApprove` and `MainBack` are
      the approve and back buttons of whichever screen is showing. */
  datatype Click =
    | SidebarHub
    | SidebarWizard
    | InWizard(e: Wizard.Event)
    | MainApprove
    | MainBack

  /** Whether the control clicked is on screen. */
  predicate Offered(s: Session, c: Click) {
    var v := s.app.currentView;
    match c
    case SidebarHub => true
    case SidebarWizard => OpenWizard in Sidebar.OfferedActions(s.app.blueprintApproved, v)
    case InWizard(e) => v == WizardView && s.wizard.Some? && Wizard.Offered(s.wizard.value, e)
    case MainApprove => v == RecommendationView || v == ChangeSetView
    case MainBack => v == RecommendationView || v == ChangeSetView || v == HubView
  }

  /** The application moves to `next`; the wizard is mounted afresh when its
      screen appears, kept while it stays, and dropped when it goes. */
  function Mount(s: Session, next: AppState): Session {
    var w :=
      if next.currentView != WizardView then None
      else if s.app.currentView == WizardView && s.wizard.Some? then s.wizard
      else Some(Wizard.Fresh);
    Session(next, w)
  }

  /** The handler `renderMainContent` wires to the approve button. */
  function ApproveHandler(v: View): Action {
    if v == RecommendationView then ApproveBlueprint else FinalApproval
  }

  /** The handler `renderMainContent` wires to the back button. */
  function BackHandler(v: View): Action {
    if v == ChangeSetView then BackToRecommendation else BackToChat
  }

  /** The effect of a click on a control that is on screen. */
  function Step(s: Session, c: Click): Session
    requires Offered(s, c)
  {
    match c
    case SidebarHub => Mount(s, HandleOpenHub(s.app))
    case SidebarWizard => Mount(s, HandleOpenWizard(s.app))
    case InWizard(e) =>
      (match Wizard.Handle(s.wizard.value, e)
       case Continuing(w) => s.(wizard := Some(w))
       case Completed(answers) => Mount(s, HandleWizardComplete(s.app, answers))
       case Cancelled => Mount(s, HandleBackToChat(s.app)))
    case MainApprove => Mount(s, Apply(s.app, ApproveHandler(s.app.currentView)))
    case MainBack => Mount(s, Apply(s.app, BackHandler(s.app.currentView)))
  }

  function Dispatch(s: Session, c: Click): Session {
    if Offered(s, c) then Step(s, c) else s
  }

  function Run(s: Session, clicks: seq<Click>): Session
    decreases |clicks|
  {
    if |clicks| == 0 then s else Run(Dispatch(s, clicks[0]), clicks[1..])
  }

  /** What holds of every session the user can reach:
      - the wizard state exists exactly on the wizard screen, and keeps the
        wizard's own invariant;
      - carried answers passed the step-1 gate, and answers and summary are
        carried together, the summary being the constant one;
      - the recommendation and change-set screens have a summary to show;
      - the Hub is only on screen once approved;
      - once approved, a summary and answers exist and only chat and the Hub
        remain reachable. */
  predicate Inv(s: Session) {
    var a := s.app;
    && (s.wizard.Some? <==> a.currentView == WizardView)
    && (s.wizard.Some? ==> Wizard.Inv(s.wizard.value))
    && (a.wizardData.Some? <==> a.recommendationData.Some?)
    && (a.wizardData.Some? ==> Wizard.CanContinue(a.wizardData.value))
    && (a.recommendationData.Some? ==> a.recommendationData.value == BlueprintSummary)
    && (a.currentView == RecommendationView || a.currentView == ChangeSetView ==> a.recommendationData.Some?)
    && (a.currentView == HubView ==> a.blueprintApproved)
    && (a.blueprintApproved ==> a.recommendationData.Some? && (a.currentView == ChatView || a.currentView == HubView))
  }

  lemma StartInv()
    ensures Inv(Start)
  {
  }

  /** One click keeps the invariant. */
  lemma DispatchKeepsInv(s: Session, c: Click)
    requires Inv(s)
    ensures Inv(Dispatch(s, c))
  {
    if Offered(s, c) && c.InWizard? {
      Wizard.HandlePreservesInv(s.wizard.value, c.e);
      Wizard.FreshInv();
    } else if Offered(s, c) {
      Wizard.FreshInv();
    }
  }

  /** Reachability: after any clicks from the start, the invariant holds;
      in particular approval implies that a recommendation exists. */
  lemma {:induction false} RunKeepsInv(s: Session, clicks: seq<Click>)
    requires Inv(s)
    ensures Inv(Run(s, clicks))
    ensures Run(s, clicks).app.blueprintApproved ==> Run(s, clicks).app.recommendationData.Some?
    decreases |clicks|
  {
    if |clicks| > 0 {
      DispatchKeepsInv(s, clicks[0]);
      RunKeepsInv(Dispatch(s, clicks[0]), clicks[1..]);
    }
  }

  /** Approval survives any clicks. */
  lemma {:induction false} ApprovalMonotone(s: Session, clicks: seq<Click>)
    requires s.app.blueprintApproved
    ensures Run(s, clicks).app.blueprintApproved
    decreases |clicks|
  {
    if |clicks| > 0 {
      var c := clicks[0];
      if Offered(s, c) && c.InWizard? {
        assert Dispatch(s, c).app.blueprintApproved;
      }
      ApprovalMonotone(Dispatch(s, c), clicks[1..]);
    }
  }

  /** A click on the Hub entry opens the Hub exactly when approved and
      otherwise leaves everything as it was. */
  lemma HubEntry(s: Session)
    requires Inv(s)
    ensures !s.app.blueprintApproved ==> Dispatch(s, SidebarHub) == s
    ensures s.app.blueprintApproved ==> Dispatch(s, SidebarHub).app == s.app.(currentView := HubView)
  {
  }

  /** Cancelling the wizard discards its answers: reopening it starts from
      the defaults. */
  lemma CancelThenReopenStartsFresh(s: Session)
    requires Inv(s) && s.app.currentView == WizardView
    ensures Offered(Dispatch(s, InWizard(Wizard.Cancel)), SidebarWizard)
    ensures Dispatch(Dispatch(s, InWizard(Wizard.Cancel)), SidebarWizard).wizard == Some(Wizard.Fresh)
  {
  }

  /** Run one click, then the rest. */
  lemma RunCons(s: Session, c: Click, rest: seq<Click>)
    ensures Run(s, [c] + rest) == Run(Dispatch(s, c), rest)
  {
    assert ([c] + rest)[1..] == rest;
  }

  /** Opening the wizard, answering step 1 and continuing through the three
      steps lands on the recommendation for those answers, not yet
      approved. */
  lemma WizardWalkRecommends()
    ensures var d := Wizard.DefaultData.(communitySize := "25-100", coreActivities := ["Projects"], moderationCapacity := "medium");
      Run(Start, [
        SidebarWizard,
        InWizard(Wizard.SelectSize("25-100")),
        InWizard(Wizard.CheckActivity("Projects", true)),
        InWizard(Wizard.SelectModeration("medium")),
        InWizard(Wizard.Continue),
        InWizard(Wizard.Continue),
        InWizard(Wizard.Continue)])
      == Session(App.Init.(currentView := RecommendationView, wizardData := Some(d), recommendationData := Some(BlueprintSummary)), None)
  {
    var d0 := Wizard.DefaultData;
    var d1 := d0.(communitySize := "25-100");
    var d2 := d1.(coreActivities := ["Projects"]);
    var d := d2.(moderationCapacity := "medium");
    var onWizard := App.Init.(currentView := WizardView);
    var c0, c1, c2 := SidebarWizard, InWizard(Wizard.SelectSize("25-100")), InWizard(Wizard.CheckActivity("Projects", true));
    var c3, c4 := InWizard(Wizard.SelectModeration("medium")), InWizard(Wizard.Continue);
    var s1 := Session(onWizard, Some(Wizard.WizardState(d0, 1)));
    var s2 := Session(onWizard, Some(Wizard.WizardState(d1, 1)));
    var s3 := Session(onWizard, Some(Wizard.WizardState(d2, 1)));
    var s4 := Session(onWizard, Some(Wizard.WizardState(d, 1)));
    var s5 := Session(onWizard, Some(Wizard.WizardState(d, 2)));
    var s6 := Session(onWizard, Some(Wizard.WizardState(d, 3)));
    var s7 := Session(App.Init.(currentView := RecommendationView, wizardData := Some(d), recommendationData := Some(BlueprintSummary)), None);
    assert Dispatch(Start, c0) == s1;
    assert Dispatch(s1, c1) == s2;
    assert ([] + ["Projects"]) == ["Projects"];
    assert Dispatch(s2, c2) == s3;
    assert Dispatch(s3, c3) == s4;
    assert Dispatch(s4, c4) == s5;
    assert Dispatch(s5, c4) == s6;
    assert Dispatch(s6, c4) == s7;
    RunCons(s6, c4, []);
    RunCons(s5, c4, [c4]);
    RunCons(s4, c4, [c4, c4]);
    RunCons(s3, c3, [c4, c4, c4]);
    RunCons(s2, c2, [c3, c4, c4, c4]);
    RunCons(s1, c1, [c2, c3, c4, c4, c4]);
    RunCons(Start, c0, [c1, c2, c3, c4, c4, c4]);
  }

  /** From the recommendation, approving twice returns to chat approved;
      the Hub then opens, and its back button returns to chat still
      approved. */
  lemma ApproveThenHub(s: Session)
    requires Inv(s) && s.app.currentView == RecommendationView
    ensures Run(s, [MainApprove]).app.currentView == ChangeSetView
    ensures Run(s, [MainApprove, MainApprove]).app.currentView == ChatView
    ensures Run(s, [MainApprove, MainApprove]).app.blueprintApproved
    ensures Run(s, [MainApprove, MainApprove, SidebarHub]).app.currentView == HubView
    ensures Run(s, [MainApprove, MainApprove, SidebarHub, MainBack]).app.currentView == ChatView
    ensures Run(s, [MainApprove, MainApprove, SidebarHub, MainBack]).app.blueprintApproved
  {
    assert [MainApprove, MainApprove][1..] == [MainApprove];
    assert [MainApprove, MainApprove, SidebarHub][1..] == [MainApprove, SidebarHub];
    assert [MainApprove, SidebarHub][1..] == [SidebarHub];
    assert [MainApprove, MainApprove, SidebarHub, MainBack][1..] == [MainApprove, SidebarHub, MainBack];
    assert [MainApprove, SidebarHub, MainBack][1..] == [SidebarHub, MainBack];
    assert [SidebarHub, MainBack][1..] == [MainBack];
  }
}
