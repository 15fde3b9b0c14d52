/** The approval-driven parts of the workspace sidebar
    (`src/components/Sidebar.tsx`): which channel list, sections and launch
    controls are on screen for a given approval flag and current view. */
module Sidebar {
  import opened Wrappers
  import opened App

  datatype Channel = Channel(id: int, name: string, unread: int)

  datatype Committee = Committee(id: int, name: string, members: int, channels: seq<Channel>)

  /** The channels listed before a blueprint is approved. */
  const BaseChannels: seq<Channel> := [
    Channel(1, "general", 0),
    Channel(2, "announcements", 2),
    Channel(3, "random", 0),
    Channel(4, "development", 5),
    Channel(5, "design", 1),
    Channel(6, "marketing", 0)
  ]

  /** The core channels listed after approval. */
  const ApprovedChannels: seq<Channel> := [
    Channel(1, "announcements", 2),
    Channel(2, "general", 0),
    Channel(3, "random", 0)
  ]

  const Workstreams: seq<Channel> := [
    Channel(4, "workstreams/app-redesign", 3),
    Channel(5, "workstreams/website", 1),
    Channel(6, "workstreams/outreach", 0)
  ]

  const Committees: seq<Committee> := [
    Committee(1, "Design Committee", 12, [Channel(7, "committees/design", 2), Channel(8, "design-critique", 1)]),
    Committee(2, "Development Committee", 15, [Channel(9, "committees/development", 4), Channel(10, "dev-standup", 0)]),
    Committee(3, "Marketing Committee", 9, [Channel(11, "committees/marketing", 1)])
  ]

  const LockedHubTip := "Hub is locked until a communication blueprint is approved. Run the AI Structure Wizard to continue."

  /** What the sidebar shows. `highlighted[i]` says whether `channels[i]` is
      drawn as the selected channel; the Workstreams and Committees sections
      are absent when their lists are empty. */
  datatype Panel = Panel(
    heading: string,
    channels: seq<Channel>,
    highlighted: seq<bool>,
    workstreams: seq<Channel>,
    committees: seq<Committee>,
    hubLocked: bool,
    hubTooltip: Option<string>,
    hubSelected: bool,
    wizardLauncher: bool)

  function Names(cs: seq<Channel>): (r: seq<string>)
    ensures |r| == |cs|
    ensures forall i :: 0 <= i < |cs| ==> r[i] == cs[i].name
  {
    seq(|cs|, i requires 0 <= i < |cs| => cs[i].name)
  }

  /** The sidebar for an approval flag and the current view. */
  function Render(approved: bool, view: View): (r: Panel)
    ensures Names(r.channels) == ["announcements", "general", "random"] <==> approved
    ensures !approved ==> Names(r.channels) == ["general", "announcements", "random", "development", "design", "marketing"]
    ensures r.heading == "Core Channels" <==> approved
    ensures r.heading == "Channels" <==> !approved
    ensures |r.highlighted| == |r.channels|
    ensures (exists i :: 0 <= i < |r.channels| && r.highlighted[i]) <==> view == ChatView
    ensures forall i :: 0 <= i < |r.channels| && r.highlighted[i] ==> r.channels[i].name == "general"
    ensures |r.workstreams| > 0 <==> approved
    ensures |r.committees| > 0 <==> approved
    ensures r.hubLocked <==> !approved
    ensures r.hubTooltip.Some? <==> !approved
    ensures r.hubSelected <==> approved && view == HubView
    ensures r.wizardLauncher <==> !approved
  {
    var channels := if approved then ApprovedChannels else BaseChannels;
    var highlighted := seq(|channels|, i requires 0 <= i < |channels| => channels[i].name == "general" && view == ChatView);
    assert view == ChatView ==> highlighted[if approved then 1 else 0];
    Panel(
      if approved then "Core Channels" else "Channels",
      channels,
      highlighted,
      if approved then Workstreams else [],
      if approved then Committees else [],
      !approved,
      if approved then None else Some(LockedHubTip),
      approved && view == HubView,
      !approved)
  }

  /** The controls of the sidebar that reach `App`: the Hub entry, always
      wired to `onOpenHub`, and the wizard launcher, wired to `onOpenWizard`
      and present only before approval. */
  function OfferedActions(approved: bool, view: View): (r: set<Action>)
    ensures OpenHub in r
    ensures OpenWizard in r <==> !approved
    ensures r <= {OpenHub, OpenWizard}
  {
    {OpenHub} + (if Render(approved, view).wizardLauncher then {OpenWizard} else {})
  }

  /** Once approved, the wizard cannot be launched from the sidebar again,
      whatever handlers run afterwards. */
  lemma NoRelaunchAfterApproval(s: AppState, actions: seq<Action>)
    requires s.blueprintApproved
    ensures OpenWizard !in OfferedActions(Run(s, actions).blueprintApproved, Run(s, actions).currentView)
  {
    ApprovalMonotone(s, actions);
  }
}
