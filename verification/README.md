# hive-frontend workspace logic in Dafny

The hive-frontend prototype is a Slack-like team workspace written in React.
Almost all of it renders hard-coded arrays, but five pieces hold logic. This
project models those five as immutable records and pure functions:

- **`App`** (`src/App.tsx`): the top-level view state machine. There are five
  screens (chat, wizard, recommendation, change set, Hub), a
  `blueprintApproved` flag, and the wizard answers and constant
  recommendation summary carried between screens. No handler checks the
  current view; `handleOpenHub` alone checks the approval flag.
- **`Wizard`** (`src/components/CommunityWizard.tsx`): the three-step AI
  Structure Wizard. It covers the answer record and its defaults, the
  activity toggle, the step-1 gate (`canContinue` and the disabled Continue
  button), Continue/Back/Cancel, and which control is on screen at each step.
- **`Hub`** (`src/components/HubDashboard.tsx`): the file filter (title
  search, source select, channel select), the linked-source total, and the
  items of the source select. All of these work over the literal `sources`
  and `files` arrays.
- **`Thread`** (`components/Thread.tsx`): the chat thread's `send`, which
  trims the input, ignores blank input, and appends a message numbered from
  the list length. It also covers the Enter-without-Shift key rule.
- **`Sidebar`** (`src/components/Sidebar.tsx`): what the sidebar shows for
  a given approval flag and view. This is the channel set, the heading, the
  Workstreams and Committees sections, the Hub entry's lock and tooltip, and
  the wizard launcher.

Two modules tie these together:

- **`Workspace`** composes `App`, `Sidebar` and `Wizard` into one session
  driven by clicks. A click is `Offered` only if its control is on screen, as
  decided by `renderMainContent` and the sidebar. A click on anything else
  leaves the session unchanged. The wizard's local state is mounted fresh
  whenever its screen appears and dropped when it goes. This gives the
  reachability results: approval implies a recommendation exists, and the
  wizard cannot be relaunched after approval.
- **`Text`** models the JavaScript string operations the core relies on:
  - `trim`, with the exact ECMAScript white-space and line-terminator set;
  - `toLowerCase`, for ASCII letters only;
  - `includes`, as substring containment;
  - the decimal rendering of a number inside a template string.

`Seqs` holds the ordered-subsequence, no-duplicates and remove-all notions
that the filters and the activity toggle are stated with.

### How the code decides what can happen

- **Locked Hub.** While the blueprint is unapproved, `handleOpenHub` shows a
  toast and returns. `HandleOpenHub` therefore returns the state unchanged;
  there is no error value.
- **No view checks.** No handler checks the current view. A handler runs only
  because the screen on show renders a button wired to it, so legality comes
  from what is on screen (`Workspace.Offered`).
- **Wizard launcher.** The sidebar's launcher is on screen on every view until
  approval. It can therefore open the wizard from the recommendation or
  change-set screen too, and `Workspace` allows that.
- **Three steps.** The wizard has `totalSteps = 3`.

## Model

| member | source | states |
|---|---|---|
| App.InitialState | src/App.tsx:25-30 | The application starts on chat, unapproved, with no answers and no summary |
| App.WizardCompleteEffect | src/App.tsx:32-45 | Completing the wizard shows the recommendation and stores the given answers. The summary is {9, 3, 2, 9, 10} whatever the answers and the prior state. Approval is untouched |
| App.ApproveBlueprintEffect | src/App.tsx:47-52 | Approving the blueprint changes only the view, to the change set. The flag and the carried data are unchanged |
| App.FinalApprovalEffect | src/App.tsx:54-61 | Final approval returns to chat with the flag set and keeps the data. Applying it twice equals applying it once |
| App.OpenHubEffect | src/App.tsx:63-69 | While unapproved, opening the Hub leaves the whole state unchanged. Once approved it changes only the view, to the Hub |
| App.NavigationEffect | src/App.tsx:71-77 | Back from the change set (the lambda on line 100) goes to the recommendation, back to chat goes to chat, and opening the wizard goes to the wizard; none of them touches the approval flag, the answers or the summary |
| App.ApplyKeepsApproval | src/App.tsx:32-77 | No handler clears the approval flag |
| App.ApprovalMonotone | src/App.tsx:32-77 | Approval survives any sequence of handler invocations |
| App.ApprovalNeedsFinalApproval | src/App.tsx:54-61 | A sequence of handler invocations that starts unapproved and ends approved contains a final approval |
| Wizard.HandleActivityChange | src/components/CommunityWizard.tsx:52-64 | A check appends the activity after the unchanged old list. An uncheck removes every occurrence of it, keeps every copy of each other activity, and keeps their relative order. No other answer changes |
| Wizard.ToggleKeepsNoDuplicates | src/components/CommunityWizard.tsx:115-121 | When the checkbox drives the toggle (checked means not yet listed), the activity list never gains a duplicate |
| Wizard.HandleContinue | src/components/CommunityWizard.tsx:70-76 | Continue completes with the current answers exactly when the step is at least 3. Below step 3 it always continues, one step up with the answers unchanged, and never closes the wizard |
| Wizard.FreshInv | src/components/CommunityWizard.tsx:40-50 | A fresh wizard is on step 1 with size "", no activities, moderation "", budget [10], no import and provider "", and satisfies the wizard invariant |
| Wizard.HandlePreservesInv | src/components/CommunityWizard.tsx:95-192 | Any control that is on screen keeps the step in 1..3, keeps every answer a value its control can produce, and keeps the step-1 answers given past step 1. Completion hands over answers that pass the step-1 gate |
| Wizard.ForwardFromStepOneNeedsAnswers | src/components/CommunityWizard.tsx:281-283 | When Continue is enabled on step 1, it moves to step 2. Size and moderation are then set and at least one activity is chosen |
| Wizard.BackKeepsAnswers | src/components/CommunityWizard.tsx:276-279 | Back is offered only above step 1. It moves one step down and leaves the answers untouched |
| Wizard.ProviderOnlyWrittenByBadge | src/components/CommunityWizard.tsx:171-192 | Only a provider badge changes the chosen provider, and it sets it to its own name. Unchecking "import" does not clear it |
| Wizard.RunKeepsInv | src/components/CommunityWizard.tsx:49-76 | Over any sequence of gestures, the step stays in 1..3. Any completion carries answers that pass the step-1 gate |
| Workspace.StartInv | src/App.tsx:25-30 | The starting session satisfies the reachability invariant |
| Workspace.DispatchKeepsInv | src/App.tsx:79-136 | One click on any control keeps the reachability invariant. The invariant covers:<br>• a wizard state exactly on the wizard screen;<br>• answers and summary carried together;<br>• a summary on the recommendation and change-set screens;<br>• the Hub only once approved;<br>• after approval, only chat and the Hub |
| Workspace.RunKeepsInv | src/App.tsx:79-136 | After any clicks, the invariant holds. In particular, approval implies a recommendation summary exists |
| Workspace.ApprovalMonotone | src/App.tsx:54-61 | Once approved, a session stays approved whatever is clicked |
| Workspace.HubEntry | src/App.tsx:63-69 | Clicking the sidebar's Hub entry while unapproved changes nothing. Once approved it opens the Hub |
| Workspace.CancelThenReopenStartsFresh | src/components/CommunityWizard.tsx:272-274 | After cancelling the wizard, the launcher is on screen, and reopening mounts the wizard with the default answers on step 1 |
| Workspace.WizardWalkRecommends | src/App.tsx:32-45 | Starting from a fresh session, the following walk reaches the recommendation screen:<br>• open the wizard;<br>• choose "25-100", "Projects" and "medium";<br>• continue three times.<br>The session then holds exactly those answers and the constant summary, is still unapproved, and has no wizard mounted |
| Workspace.ApproveThenHub | src/App.tsx:88-104 | From the recommendation, approve leads to the change set. Approving again leads to chat, approved. The Hub then opens, and its back button returns to chat, still approved |
| Sidebar.Render | src/components/Sidebar.tsx:75-226 | The channels are announcements, general, random exactly when approved, and otherwise the six base channels. The heading is "Core Channels" exactly when approved. Workstreams and Committees appear exactly when approved. "general" is the only channel ever highlighted, and only on chat. The Hub entry is locked with a tooltip exactly when unapproved, and selected exactly when approved on the Hub. The launcher shows exactly when unapproved |
| Sidebar.OfferedActions | src/components/Sidebar.tsx:209-273 | The Hub entry is always wired to `onOpenHub`. `onOpenWizard` is offered exactly when unapproved, and nothing else reaches the application |
| Sidebar.NoRelaunchAfterApproval | src/components/Sidebar.tsx:269-294 | After approval, whatever handlers run, the sidebar never again offers to open the wizard |
| Hub.FilterFiles | src/components/HubDashboard.tsx:161-166 | A file is listed exactly when it is in the input and its lowercased title contains the lowercased query, its source matches or the select is "all", and some tag contains the channel value or the select is "all". Every copy of a kept file is listed, no copy of another, and the result is an ordered subsequence of the input |
| Hub.NoFilterKeepsAll | src/components/HubDashboard.tsx:143-145 | With the initial criteria (empty query, both selects "all"), every file is listed in order |
| Hub.KeepsWidens | src/components/HubDashboard.tsx:161-166 | A file that narrower criteria keep is also kept by the wider criteria |
| Hub.NarrowingShrinks | src/components/HubDashboard.tsx:161-166 | Narrowing the criteria yields an ordered subsequence of the wider result, and so no more files |
| Hub.GeneralMatchesHashGeneral | src/components/HubDashboard.tsx:80-89 | The "#general" option's value "general" matches the tag "#general" by substring. Channel matching is case-sensitive, so "General" does not match |
| Hub.LinkedSources | src/components/HubDashboard.tsx:168 | The linked sources are every copy of each source whose status is linked and nothing else, in their original order |
| Hub.LinkedSourcesCons | src/components/HubDashboard.tsx:168 | Read from the front, the filter keeps the first source followed by the filtered rest when it is linked, and otherwise just the filtered rest |
| Hub.SumFilesCons | src/components/HubDashboard.tsx:169 | The left fold over file counts equals the count of the first source plus the fold of the rest |
| Hub.TotalFilesCounts | src/components/HubDashboard.tsx:168-169 | A linked source adds its whole file count to the total. Any other source adds nothing |
| Hub.LiteralTotal | src/components/HubDashboard.tsx:41-47 | For the literal sources the total is 1336 (1247 + 89) |
| Hub.SourceOptions | src/components/HubDashboard.tsx:316-318 | The source select offers "all" first and then exactly one item per linked source, its name, in source order; so a value appears after "all" exactly when it names a linked source |
| Hub.LiteralLinkedSources | src/components/HubDashboard.tsx:41-47 | Of the literal sources, exactly Google Drive and Notion are linked, in that order |
| Hub.LiteralSourceOptions | src/components/HubDashboard.tsx:316-318 | For the literal sources, the select offers "all", "Google Drive" and "Notion", in that order |
| Thread.Send | components/Thread.tsx:21-29 | Blank input changes nothing. Otherwise `send` appends exactly one message after the unchanged earlier ones and clears the input. The new message is numbered one past the old length, is from "You" at the given time, and holds non-empty trimmed text |
| Thread.SendKeepsText | components/Thread.tsx:22-26 | The sent text is the input with only surrounding white space removed |
| Thread.KeyDown | components/Thread.tsx:49 | Enter without Shift sends. Shift+Enter and every other key leave the thread unchanged |
| Thread.WellNumberedIdsUnique | components/Thread.tsx:26 | Numbering by position gives pairwise distinct ids |
| Thread.StartInv | components/Thread.tsx:11-19 | The seeded messages are numbered m1, m2, m3 |
| Thread.AppendKeepsInv | components/Thread.tsx:24-27 | Appending a message numbered one past the end, with non-empty trimmed text if it is one's own, keeps the numbering and the own-message invariant |
| Thread.SendKeepsInv | components/Thread.tsx:21-29 | `send` keeps the numbering and the trimmed own messages, and never changes an earlier message |
| Thread.HandleKeepsInv | components/Thread.tsx:46-53 | Typing, pressing a key or clicking Send keeps the invariant and every earlier message |
| Thread.RunKeepsInv | components/Thread.tsx:11-53 | Over any interaction:<br>• message i keeps the id m(i+1), so ids stay pairwise distinct;<br>• every own message is non-empty and trimmed;<br>• earlier messages survive as a prefix |
| Seqs.RemoveAll | src/components/CommunityWizard.tsx:61 | `filter(a => a !== x)` drops every copy of x and keeps every copy of each other member, in order. It is the identity when x is absent and keeps a list free of duplicates |
| Text.Trim | components/Thread.tsx:22 | `trim` returns a part of the input with no white space at either end, surrounded by white space only. It is empty exactly when the input is all white space |
| Text.TrimIdempotent | components/Thread.tsx:22 | Trimming a trimmed string changes nothing |
| Text.ContainsIff | src/components/HubDashboard.tsx:162-164 | `includes` holds exactly when the needle occurs at some position |
| Text.ContainsTransitive | src/components/HubDashboard.tsx:162-164 | A string containing something that contains a needle contains the needle |
| Text.LowerContains | src/components/HubDashboard.tsx:162 | Lowercasing preserves containment |
| Text.NatToString | components/Thread.tsx:26 | A number's decimal rendering is a non-empty run of digits without a leading zero |
| Text.ParseNatToString | components/Thread.tsx:26 | Reading the decimal rendering back gives the number |
| Text.NatToStringInjective | components/Thread.tsx:26 | Different numbers render differently, so `m${n}` ids differ |

## Left out

- **Toasts and timers.** The toasts in `handleFinalApproval` and
  `handleOpenHub` are side effects only. So is `handleLinkSource` in the
  Hub, with its `setTimeout`; it changes no state.
- **The message timestamp.** `new Date().toLocaleTimeString()` reads the
  clock. It is a `time` parameter of `Send`.
- **Widget behaviour.** The Radix widgets' own behaviour (the dialog's close
  event, selects emitting one of their items, the slider clamping to 4..20,
  a checkbox emitting the negation of what it shows) is not modelled. It is
  taken as the `Wizard.Offered` condition on events.
- **Lower: ASCII only.** It lowers ASCII letters only, not the full Unicode
  case mapping of `toLowerCase`. The literal titles are ASCII.
- **Progress bar.** Its percentage (`currentStep / totalSteps * 100`) is
  floating point and presentation only.
- **Mobile sidebar toggle.** The `sidebarOpen` flag and `onClose` are layout
  only. They never change the application state.
- **Presentation.** Styling, layout and icons are not modelled. This covers
  JSX structure, CSS classes, `getFileIcon` and `getStatusIcon`.
- **Hub tabs and switches.** The selected-file panel, the tab and the
  dedupe/similarity switches of the Hub only change presentation.
- **Direct messages.** The sidebar's direct-message list does not depend on
  approval.
- **Static screens.** `RecommendationView`, `ChangeSetPreview`,
  `MessagePane`, `MessageInput` and `ChannelHeader` render literal arrays. In
  the model they are represented only by the buttons `renderMainContent`
  wires to them.
- **The other sidebar.** `components/Sidebar.tsx` is a single active-channel
  assignment with no approval logic.
- **Browser text fields.** The thread input's `onChange` is modelled as
  replacing the input text (`Thread.Event.Type`); editing inside the field is
  not.
