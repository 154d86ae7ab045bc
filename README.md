# CodeStream JetBrains plugin: the component's focus and visibility state machine

`CodeStreamComponent` is the per-project controller of the CodeStream
IntelliJ plugin. It keeps two observable booleans:
- `isFocused` starts true. Every assignment posts a focus notification to the webview when the webview service exists.
- `isVisible` starts false. Every assignment calls the registered visibility observers.

It wires host events through to these fields:
- window focus gained or lost;
- the tool window's `stateChanged`;
- tool-window registration, which shows a "Loading..." label and swaps in the webview once the agent has started;
- unread-count changes, which pick one of two icons.

It offers `toggleVisible`, `show(afterShow)` and `hide`, and the first-run auto-show.

The project has two layers.

- `CodeStreamModel` (model.dfy) describes the component as a state machine over values. It has one function per member, per host event and per deferred callback.
  - Focus notifications, observer calls, show and hide requests, focusing the webview, running an `afterShow` callback and loading the webview go, in order, into one log.
  - The tool window's children and icon are state, not log entries. So the log does not record when they changed relative to the logged effects.
  - A callback handed to a collaborator waits in an explicit queue until the host fires it. These are the agent's `onDidStart` callbacks, the webview's `onDidInitialize` hook, `invokeLater` blocks, and tool-window show completions.
  - Which listeners are installed is part of the state. This is how the early returns on a disposed project are modelled.
- `Plugin.CodeStreamComponent` (component.dfy) is the component as a class whose fields the methods update in place.
  - The observers' `forEach` and the agent's start callbacks are loops.
  - Every method is proved to move the object's `Snapshot()` from `s` to the matching `CodeStreamModel` function of `s`. So the lemmas about those functions hold of the object.

The other modules:
- `Host` (host.dfy): the tool window, its icon and its Swing children.
- `CodeStreamProperties` (properties.dfy): what each operation does, one step at a time.
- `CodeStreamTraces` (traces.dfy): theorems about arbitrary runs of events.

Points where the code may surprise, which the model follows:
- A focus notification is posted on every `isFocused` assignment, even when the value does not change. Observers are called on every `isVisible` assignment.
- The first-run block clears `firstRun` right after it requests the show. It does not wait for the show to complete.
- `dispose()` is empty, and the component's own code never removes a listener. Its only reaction to a disposed project is to skip listener set-up that has not happened yet. Teardown done by the platform is not modelled (see "## Left out").

## Model

| member | source | states |
|---|---|---|
| Host.IconFor | jb/src/main/kotlin/CodeStreamComponent.kt:118-122 | the unread icon exactly when the count is positive, the normal icon exactly otherwise |
| Host.DetachRemovesOnly | jb/src/main/kotlin/CodeStreamComponent.kt:99 | removing a child leaves it absent, keeps every other child, keeps the children free of duplicates, and removing a component that is not a child changes nothing |
| Host.AttachAppendsOnce | jb/src/main/kotlin/CodeStreamComponent.kt:94 | adding a child makes it the last child, the children are the old ones plus it, and no duplicate appears; a child new to the container is simply appended |
| CodeStreamProperties.AssignFocusedPostsOnce | jb/src/main/kotlin/CodeStreamComponent.kt:36-38 | with the webview service, any isFocused assignment, also an unchanged value, appends exactly one notification equal to isFocused && isVisible after the assignment, and changes nothing else |
| CodeStreamProperties.AssignFocusedWithoutWebView | jb/src/main/kotlin/CodeStreamComponent.kt:161-165 | without the webview service an isFocused assignment only stores the value |
| CodeStreamProperties.ObserverCallsInOrder | jb/src/main/kotlin/CodeStreamComponent.kt:40 | the forEach makes one call per observer, with the new value, in list order |
| CodeStreamProperties.AssignVisibleCallsEachObserver | jb/src/main/kotlin/CodeStreamComponent.kt:39-41 | an isVisible assignment appends one call per registered observer in registration order after the old log, posts no focus notification and changes nothing else |
| CodeStreamProperties.OnIsVisibleChangedOnlyRegisters | jb/src/main/kotlin/CodeStreamComponent.kt:170-173 | registering an observer only appends it: both booleans and the log are unchanged |
| CodeStreamProperties.ObserversCalledInRegistrationOrder | jb/src/main/kotlin/CodeStreamComponent.kt:170-173 | of two observers registered one after the other, the next isVisible assignment calls the first before the second |
| CodeStreamProperties.WindowLostFocusClearsFocus | jb/src/main/kotlin/CodeStreamComponent.kt:60-62 | with the listener installed, focus loss is the assignment isFocused = false; only isFocused and the log change |
| CodeStreamProperties.WindowGainedFocusSetsFocus | jb/src/main/kotlin/CodeStreamComponent.kt:64-66 | with the listener installed, focus gain is the assignment isFocused = true; only isFocused and the log change |
| CodeStreamProperties.WindowFocusIgnoredWithoutListener | jb/src/main/kotlin/CodeStreamComponent.kt:55-59 | before the deferred set-up installs the window listener, focus events change nothing |
| CodeStreamProperties.StateChangedSetsVisibility | jb/src/main/kotlin/CodeStreamComponent.kt:106 | stateChanged sets isVisible to the tool window's visibility, false without a tool window; only isVisible and the log change |
| CodeStreamProperties.StateChangedPostsOnce | jb/src/main/kotlin/CodeStreamComponent.kt:105-108 | with the webview service, stateChanged calls the observers with the new value and then posts exactly one notification reflecting the updated isVisible |
| CodeStreamProperties.StateChangedWithoutWebView | jb/src/main/kotlin/CodeStreamComponent.kt:105-108 | without the webview service stateChanged only calls the observers |
| CodeStreamProperties.StateChangedIgnoredWithoutSubscription | jb/src/main/kotlin/CodeStreamComponent.kt:77-79 | when the project was disposed at construction nothing was subscribed and stateChanged changes nothing |
| CodeStreamProperties.RegistrationIgnoresOtherIds | jb/src/main/kotlin/CodeStreamComponent.kt:91-92 | registration of any id but "CodeStream" changes nothing and cannot throw |
| CodeStreamProperties.RegistrationAddsLoadingLabel | jb/src/main/kotlin/CodeStreamComponent.kt:93-94 | for its own id a loading label that is new to the tool window is appended, so the children are exactly the old ones followed by the label and grow by one, there is still no duplicate and no label from the future, visibility and icon stay, and only the tool window, the label counter and the agent queue change |
| CodeStreamProperties.RegistrationQueuesAgentCallback | jb/src/main/kotlin/CodeStreamComponent.kt:95-102 | with the agent service, one start callback for the new label is queued |
| CodeStreamProperties.RegistrationWithoutAgent | jb/src/main/kotlin/CodeStreamComponent.kt:95 | without the agent service no callback is queued |
| CodeStreamProperties.SwapInWebViewNeedsWebView | jb/src/main/kotlin/CodeStreamComponent.kt:96 | without the webview service the start callback changes nothing |
| CodeStreamProperties.SwapInWebViewSwapsLabel | jb/src/main/kotlin/CodeStreamComponent.kt:96-101 | with the service and the tool window, the webview is loaded once; afterwards the children are exactly the old ones minus the label plus the webview, the webview last, with no duplicate |
| CodeStreamProperties.SwapInWebViewWithoutToolWindow | jb/src/main/kotlin/CodeStreamComponent.kt:97-98 | with the service but no tool window the callback only loads the webview |
| CodeStreamProperties.SwapInWebViewFrame | jb/src/main/kotlin/CodeStreamComponent.kt:95-102 | the callback changes only the log and the tool window, posts no focus notification and leaves a tool window in place |
| CodeStreamProperties.SwapInWebViewKeepsValid | jb/src/main/kotlin/CodeStreamComponent.kt:98-101 | the callback keeps the children free of duplicates |
| CodeStreamProperties.AgentCallbacksFrame | jb/src/main/kotlin/CodeStreamComponent.kt:95-102 | running any number of start callbacks changes only the log and the tool window and posts no focus notification |
| CodeStreamProperties.AgentCallbacksKeepValid | jb/src/main/kotlin/CodeStreamComponent.kt:98-101 | running any number of start callbacks keeps the children free of duplicates |
| CodeStreamProperties.AgentCallbacksWithoutWebView | jb/src/main/kotlin/CodeStreamComponent.kt:96 | without the webview service the start callbacks change nothing |
| CodeStreamProperties.AgentCallbacksLoadOncePerCallback | jb/src/main/kotlin/CodeStreamComponent.kt:97 | with the service and a tool window, each callback loads the webview once, after everything logged before |
| CodeStreamProperties.AgentCallbacksSwapInWebView | jb/src/main/kotlin/CodeStreamComponent.kt:98-101 | after the callbacks of some labels the children are exactly the old ones minus those labels, plus the webview when at least one callback ran |
| CodeStreamProperties.AgentDidStartEmptiesQueue | jb/src/main/kotlin/CodeStreamComponent.kt:95-102 | the agent's start changes only the log, the tool window and its own queue, which it empties; it posts no focus notification, keeps a tool window in place and keeps the children free of duplicates |
| CodeStreamProperties.AgentDidStartSwapsInWebView | jb/src/main/kotlin/CodeStreamComponent.kt:95-102 | with the webview service and the tool window, the agent's start logs one webview load per queued callback after the old log; afterwards the children are exactly the old ones minus every queued label, plus the webview when the queue was not empty |
| CodeStreamProperties.AgentDidStartWithoutWebView | jb/src/main/kotlin/CodeStreamComponent.kt:96 | without the webview service the agent's start only empties its queue |
| CodeStreamProperties.ToggleHidesWhenStoredVisible | jb/src/main/kotlin/CodeStreamComponent.kt:139-144 | when the stored isVisible is true, toggleVisible requests hide and nothing else, whatever the tool window's own visibility |
| CodeStreamProperties.ToggleShowsWhenStoredHidden | jb/src/main/kotlin/CodeStreamComponent.kt:139-144 | when the stored isVisible is false, toggleVisible requests show without afterShow, whatever the tool window's own visibility |
| CodeStreamProperties.CommandsNeedToolWindow | jb/src/main/kotlin/CodeStreamComponent.kt:146-159 | without a tool window toggleVisible, show and hide do nothing |
| CodeStreamProperties.ShowQueuesCompletion | jb/src/main/kotlin/CodeStreamComponent.kt:146-151 | with a tool window, show requests a show and queues one completion carrying afterShow |
| CodeStreamProperties.ShowCompletionFocusesThenCallsBack | jb/src/main/kotlin/CodeStreamComponent.kt:147-150 | when a show completes with the webview service present, the webview is focused, then afterShow runs once, and the completion is consumed |
| CodeStreamProperties.ShowCompletionWithoutWebView | jb/src/main/kotlin/CodeStreamComponent.kt:148-149 | without the webview service the completion still runs afterShow once |
| CodeStreamProperties.ShowCompletionWithoutCallback | jb/src/main/kotlin/CodeStreamComponent.kt:147-149 | a completion without afterShow only focuses the webview |
| CodeStreamProperties.ShowCompletionWithoutRequest | jb/src/main/kotlin/CodeStreamComponent.kt:146-151 | with no show pending a completion changes nothing |
| CodeStreamProperties.UnreadIconFollowsCount | jb/src/main/kotlin/CodeStreamComponent.kt:118-122 | the deferred icon block sets the unread icon for a positive count, otherwise the normal icon, and changes nothing else |
| CodeStreamProperties.UnreadsChangeIsDeferred | jb/src/main/kotlin/CodeStreamComponent.kt:116-117 | an unread change only queues the icon update for a later UI turn |
| CodeStreamProperties.FirstRunClearedBeforeShowCompletes | jb/src/main/kotlin/CodeStreamComponent.kt:131-134 | the first-run block requests show and clears firstRun in the same turn, while the show's completion is still pending |
| CodeStreamProperties.FirstRunClearedWithoutToolWindow | jb/src/main/kotlin/CodeStreamComponent.kt:131-134 | without a tool window the first-run block requests nothing and still clears firstRun |
| CodeStreamProperties.NoFirstRunHookUnlessFirstRun | jb/src/main/kotlin/CodeStreamComponent.kt:127-136 | when firstRun is false at construction nothing is registered, so webview initialisation queues nothing |
| CodeStreamProperties.FirstRunHookFiresOnce | jb/src/main/kotlin/CodeStreamComponent.kt:129-135 | on first run the webview's initialisation queues the first-run block once; a second initialisation queues nothing |
| CodeStreamProperties.DeferredListenersSkippedWhenDisposed | jb/src/main/kotlin/CodeStreamComponent.kt:55-56 | the deferred listener set-up does nothing on a disposed project |
| CodeStreamProperties.DeferredListenersInstalled | jb/src/main/kotlin/CodeStreamComponent.kt:114-116 | on a live project the deferred set-up installs the focus listener when the frame has a window and the unreads listener when the session service exists, and changes nothing else |
| CodeStreamProperties.InitialState | jb/src/main/kotlin/CodeStreamComponent.kt:36-53 | construction: focused, not visible, nothing logged or observed, bus and editor listeners installed unless disposed, first-run hook exactly on first run with a webview service |
| CodeStreamTraces.ApplyKeepsPanelInSync | jb/src/main/kotlin/CodeStreamComponent.kt:161-165 | every event except a direct isVisible assignment keeps the webview's last notification equal to isFocused && isVisible |
| CodeStreamTraces.RunKeepsPanelInSync | jb/src/main/kotlin/CodeStreamComponent.kt:105-108 | any run without direct isVisible assignments keeps the webview in sync |
| CodeStreamTraces.PanelInSyncFromStart | jb/src/main/kotlin/CodeStreamComponent.kt:36-41 | from construction on, under any such run, the webview's idea of focus is isFocused && isVisible |
| CodeStreamTraces.VisibleAssignmentLeavesPanelStale | jb/src/main/kotlin/CodeStreamComponent.kt:39-41 | the isVisible setter posts nothing, so a direct assignment can leave the webview with a stale focus |
| CodeStreamTraces.RepeatedFocusGainLogsEachTime | jb/src/main/kotlin/CodeStreamComponent.kt:64-66 | n focus gains in a row log n notifications of the current visibility, leave isFocused true when n > 0, and change nothing but isFocused and the log |
| CodeStreamTraces.RepeatedFocusGainNotifiesEachTime | jb/src/main/kotlin/CodeStreamComponent.kt:36-38 | n focus gains post n notifications of the current visibility; isFocused ends true when n > 0 and is otherwise unchanged, and isVisible does not change |
| CodeStreamTraces.RunKeepsValid | jb/src/main/kotlin/CodeStreamComponent.kt:94-101 | whatever happens, the tool window never holds a component twice, and every loading label in it was created by an earlier registration |
| CodeStreamTraces.RunKeepsListeners | jb/src/main/kotlin/CodeStreamComponent.kt:167-168 | no event, the component's dispose and the project's disposed flag included, makes the component's code remove a listener |
| CodeStreamTraces.ClosedProjectStillNotified | jb/src/main/kotlin/CodeStreamComponent.kt:167-168 | the component's dispose changes nothing, and after the disposed flag is set an installed focus listener still assigns isFocused and posts, since no handler checks the flag |
| CodeStreamTraces.RunSpendsBudget | jb/src/main/kotlin/CodeStreamComponent.kt:127-137 | across any run, the first-run blocks executed plus those still possible never exceed what was possible at the start |
| CodeStreamTraces.FirstRunShowAtMostOnce | jb/src/main/kotlin/CodeStreamComponent.kt:127-137 | from construction, the first-run show is requested at most once, and never unless firstRun was set and the webview service exists |
| CodeStreamTraces.FirstRunNeverSetAgain | jb/src/main/kotlin/CodeStreamComponent.kt:133 | once false, firstRun stays false under any run |
| Plugin.CodeStreamComponent.constructor | jb/src/main/kotlin/CodeStreamComponent.kt:36-53 | the new object's state is the initial state and, given a tool window without duplicate children and without loading labels, satisfies Valid |
| Plugin.CodeStreamComponent.UpdateWebViewFocus | jb/src/main/kotlin/CodeStreamComponent.kt:161-165 | posts isFocused && isVisible when the webview service exists |
| Plugin.CodeStreamComponent.SetFocused | jb/src/main/kotlin/CodeStreamComponent.kt:36-38 | the isFocused setter: stores and posts |
| Plugin.CodeStreamComponent.SetVisible | jb/src/main/kotlin/CodeStreamComponent.kt:39-41 | the isVisible setter: stores, then the loop calls every observer in order |
| Plugin.CodeStreamComponent.OnIsVisibleChanged | jb/src/main/kotlin/CodeStreamComponent.kt:171-173 | appends one observer |
| Plugin.CodeStreamComponent.WindowLostFocus | jb/src/main/kotlin/CodeStreamComponent.kt:60-62 | as WindowLostFocusClearsFocus |
| Plugin.CodeStreamComponent.WindowGainedFocus | jb/src/main/kotlin/CodeStreamComponent.kt:64-66 | as WindowGainedFocusSetsFocus |
| Plugin.CodeStreamComponent.StateChanged | jb/src/main/kotlin/CodeStreamComponent.kt:105-108 | as StateChangedSetsVisibility and StateChangedPostsOnce |
| Plugin.CodeStreamComponent.ToolWindowRegistered | jb/src/main/kotlin/CodeStreamComponent.kt:91-103 | reports the null dereference exactly for its own id without a tool window, otherwise registers as RegistrationAddsLoadingLabel says, and keeps the children free of duplicates |
| Plugin.CodeStreamComponent.SwapInWebView | jb/src/main/kotlin/CodeStreamComponent.kt:95-102 | one start callback, as SwapInWebViewSwapsLabel says |
| Plugin.CodeStreamComponent.AgentDidStart | jb/src/main/kotlin/CodeStreamComponent.kt:95-102 | the loop runs every queued start callback in order, empties the queue and keeps the children free of duplicates |
| Plugin.CodeStreamComponent.WebViewDidInitialize | jb/src/main/kotlin/CodeStreamComponent.kt:130-135 | fires the first-run hook at most once |
| Plugin.CodeStreamComponent.UnreadsChanged | jb/src/main/kotlin/CodeStreamComponent.kt:116-117 | queues the icon update |
| Plugin.CodeStreamComponent.InitDeferredListeners | jb/src/main/kotlin/CodeStreamComponent.kt:49-52 | the deferred listener set-up with its disposed-project guards |
| Plugin.CodeStreamComponent.ApplyIcon | jb/src/main/kotlin/CodeStreamComponent.kt:118-122 | sets the icon chosen by IconFor on the tool window, if any |
| Plugin.CodeStreamComponent.RunUiTurn | jb/src/main/kotlin/CodeStreamComponent.kt:131-134 | runs the oldest deferred block |
| Plugin.CodeStreamComponent.ShowCompleted | jb/src/main/kotlin/CodeStreamComponent.kt:147-150 | as ShowCompletionFocusesThenCallsBack |
| Plugin.CodeStreamComponent.HostSetsVisibility | jb/src/main/kotlin/CodeStreamComponent.kt:33-34 | the host shows or hides its tool window |
| Plugin.CodeStreamComponent.HostCreatesToolWindow | jb/src/main/kotlin/CodeStreamComponent.kt:33-34 | the host creates the tool window: hidden, empty, normal icon |
| Plugin.CodeStreamComponent.HostRemovesToolWindow | jb/src/main/kotlin/CodeStreamComponent.kt:33-34 | the host no longer has the tool window |
| Plugin.CodeStreamComponent.ProjectClosed | jb/src/main/kotlin/CodeStreamComponent.kt:56 | the project becomes disposed; nothing else changes |
| Plugin.CodeStreamComponent.Show | jb/src/main/kotlin/CodeStreamComponent.kt:146-151 | as ShowQueuesCompletion |
| Plugin.CodeStreamComponent.Hide | jb/src/main/kotlin/CodeStreamComponent.kt:157-159 | requests hide when there is a tool window |
| Plugin.CodeStreamComponent.ToggleVisible | jb/src/main/kotlin/CodeStreamComponent.kt:139-144 | as ToggleHidesWhenStoredVisible and ToggleShowsWhenStoredHidden |
| Plugin.CodeStreamComponent.Dispose | jb/src/main/kotlin/CodeStreamComponent.kt:167-168 | changes nothing |

## Left out

- Threading: each `invokeLater` block (lines 49-52, 117, 131) is a FIFO queue entry that an explicit UI turn runs. Nothing runs concurrently.
- IntelliJ and Swing APIs are abstract state. These are the message bus, `EditorFactory`, `WindowManager`/`UIUtil`, `IconLoader`, `ServiceManager`, `ToolWindowManagerWorkaround` and `JLabel`.
  - The tool window is an optional value: a visible flag, a list of children and one of two icons.
  - The getter at lines 33-34 is looked up again on every access. It is modelled as a field that only the host events change.
- Listener implementations: `EditorFactoryListenerImpl`, `FileEditorManagerListenerImpl` and `ModuleListenerImpl` are not part of this model. Installing them is a flag.
- The `CodeStreamDiffURLStreamHandler` class initialisation (line 45) and the logging (line 44) are left out.
- Callbacks: observers and `afterShow` callbacks are opaque ids, and their own effects are not modelled. An observer that registers another observer while the list is being iterated is not modelled.
- Webview and agent internals: the webview is taken to exist whenever the webview service does. The `webView?` null check at line 148 is not modelled separately.
- Collaborator callback semantics: the webview service's `onDidInitialize` and the agent service's `onDidStart` are not part of this model. The model assumes each runs a registered callback once and then drops it. Callbacks registered after the agent has started wait for the next start.
- The null dereference `toolWindow!!` (line 94) is reported as a flag with the state unchanged. How the exception propagates through the message bus is not modelled.
- Platform teardown: the editor listener's parent disposable (line 73), the end of the message-bus connection (line 79) when the project is disposed, and service lookups on a closed project are not modelled. `listeners` and `project.webView` are therefore never cleared, and RunKeepsListeners and ClosedProjectStillNotified speak only of what the component's own code does.
- shared/ui/Stream/OpenReviews.tsx is not part of this model. It is a UI rendering component.
