/** What each operation of the component does, one step at a time, stated
    against the state machine in CodeStreamModel. */
module CodeStreamProperties {
  import opened Host
  import opened CodeStreamModel

  // ---------------------------------------------------------------------
  // Reading the log

  /** Focus notifications of a log made of two parts are those of the first
      part followed by those of the second. */
  lemma {:induction false} FocusPostsAppend(a: seq<Effect>, b: seq<Effect>)
    ensures FocusPosts(a + b) == FocusPosts(a) + FocusPosts(b)
    decreases |b|
  {
    if b == [] {
      assert a + b == a;
    } else {
      var b' := b[..|b| - 1];
      assert (a + b)[..|a + b| - 1] == a + b';
      assert (a + b)[|a + b| - 1] == b[|b| - 1];
      FocusPostsAppend(a, b');
    }
  }

  /** A log holds no focus notification exactly when none of its entries is
      one, and never more notifications than entries. */
  lemma {:induction false} FocusPostsEmpty(log: seq<Effect>)
    ensures |FocusPosts(log)| <= |log|
    ensures FocusPosts(log) == [] <==> forall i :: 0 <= i < |log| ==> !log[i].PostFocus?
    decreases |log|
  {
    if log != [] {
      var init := log[..|log| - 1];
      FocusPostsEmpty(init);
      assert forall i :: 0 <= i < |init| ==> init[i] == log[i];
    }
  }

  /** Appending one focus notification makes it the last one. */
  lemma LastPostIsNewest(log: seq<Effect>, focused: bool)
    ensures LastPost(log + [PostFocus(focused)]) == Some(focused)
  {
    FocusPostsAppend(log, [PostFocus(focused)]);
    assert [PostFocus(focused)][..0] == [];
  }

  // ---------------------------------------------------------------------
  // isFocused and isVisible

  /** The forEach over the observers calls each one once, with the given
      value, in list order. */
  lemma {:induction false} ObserverCallsInOrder(observers: seq<nat>, visible: bool)
    ensures |ObserverCalls(observers, visible)| == |observers|
    ensures forall i :: 0 <= i < |observers| ==>
              ObserverCalls(observers, visible)[i] == CallObserver(observers[i], visible)
    decreases |observers|
  {
    if observers != [] {
      ObserverCallsInOrder(observers[..|observers| - 1], visible);
    }
  }

  /** Observer calls contain no focus notification. */
  lemma ObserverCallsPostNothing(observers: seq<nat>, v: bool)
    ensures FocusPosts(ObserverCalls(observers, v)) == []
  {
    ObserverCallsInOrder(observers, v);
    FocusPostsEmpty(ObserverCalls(observers, v));
  }

  /** With the webview service, every assignment to isFocused, also one that
      stores the value already there, appends exactly one focus notification
      carrying isFocused && isVisible as they are after the assignment, and
      changes nothing else. */
  lemma AssignFocusedPostsOnce(s: State, v: bool)
    requires s.project.webView
    ensures AssignFocused(s, v) == s.(isFocused := v, log := s.log + [PostFocus(v && s.isVisible)])
    ensures FocusPosts(AssignFocused(s, v).log) == FocusPosts(s.log) + [v && s.isVisible]
  {
    FocusPostsAppend(s.log, [PostFocus(v && s.isVisible)]);
    assert [PostFocus(v && s.isVisible)][..0] == [];
  }

  /** Without the webview service an assignment to isFocused only stores the
      value. */
  lemma AssignFocusedWithoutWebView(s: State, v: bool)
    requires !s.project.webView
    ensures AssignFocused(s, v) == s.(isFocused := v)
  {
    assert s.log + [] == s.log;
  }

  /** Every assignment to isVisible calls each registered observer exactly
      once with the new value, in registration order, and posts no focus
      notification; nothing else changes. */
  lemma AssignVisibleCallsEachObserver(s: State, v: bool)
    ensures AssignVisible(s, v) == s.(isVisible := v, log := AssignVisible(s, v).log)
    ensures |AssignVisible(s, v).log| == |s.log| + |s.observers|
    ensures AssignVisible(s, v).log[..|s.log|] == s.log
    ensures forall i :: 0 <= i < |s.observers| ==>
              AssignVisible(s, v).log[|s.log| + i] == CallObserver(s.observers[i], v)
    ensures FocusPosts(AssignVisible(s, v).log) == FocusPosts(s.log)
  {
    var calls := ObserverCalls(s.observers, v);
    FocusPostsAppend(s.log, calls);
    ObserverCallsInOrder(s.observers, v);
    ObserverCallsPostNothing(s.observers, v);
    assert FocusPosts(s.log) + [] == FocusPosts(s.log);
  }

  /** Registering an observer only appends it to the list: neither boolean
      changes and nothing is called. */
  lemma OnIsVisibleChangedOnlyRegisters(s: State, observer: nat)
    ensures OnIsVisibleChanged(s, observer) == s.(observers := s.observers + [observer])
  {
  }

  /** An observer registered later is called after every earlier one: the
      next isVisible assignment ends with the calls of the last two observers
      registered, in the order they were registered. */
  lemma ObserversCalledInRegistrationOrder(s: State, first: nat, second: nat, v: bool)
    ensures var t := AssignVisible(OnIsVisibleChanged(OnIsVisibleChanged(s, first), second), v);
            |t.log| >= 2 && t.log[|t.log| - 2..] == [CallObserver(first, v), CallObserver(second, v)]
  {
    var obs := s.observers + [first] + [second];
    ObserverCallsInOrder(obs, v);
    var calls := ObserverCalls(obs, v);
    assert calls[|calls| - 2] == CallObserver(first, v);
    assert calls[|calls| - 1] == CallObserver(second, v);
  }

  // ---------------------------------------------------------------------
  // Host events

  /** Once its listener is installed, losing window focus sets isFocused to
      false; the notification of the assignment is the only other change. */
  lemma WindowLostFocusClearsFocus(s: State)
    requires s.listeners.windowFocus
    ensures WindowLostFocus(s) == s.(isFocused := false, log := WindowLostFocus(s).log)
    ensures WindowLostFocus(s) == AssignFocused(s, false)
  {
  }

  /** Once its listener is installed, gaining window focus sets isFocused to
      true; the notification of the assignment is the only other change. */
  lemma WindowGainedFocusSetsFocus(s: State)
    requires s.listeners.windowFocus
    ensures WindowGainedFocus(s) == s.(isFocused := true, log := WindowGainedFocus(s).log)
    ensures WindowGainedFocus(s) == AssignFocused(s, true)
  {
  }

  /** Before the deferred listener set-up has installed the focus listener,
      window focus events have no effect. */
  lemma WindowFocusIgnoredWithoutListener(s: State)
    requires !s.listeners.windowFocus
    ensures WindowLostFocus(s) == s && WindowGainedFocus(s) == s
  {
  }

  /** stateChanged sets isVisible to the tool window's visibility, false
      when there is no tool window; only isVisible and the log change. */
  lemma StateChangedSetsVisibility(s: State)
    requires s.listeners.messageBus
    ensures StateChanged(s).isVisible == (s.toolWindow.Some? && s.toolWindow.value.visible)
    ensures StateChanged(s) == s.(isVisible := StateChanged(s).isVisible, log := StateChanged(s).log)
  {
  }

  /** With the webview service, stateChanged calls the observers with the new
      isVisible and then posts exactly one focus notification reflecting it. */
  lemma StateChangedPostsOnce(s: State)
    requires s.listeners.messageBus && s.project.webView
    ensures StateChanged(s).log
            == s.log + ObserverCalls(s.observers, ToolWindowVisible(s))
                     + [PostFocus(s.isFocused && ToolWindowVisible(s))]
    ensures FocusPosts(StateChanged(s).log) == FocusPosts(s.log) + [s.isFocused && ToolWindowVisible(s)]
  {
    var v := ToolWindowVisible(s);
    var t := AssignVisible(s, v);
    AssignVisibleCallsEachObserver(s, v);
    FocusPostsAppend(t.log, [PostFocus(s.isFocused && v)]);
    assert [PostFocus(s.isFocused && v)][..0] == [];
  }

  /** Without the webview service stateChanged only calls the observers. */
  lemma StateChangedWithoutWebView(s: State)
    requires s.listeners.messageBus && !s.project.webView
    ensures StateChanged(s).log == s.log + ObserverCalls(s.observers, ToolWindowVisible(s))
  {
    assert AssignVisible(s, ToolWindowVisible(s)).log + [] == AssignVisible(s, ToolWindowVisible(s)).log;
  }

  /** Before the message-bus subscription exists stateChanged has no effect. */
  lemma StateChangedIgnoredWithoutSubscription(s: State)
    requires !s.listeners.messageBus
    ensures StateChanged(s) == s
  {
  }

  /** toolWindowRegistered ignores every id but "CodeStream", and throws
      only for that id. */
  lemma RegistrationIgnoresOtherIds(s: State, id: string)
    requires id != CodeStreamToolWindowId
    ensures ToolWindowRegistered(s, id) == s
    ensures !RegistrationThrows(s, id)
  {
  }

  /** For its own id, toolWindowRegistered adds a new loading label as the
      last child of the tool window, keeps the other children, and logs
      nothing. */
  lemma RegistrationAddsLoadingLabel(s: State)
    requires Valid(s) && s.listeners.messageBus && s.toolWindow.Some?
    ensures Valid(ToolWindowRegistered(s, CodeStreamToolWindowId))
    ensures ToolWindowRegistered(s, CodeStreamToolWindowId).toolWindow.Some?
    ensures var cs := ToolWindowRegistered(s, CodeStreamToolWindowId).toolWindow.value.components;
            && cs == s.toolWindow.value.components + [LoadingLabel(s.nextLabel)]
            && LoadingLabel(s.nextLabel) !in s.toolWindow.value.components
    ensures var t := ToolWindowRegistered(s, CodeStreamToolWindowId);
            t == s.(toolWindow := t.toolWindow, nextLabel := s.nextLabel + 1, pending := t.pending)
    ensures var tw := ToolWindowRegistered(s, CodeStreamToolWindowId).toolWindow.value;
            tw.visible == s.toolWindow.value.visible && tw.icon == s.toolWindow.value.icon
  {
    var tw := s.toolWindow.value;
    AttachAppendsOnce(tw.components, LoadingLabel(s.nextLabel));
  }

  /** For its own id, toolWindowRegistered queues one agent-start callback
      for the new label when the agent service exists. */
  lemma RegistrationQueuesAgentCallback(s: State)
    requires s.listeners.messageBus && s.toolWindow.Some? && s.project.agent
    ensures ToolWindowRegistered(s, CodeStreamToolWindowId).pending.agentStart
            == s.pending.agentStart + [s.nextLabel]
  {
  }

  /** Without the agent service no callback is queued. */
  lemma RegistrationWithoutAgent(s: State)
    requires !s.project.agent
    ensures ToolWindowRegistered(s, CodeStreamToolWindowId).pending == s.pending
  {
  }

  /** One agent-start callback without the webview service changes nothing. */
  lemma SwapInWebViewNeedsWebView(s: State, labelId: nat)
    requires !s.project.webView
    ensures SwapInWebView(s, labelId) == s
  {
  }

  /** One agent-start callback with the webview service and the tool window:
      the webview is loaded, the webview becomes the last child, and the
      children are the old ones without the label, plus the webview. */
  lemma SwapInWebViewSwapsLabel(s: State, labelId: nat)
    requires Valid(s) && s.project.webView && s.toolWindow.Some?
    ensures Valid(SwapInWebView(s, labelId))
    ensures SwapInWebView(s, labelId).log == s.log + [LoadWebView]
    ensures SwapInWebView(s, labelId).toolWindow.Some?
    ensures var cs := SwapInWebView(s, labelId).toolWindow.value.components;
            && |cs| > 0 && cs[|cs| - 1] == WebViewComponent
            && forall c :: c in cs <==> c == WebViewComponent
                                        || (c in s.toolWindow.value.components && c != LoadingLabel(labelId))
  {
    var tw := s.toolWindow.value;
    var rest := Detach(tw.components, LoadingLabel(labelId));
    DetachRemovesOnly(tw.components, LoadingLabel(labelId));
    AttachAppendsOnce(rest, WebViewComponent);
  }

  /** With the webview service but no tool window, the callback only loads
      the webview. */
  lemma SwapInWebViewWithoutToolWindow(s: State, labelId: nat)
    requires s.project.webView && s.toolWindow.None?
    ensures SwapInWebView(s, labelId) == s.(log := s.log + [LoadWebView])
  {
  }

  /** One agent-start callback changes only the log and the tool window,
      posts no focus notification, and leaves a tool window in place. */
  lemma SwapInWebViewFrame(s: State, labelId: nat)
    ensures SwapInWebView(s, labelId)
            == s.(log := SwapInWebView(s, labelId).log, toolWindow := SwapInWebView(s, labelId).toolWindow)
    ensures SwapInWebView(s, labelId).toolWindow.Some? == s.toolWindow.Some?
    ensures FocusPosts(SwapInWebView(s, labelId).log) == FocusPosts(s.log)
  {
    if s.project.webView {
      FocusPostsAppend(s.log, [LoadWebView]);
      assert [LoadWebView][..0] == [];
    }
  }

  /** One agent-start callback keeps the tool window free of duplicates. */
  lemma SwapInWebViewKeepsValid(s: State, labelId: nat)
    requires Valid(s)
    ensures Valid(SwapInWebView(s, labelId))
  {
    if s.project.webView && s.toolWindow.Some? {
      SwapInWebViewSwapsLabel(s, labelId);
    }
  }

  /** Running queued agent-start callbacks changes only the log and the
      tool window, posts no focus notification, and leaves a tool window in
      place. */
  lemma {:induction false} AgentCallbacksFrame(s: State, labels: seq<nat>)
    ensures RunAgentCallbacks(s, labels)
            == s.(log := RunAgentCallbacks(s, labels).log,
                  toolWindow := RunAgentCallbacks(s, labels).toolWindow)
    ensures RunAgentCallbacks(s, labels).toolWindow.Some? == s.toolWindow.Some?
    ensures FocusPosts(RunAgentCallbacks(s, labels).log) == FocusPosts(s.log)
    decreases |labels|
  {
    if labels != [] {
      var init, last := labels[..|labels| - 1], labels[|labels| - 1];
      AgentCallbacksFrame(s, init);
      SwapInWebViewFrame(RunAgentCallbacks(s, init), last);
    }
  }

  /** Running queued agent-start callbacks keeps the tool window free of
      duplicates. */
  lemma {:induction false} AgentCallbacksKeepValid(s: State, labels: seq<nat>)
    requires Valid(s)
    ensures Valid(RunAgentCallbacks(s, labels))
    decreases |labels|
  {
    if labels != [] {
      var init, last := labels[..|labels| - 1], labels[|labels| - 1];
      AgentCallbacksKeepValid(s, init);
      SwapInWebViewKeepsValid(RunAgentCallbacks(s, init), last);
    }
  }

  /** Without the webview service the agent-start callbacks change nothing. */
  lemma {:induction false} AgentCallbacksWithoutWebView(s: State, labels: seq<nat>)
    requires !s.project.webView
    ensures RunAgentCallbacks(s, labels) == s
    decreases |labels|
  {
    if labels != [] {
      AgentCallbacksWithoutWebView(s, labels[..|labels| - 1]);
    }
  }

  /** With the webview service and a tool window, running the callbacks of
      some labels loads the webview once per callback, in order, after what
      was logged before. */
  lemma {:induction false} AgentCallbacksLoadOncePerCallback(s: State, labels: seq<nat>)
    requires Valid(s) && s.project.webView && s.toolWindow.Some?
    ensures |RunAgentCallbacks(s, labels).log| == |s.log| + |labels|
    ensures RunAgentCallbacks(s, labels).log[..|s.log|] == s.log
    ensures forall i :: |s.log| <= i < |s.log| + |labels| ==> RunAgentCallbacks(s, labels).log[i] == LoadWebView
    decreases |labels|
  {
    if labels != [] {
      var init, last := labels[..|labels| - 1], labels[|labels| - 1];
      AgentCallbacksLoadOncePerCallback(s, init);
      AgentCallbacksFrame(s, init);
      AgentCallbacksKeepValid(s, init);
      var m := RunAgentCallbacks(s, init);
      SwapInWebViewSwapsLabel(m, last);
      var l := RunAgentCallbacks(s, labels).log;
      assert l == m.log + [LoadWebView];
      assert l[..|s.log|] == m.log[..|s.log|];
      forall i | |s.log| <= i < |s.log| + |labels|
        ensures l[i] == LoadWebView
      {
        if i < |m.log| {
          assert l[i] == m.log[i];
        }
      }
    }
  }

  /** With the webview service and a tool window, after the callbacks of
      some labels the children are exactly the old children minus those
      labels, plus the webview when there was at least one callback. */
  lemma {:induction false} AgentCallbacksSwapInWebView(s: State, labels: seq<nat>)
    requires Valid(s) && s.project.webView && s.toolWindow.Some?
    ensures RunAgentCallbacks(s, labels).toolWindow.Some?
    ensures forall c :: c in RunAgentCallbacks(s, labels).toolWindow.value.components
                        <==> (c in s.toolWindow.value.components && !(c.LoadingLabel? && c.id in labels))
                             || (labels != [] && c == WebViewComponent)
    decreases |labels|
  {
    if labels != [] {
      var init, last := labels[..|labels| - 1], labels[|labels| - 1];
      AgentCallbacksSwapInWebView(s, init);
      AgentCallbacksFrame(s, init);
      AgentCallbacksKeepValid(s, init);
      var m := RunAgentCallbacks(s, init);
      SwapInWebViewSwapsLabel(m, last);
      forall c
        ensures c in RunAgentCallbacks(s, labels).toolWindow.value.components
                <==> (c in s.toolWindow.value.components && !(c.LoadingLabel? && c.id in labels))
                     || c == WebViewComponent
      {
        assert c.LoadingLabel? ==> (c.id in labels <==> c.id in init || c.id == last);
      }
    }
  }

  /** The agent's start runs the queued callbacks and empties the queue;
      only the log, the tool window and that queue change, and the tool
      window keeps no duplicate. */
  lemma AgentDidStartEmptiesQueue(s: State)
    requires Valid(s)
    ensures Valid(AgentDidStart(s))
    ensures AgentDidStart(s)
            == s.(log := AgentDidStart(s).log, toolWindow := AgentDidStart(s).toolWindow,
                  pending := s.pending.(agentStart := []))
    ensures AgentDidStart(s).toolWindow.Some? == s.toolWindow.Some?
    ensures FocusPosts(AgentDidStart(s).log) == FocusPosts(s.log)
  {
    AgentCallbacksFrame(s.(pending := s.pending.(agentStart := [])), s.pending.agentStart);
    AgentCallbacksKeepValid(s.(pending := s.pending.(agentStart := [])), s.pending.agentStart);
  }

  /** With the webview service and the tool window, the agent's start loads
      the webview once per queued callback, and afterwards the children are
      exactly the old ones minus every queued label, plus the webview when
      the queue was not empty. */
  lemma AgentDidStartSwapsInWebView(s: State)
    requires Valid(s) && s.project.webView && s.toolWindow.Some?
    ensures AgentDidStart(s).toolWindow.Some?
    ensures |AgentDidStart(s).log| == |s.log| + |s.pending.agentStart|
    ensures AgentDidStart(s).log[..|s.log|] == s.log
    ensures forall i :: |s.log| <= i < |AgentDidStart(s).log| ==> AgentDidStart(s).log[i] == LoadWebView
    ensures forall c :: c in AgentDidStart(s).toolWindow.value.components
                        <==> (c in s.toolWindow.value.components && !(c.LoadingLabel? && c.id in s.pending.agentStart))
                             || (s.pending.agentStart != [] && c == WebViewComponent)
  {
    var start := s.(pending := s.pending.(agentStart := []));
    AgentCallbacksSwapInWebView(start, s.pending.agentStart);
    AgentCallbacksLoadOncePerCallback(start, s.pending.agentStart);
  }

  /** Without the webview service the agent's start only empties the queue. */
  lemma AgentDidStartWithoutWebView(s: State)
    requires !s.project.webView
    ensures AgentDidStart(s) == s.(pending := s.pending.(agentStart := []))
  {
    AgentCallbacksWithoutWebView(s.(pending := s.pending.(agentStart := [])), s.pending.agentStart);
  }

  // ---------------------------------------------------------------------
  // Commands

  /** toggleVisible asks to hide when the stored isVisible is true, whatever
      the tool window's own visibility is. */
  lemma ToggleHidesWhenStoredVisible(s: State)
    requires s.toolWindow.Some? && s.isVisible
    ensures ToggleVisible(s) == s.(log := s.log + [RequestHide])
  {
  }

  /** toggleVisible asks to show, with no afterShow, when the stored
      isVisible is false, whatever the tool window's own visibility is. */
  lemma ToggleShowsWhenStoredHidden(s: State)
    requires s.toolWindow.Some? && !s.isVisible
    ensures ToggleVisible(s) == s.(log := s.log + [RequestShow],
                                   pending := s.pending.(shows := s.pending.shows + [None]))
  {
  }

  /** Without a tool window toggleVisible, show and hide change nothing. */
  lemma CommandsNeedToolWindow(s: State, afterShow: Option<nat>)
    requires s.toolWindow.None?
    ensures ToggleVisible(s) == s && Show(s, afterShow) == s && Hide(s) == s
  {
  }

  /** With a tool window, show requests a show and queues its completion
      with the given afterShow. */
  lemma ShowQueuesCompletion(s: State, afterShow: Option<nat>)
    requires s.toolWindow.Some?
    ensures Show(s, afterShow) == s.(log := s.log + [RequestShow],
                                     pending := s.pending.(shows := s.pending.shows + [afterShow]))
  {
  }

  /** When a show with an afterShow completes and the webview service exists,
      the webview is focused and then the afterShow runs, once; the
      completion is consumed. */
  lemma ShowCompletionFocusesThenCallsBack(s: State)
    requires s.pending.shows != [] && s.pending.shows[0].Some? && s.project.webView
    ensures ShowCompleted(s)
            == s.(log := s.log + [FocusWebView, RunAfterShow(s.pending.shows[0].value)],
                  pending := s.pending.(shows := s.pending.shows[1..]))
  {
    assert [FocusWebView] + [RunAfterShow(s.pending.shows[0].value)]
           == [FocusWebView, RunAfterShow(s.pending.shows[0].value)];
  }

  /** Without the webview service the afterShow still runs, once. */
  lemma ShowCompletionWithoutWebView(s: State)
    requires s.pending.shows != [] && s.pending.shows[0].Some? && !s.project.webView
    ensures ShowCompleted(s)
            == s.(log := s.log + [RunAfterShow(s.pending.shows[0].value)],
                  pending := s.pending.(shows := s.pending.shows[1..]))
  {
    assert [] + [RunAfterShow(s.pending.shows[0].value)] == [RunAfterShow(s.pending.shows[0].value)];
  }

  /** A completed show without an afterShow only focuses the webview, if
      there is one. */
  lemma ShowCompletionWithoutCallback(s: State)
    requires s.pending.shows != [] && s.pending.shows[0].None? && s.project.webView
    ensures ShowCompleted(s) == s.(log := s.log + [FocusWebView],
                                   pending := s.pending.(shows := s.pending.shows[1..]))
  {
    assert [FocusWebView] + [] == [FocusWebView];
  }

  /** A show completion with nothing pending changes nothing. */
  lemma ShowCompletionWithoutRequest(s: State)
    requires s.pending.shows == []
    ensures ShowCompleted(s) == s
  {
  }

  // ---------------------------------------------------------------------
  // Deferred work

  /** The unread icon: a positive count selects the unread icon, anything
      else the normal one; nothing else about the tool window changes. */
  lemma UnreadIconFollowsCount(s: State, unreads: int)
    requires s.toolWindow.Some?
    ensures RunTask(s, ApplyUnreadIcon(unreads))
            == s.(toolWindow := Some(s.toolWindow.value.(icon := if unreads > 0 then UnreadIcon else NormalIcon)))
  {
  }

  /** An unread change is applied on a later UI turn, and only once the
      deferred listener set-up has run. */
  lemma UnreadsChangeIsDeferred(s: State, unreads: int)
    requires s.listeners.unreads
    ensures UnreadsChanged(s, unreads)
            == s.(pending := s.pending.(uiQueue := s.pending.uiQueue + [ApplyUnreadIcon(unreads)]))
  {
  }

  /** The first-run task requests show and clears firstRun in the same turn:
      the show's completion is still pending when firstRun is already
      false. */
  lemma FirstRunClearedBeforeShowCompletes(s: State)
    requires s.pending.uiQueue != [] && s.pending.uiQueue[0] == FirstRunShow && s.toolWindow.Some?
    ensures RunUiTurn(s)
            == s.(firstRun := false, log := s.log + [RequestShow],
                  pending := s.pending.(uiQueue := s.pending.uiQueue[1..],
                                        shows := s.pending.shows + [None]))
  {
  }

  /** Without a tool window the first-run task shows nothing and still
      clears firstRun. */
  lemma FirstRunClearedWithoutToolWindow(s: State)
    requires s.pending.uiQueue != [] && s.pending.uiQueue[0] == FirstRunShow && s.toolWindow.None?
    ensures RunUiTurn(s) == s.(firstRun := false, pending := s.pending.(uiQueue := s.pending.uiQueue[1..]))
  {
  }

  /** When firstRun is false at construction nothing is registered with the
      webview, so its initialisation queues no first-run show. */
  lemma NoFirstRunHookUnlessFirstRun(project: Project, toolWindow: Option<ToolWindow>)
    ensures !Init(false, project, toolWindow).pending.firstRunHook
    ensures WebViewDidInitialize(Init(false, project, toolWindow)) == Init(false, project, toolWindow)
  {
  }

  /** On first run with the webview service, the webview's initialisation
      queues the first-run show once; a second initialisation queues
      nothing. */
  lemma FirstRunHookFiresOnce(project: Project, toolWindow: Option<ToolWindow>)
    requires project.webView
    ensures WebViewDidInitialize(Init(true, project, toolWindow)).pending.uiQueue == [InitListeners, FirstRunShow]
    ensures WebViewDidInitialize(WebViewDidInitialize(Init(true, project, toolWindow)))
            == WebViewDidInitialize(Init(true, project, toolWindow))
  {
  }

  /** The deferred listener set-up returns early on a disposed project. */
  lemma DeferredListenersSkippedWhenDisposed(s: State)
    requires s.project.disposed
    ensures InitDeferredListeners(s) == s
  {
  }

  /** On a live project the deferred set-up installs the focus listener when
      the frame has a window and the unreads listener when the session
      service exists; nothing else changes. */
  lemma DeferredListenersInstalled(s: State)
    requires !s.project.disposed
    ensures InitDeferredListeners(s).listeners
            == s.listeners.(windowFocus := s.listeners.windowFocus || s.project.frameWindow,
                            unreads := s.listeners.unreads || s.project.session)
    ensures InitDeferredListeners(s) == s.(listeners := InitDeferredListeners(s).listeners)
  {
  }

  /** Construction: focused, not visible, nothing logged, nothing observed;
      the message-bus and editor listeners are installed unless the project
      is disposed; the first-run hook exactly on first run with a webview. */
  lemma InitialState(firstRun: bool, project: Project, toolWindow: Option<ToolWindow>)
    ensures Init(firstRun, project, toolWindow).isFocused
    ensures !Init(firstRun, project, toolWindow).isVisible
    ensures Init(firstRun, project, toolWindow).log == [] && Init(firstRun, project, toolWindow).observers == []
    ensures Init(firstRun, project, toolWindow).listeners
            == Listeners(!project.disposed, !project.disposed, false, false)
    ensures Init(firstRun, project, toolWindow).pending.firstRunHook == (firstRun && project.webView)
  {
  }
}
