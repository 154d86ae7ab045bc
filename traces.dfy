/** Properties of whole runs of the component: every host event, every
    public member and every deferred callback, in any order. */
module CodeStreamTraces {
  import opened Host
  import opened CodeStreamModel
  import opened CodeStreamProperties

  /** Everything that can happen to a constructed component. */
  datatype Event =
    | FocusAssigned(focused: bool)          // a caller assigns the public isFocused
    | VisibleAssigned(visible: bool)        // a caller assigns the public isVisible
    | ObserverAdded(observer: nat)          // onIsVisibleChanged
    | WindowFocusLost
    | WindowFocusGained
    | ToolWindowStateChanged
    | ToolWindowRegisteredFor(id: string)
    | AgentStarted
    | WebViewInitialized
    | UnreadCountChanged(unreads: int)
    | UiTurn                                // the host runs the oldest invokeLater block
    | ShowFinished                          // the tool window completes the oldest show
    | HostShowsOrHides(visible: bool)
    | HostCreatesWindow
    | HostRemovesWindow
    | Closed                                // the project is disposed by the host
    | ToggleRequested                       // toggleVisible
    | ShowRequested(afterShow: Option<nat>) // show(afterShow)
    | DisposeRequested                      // dispose

  function Apply(s: State, e: Event): State {
    match e
    case FocusAssigned(v) => AssignFocused(s, v)
    case VisibleAssigned(v) => AssignVisible(s, v)
    case ObserverAdded(o) => OnIsVisibleChanged(s, o)
    case WindowFocusLost => WindowLostFocus(s)
    case WindowFocusGained => WindowGainedFocus(s)
    case ToolWindowStateChanged => StateChanged(s)
    case ToolWindowRegisteredFor(id) => ToolWindowRegistered(s, id)
    case AgentStarted => AgentDidStart(s)
    case WebViewInitialized => WebViewDidInitialize(s)
    case UnreadCountChanged(n) => UnreadsChanged(s, n)
    case UiTurn => RunUiTurn(s)
    case ShowFinished => ShowCompleted(s)
    case HostShowsOrHides(v) => HostSetsVisibility(s, v)
    case HostCreatesWindow => HostCreatesToolWindow(s)
    case HostRemovesWindow => HostRemovesToolWindow(s)
    case Closed => ProjectClosed(s)
    case ToggleRequested => ToggleVisible(s)
    case ShowRequested(a) => Show(s, a)
    case DisposeRequested => Dispose(s)
  }

  /** The state after the events, oldest first. */
  function Run(s: State, es: seq<Event>): State
    decreases |es|
  {
    if es == [] then s else Apply(Run(s, es[..|es| - 1]), es[|es| - 1])
  }

  // ---------------------------------------------------------------------
  // The webview's view of focus

  /** The webview's idea of focus, the last notification it got, agrees with
      isFocused && isVisible; before any notification the panel assumes it is
      not focused. */
  predicate PanelInSync(s: State) {
    s.project.webView ==>
      LastPost(s.log) == Some(s.isFocused && s.isVisible)
      || (LastPost(s.log) == None && !(s.isFocused && s.isVisible))
  }

  /** An event that leaves both booleans alone and posts nothing keeps the
      panel in sync. */
  lemma QuietStepKeepsSync(s: State, t: State)
    requires PanelInSync(s)
    requires t.isFocused == s.isFocused && t.isVisible == s.isVisible && t.project.webView == s.project.webView
    requires FocusPosts(t.log) == FocusPosts(s.log)
    ensures PanelInSync(t)
  {
  }

  /** Appending effects that are not focus notifications posts nothing. */
  lemma QuietEffects(log: seq<Effect>, more: seq<Effect>)
    requires forall i :: 0 <= i < |more| ==> !more[i].PostFocus?
    ensures FocusPosts(log + more) == FocusPosts(log)
  {
    FocusPostsAppend(log, more);
    FocusPostsEmpty(more);
    assert FocusPosts(log) + [] == FocusPosts(log);
  }

  /** Posting the current value brings the panel in sync. */
  lemma PostingSyncs(t: State)
    requires |t.log| > 0 && t.log[|t.log| - 1] == PostFocus(t.isFocused && t.isVisible)
    ensures PanelInSync(t)
  {
    var init := t.log[..|t.log| - 1];
    assert t.log == init + [PostFocus(t.isFocused && t.isVisible)];
    LastPostIsNewest(init, t.isFocused && t.isVisible);
  }

  /** The events that post a focus notification post the current value. */
  lemma FocusEventsSync(s: State, e: Event)
    requires e.FocusAssigned? || e.WindowFocusLost? || e.WindowFocusGained? || e.ToolWindowStateChanged?
    requires PanelInSync(s)
    ensures PanelInSync(Apply(s, e))
  {
    var t := Apply(s, e);
    if !s.project.webView {
    } else if t == s {
    } else {
      assert t.log[|t.log| - 1] == PostFocus(t.isFocused && t.isVisible);
      PostingSyncs(t);
    }
  }

  /** The events that touch the tool window, the queues or the project. */
  lemma WindowEventsKeepSync(s: State, e: Event)
    requires e.ObserverAdded? || e.ToolWindowRegisteredFor? || e.AgentStarted? || e.WebViewInitialized?
             || e.UnreadCountChanged? || e.HostShowsOrHides? || e.HostCreatesWindow? || e.HostRemovesWindow?
             || e.Closed? || e.DisposeRequested?
    requires PanelInSync(s)
    ensures PanelInSync(Apply(s, e))
  {
    if e.AgentStarted? {
      AgentCallbacksFrame(s.(pending := s.pending.(agentStart := [])), s.pending.agentStart);
    }
    QuietStepKeepsSync(s, Apply(s, e));
  }

  /** A step that appends effects without a focus notification. */
  lemma AppendKeepsSync(s: State, t: State, more: seq<Effect>)
    requires PanelInSync(s)
    requires t.isFocused == s.isFocused && t.isVisible == s.isVisible && t.project.webView == s.project.webView
    requires t.log == s.log + more
    requires forall i :: 0 <= i < |more| ==> !more[i].PostFocus?
    ensures PanelInSync(t)
  {
    QuietEffects(s.log, more);
    QuietStepKeepsSync(s, t);
  }

  /** The deferred blocks at most request a show. */
  lemma UiTurnKeepsSync(s: State)
    requires PanelInSync(s)
    ensures PanelInSync(RunUiTurn(s))
  {
    var t := RunUiTurn(s);
    if s.pending.uiQueue != [] && s.pending.uiQueue[0] == FirstRunShow && s.toolWindow.Some? {
      AppendKeepsSync(s, t, [RequestShow]);
    } else {
      assert t.log == s.log;
      QuietStepKeepsSync(s, t);
    }
  }

  /** A show completion only focuses the webview and calls back. */
  lemma ShowCompletedKeepsSync(s: State)
    requires PanelInSync(s)
    ensures PanelInSync(ShowCompleted(s))
  {
    var t := ShowCompleted(s);
    if s.pending.shows != [] {
      var a := s.pending.shows[0];
      AppendKeepsSync(s, t, (if s.project.webView then [FocusWebView] else [])
                            + (if a.Some? then [RunAfterShow(a.value)] else []));
    }
  }

  /** show(afterShow) and toggleVisible only request. */
  lemma RequestsKeepSync(s: State, afterShow: Option<nat>)
    requires PanelInSync(s)
    ensures PanelInSync(Show(s, afterShow)) && PanelInSync(ToggleVisible(s))
  {
    if s.toolWindow.Some? {
      AppendKeepsSync(s, Show(s, afterShow), [RequestShow]);
      AppendKeepsSync(s, Show(s, None), [RequestShow]);
      AppendKeepsSync(s, Hide(s), [RequestHide]);
    }
  }

  /** Every event except a direct assignment to isVisible keeps the panel in
      sync. */
  lemma ApplyKeepsPanelInSync(s: State, e: Event)
    requires PanelInSync(s) && !e.VisibleAssigned?
    ensures PanelInSync(Apply(s, e))
  {
    if e.FocusAssigned? || e.WindowFocusLost? || e.WindowFocusGained? || e.ToolWindowStateChanged? {
      FocusEventsSync(s, e);
    } else if e.UiTurn? {
      UiTurnKeepsSync(s);
    } else if e.ShowFinished? {
      ShowCompletedKeepsSync(s);
    } else if e.ToggleRequested? {
      RequestsKeepSync(s, None);
    } else if e.ShowRequested? {
      RequestsKeepSync(s, e.afterShow);
    } else {
      WindowEventsKeepSync(s, e);
    }
  }

  /** A run without direct isVisible assignments keeps the panel in sync. */
  lemma {:induction false} RunKeepsPanelInSync(s: State, es: seq<Event>)
    requires PanelInSync(s)
    requires forall i :: 0 <= i < |es| ==> !es[i].VisibleAssigned?
    ensures PanelInSync(Run(s, es))
    decreases |es|
  {
    if es != [] {
      RunKeepsPanelInSync(s, es[..|es| - 1]);
      ApplyKeepsPanelInSync(Run(s, es[..|es| - 1]), es[|es| - 1]);
    }
  }

  /** From construction on, whatever the host does, the webview's idea of
      focus is isFocused && isVisible, as long as no caller assigns
      isVisible directly. */
  lemma PanelInSyncFromStart(firstRun: bool, project: Project, toolWindow: Option<ToolWindow>, es: seq<Event>)
    requires forall i :: 0 <= i < |es| ==> !es[i].VisibleAssigned?
    ensures PanelInSync(Run(Init(firstRun, project, toolWindow), es))
  {
    RunKeepsPanelInSync(Init(firstRun, project, toolWindow), es);
  }

  /** The isVisible setter does not post: a caller that assigns isVisible
      directly leaves the webview with a stale focus until the next isFocused
      assignment or stateChanged. */
  lemma VisibleAssignmentLeavesPanelStale()
    ensures var s := Init(false, Project(false, true, false, false, false), None);
            PanelInSync(s) && !PanelInSync(Apply(s, VisibleAssigned(true)))
  {
    var s := Init(false, Project(false, true, false, false, false), None);
    assert ObserverCalls([], true) == [];
    assert Apply(s, VisibleAssigned(true)).log == [];
  }

  // ---------------------------------------------------------------------
  // Repeated focus events

  /** n copies of x. */
  function Copies<T>(x: T, n: nat): (xs: seq<T>)
    ensures |xs| == n
  {
    if n == 0 then [] else Copies(x, n - 1) + [x]
  }

  /** One focus gain with the listener and the webview service in place. */
  lemma FocusGainStep(m: State)
    requires m.listeners.windowFocus && m.project.webView
    ensures WindowGainedFocus(m) == m.(isFocused := true, log := m.log + [PostFocus(m.isVisible)])
  {
    AssignFocusedPostsOnce(m, true);
  }

  /** Running one more copy of an event applies it once more. */
  lemma RunOneMore(s: State, e: Event, k: nat)
    ensures Run(s, Copies(e, k + 1)) == Apply(Run(s, Copies(e, k)), e)
  {
    assert Copies(e, k + 1)[..k] == Copies(e, k);
  }

  /** The window gaining focus n times in a row logs n notifications, one
      per event, although isFocused changes at most once; nothing but
      isFocused and the log changes. */
  lemma {:induction false} RepeatedFocusGainLogsEachTime(s: State, n: nat)
    requires s.listeners.windowFocus && s.project.webView
    ensures Run(s, Copies(WindowFocusGained, n)).(isFocused := s.isFocused)
            == s.(log := s.log + Copies(PostFocus(s.isVisible), n))
    ensures Run(s, Copies(WindowFocusGained, n)).isFocused == (n > 0 || s.isFocused)
    decreases n
  {
    if n > 0 {
      RepeatedFocusGainLogsEachTime(s, n - 1);
      var m := Run(s, Copies(WindowFocusGained, n - 1));
      RunOneMore(s, WindowFocusGained, n - 1);
      FocusGainStep(m);
      var t := Run(s, Copies(WindowFocusGained, n));
      assert t == m.(isFocused := true, log := m.log + [PostFocus(m.isVisible)]);
      assert m.isVisible == s.isVisible && m.log == s.log + Copies(PostFocus(s.isVisible), n - 1);
      assert s.log + Copies(PostFocus(s.isVisible), n - 1) + [PostFocus(s.isVisible)]
             == s.log + Copies(PostFocus(s.isVisible), n);
    }
  }

  /** n copies of one notification read as n copies of its value. */
  lemma {:induction false} FocusPostsOfCopies(log: seq<Effect>, v: bool, n: nat)
    ensures FocusPosts(log + Copies(PostFocus(v), n)) == FocusPosts(log) + Copies(v, n)
    decreases n
  {
    if n == 0 {
      assert log + Copies(PostFocus(v), n) == log;
    } else {
      FocusPostsOfCopies(log, v, n - 1);
      FocusPostsAppend(log + Copies(PostFocus(v), n - 1), [PostFocus(v)]);
      Regroup(log, Copies(PostFocus(v), n - 1), PostFocus(v));
      Regroup(FocusPosts(log), Copies(v, n - 1), v);
      assert FocusPosts([PostFocus(v)]) == [v] by {
        assert [PostFocus(v)][..0] == [];
      }
    }
  }

  lemma Regroup<T>(a: seq<T>, b: seq<T>, x: T)
    ensures a + (b + [x]) == (a + b) + [x]
  {
  }

  /** Every focus gain notifies the webview, also when isFocused is
      already true: n gains post the current visibility n times, while
      isFocused ends true after the first and then stays. */
  lemma RepeatedFocusGainNotifiesEachTime(s: State, n: nat)
    requires s.listeners.windowFocus && s.project.webView
    ensures Run(s, Copies(WindowFocusGained, n)).isFocused == (n > 0 || s.isFocused)
    ensures Run(s, Copies(WindowFocusGained, n)).isVisible == s.isVisible
    ensures FocusPosts(Run(s, Copies(WindowFocusGained, n)).log) == FocusPosts(s.log) + Copies(s.isVisible, n)
  {
    RepeatedFocusGainLogsEachTime(s, n);
    FocusPostsOfCopies(s.log, s.isVisible, n);
  }

  // ---------------------------------------------------------------------
  // The tool window's children

  lemma ApplyKeepsValid(s: State, e: Event)
    requires Valid(s)
    ensures Valid(Apply(s, e))
  {
    match e {
      case ToolWindowRegisteredFor(id) =>
        if s.listeners.messageBus && id == CodeStreamToolWindowId && s.toolWindow.Some? {
          RegistrationAddsLoadingLabel(s);
        }
      case AgentStarted =>
        AgentDidStartEmptiesQueue(s);
      case _ =>
    }
  }

  /** Whatever happens, the tool window never holds a component twice. */
  lemma {:induction false} RunKeepsValid(s: State, es: seq<Event>)
    requires Valid(s)
    ensures Valid(Run(s, es))
    decreases |es|
  {
    if es != [] {
      RunKeepsValid(s, es[..|es| - 1]);
      ApplyKeepsValid(Run(s, es[..|es| - 1]), es[|es| - 1]);
    }
  }

  // ---------------------------------------------------------------------
  // Listeners and disposal

  predicate Includes(a: Listeners, b: Listeners) {
    (a.editor ==> b.editor) && (a.messageBus ==> b.messageBus)
    && (a.windowFocus ==> b.windowFocus) && (a.unreads ==> b.unreads)
  }

  lemma ApplyKeepsListeners(s: State, e: Event)
    ensures Includes(s.listeners, Apply(s, e).listeners)
  {
    if e.AgentStarted? {
      AgentCallbacksFrame(s.(pending := s.pending.(agentStart := [])), s.pending.agentStart);
    }
  }

  /** The component's own code never removes a listener: neither its
      dispose nor any handler unsubscribes anything. */
  lemma {:induction false} RunKeepsListeners(s: State, es: seq<Event>)
    ensures Includes(s.listeners, Run(s, es).listeners)
    decreases |es|
  {
    if es != [] {
      RunKeepsListeners(s, es[..|es| - 1]);
      ApplyKeepsListeners(Run(s, es[..|es| - 1]), es[|es| - 1]);
    }
  }

  /** The component's dispose changes nothing, and nothing in the
      component's code checks the disposed flag after set-up: once the
      project is marked closed, an installed focus listener still assigns
      isFocused and updateWebViewFocus still posts. */
  lemma ClosedProjectStillNotified(s: State)
    requires s.listeners.windowFocus && s.project.webView
    ensures Apply(s, DisposeRequested) == s
    ensures Apply(Apply(s, Closed), WindowFocusGained).log == s.log + [PostFocus(s.isVisible)]
  {
  }

  // ---------------------------------------------------------------------
  // The first-run show

  /** How many first-run shows may still be requested: the registered hook
      plus the first-run blocks waiting for a UI turn. */
  function FirstRunBudget(s: State): nat {
    (if s.pending.firstRunHook then 1 else 0) + multiset(s.pending.uiQueue)[FirstRunShow]
  }

  /** The event runs the first-run block. */
  predicate RunsFirstRunShow(s: State, e: Event) {
    e.UiTurn? && s.pending.uiQueue != [] && s.pending.uiQueue[0] == FirstRunShow
  }

  lemma UiTurnSpendsBudget(s: State)
    ensures FirstRunBudget(RunUiTurn(s)) + (if RunsFirstRunShow(s, UiTurn) then 1 else 0) == FirstRunBudget(s)
  {
    var q := s.pending.uiQueue;
    if q != [] {
      assert q == [q[0]] + q[1..];
      assert multiset(q) == multiset{q[0]} + multiset(q[1..]);
    }
  }

  /** No event adds to the budget, and running the first-run block spends
      one. */
  lemma ApplySpendsBudget(s: State, e: Event)
    ensures FirstRunBudget(Apply(s, e)) + (if RunsFirstRunShow(s, e) then 1 else 0) <= FirstRunBudget(s)
  {
    match e {
      case UiTurn => UiTurnSpendsBudget(s);
      case AgentStarted =>
        AgentCallbacksFrame(s.(pending := s.pending.(agentStart := [])), s.pending.agentStart);
      case _ =>
    }
  }

  /** How many events of the run execute the first-run block. */
  function FirstRunShowsRun(s: State, es: seq<Event>): nat
    decreases |es|
  {
    if es == [] then 0
    else FirstRunShowsRun(s, es[..|es| - 1])
         + (if RunsFirstRunShow(Run(s, es[..|es| - 1]), es[|es| - 1]) then 1 else 0)
  }

  lemma {:induction false} RunSpendsBudget(s: State, es: seq<Event>)
    ensures FirstRunShowsRun(s, es) + FirstRunBudget(Run(s, es)) <= FirstRunBudget(s)
    decreases |es|
  {
    if es != [] {
      RunSpendsBudget(s, es[..|es| - 1]);
      ApplySpendsBudget(Run(s, es[..|es| - 1]), es[|es| - 1]);
    }
  }

  /** Whatever happens after construction, the first-run show is requested
      at most once, and never unless the setting said first run and the
      webview service exists. */
  lemma FirstRunShowAtMostOnce(firstRun: bool, project: Project, toolWindow: Option<ToolWindow>, es: seq<Event>)
    ensures FirstRunShowsRun(Init(firstRun, project, toolWindow), es) <= 1
    ensures !(firstRun && project.webView) ==> FirstRunShowsRun(Init(firstRun, project, toolWindow), es) == 0
  {
    RunSpendsBudget(Init(firstRun, project, toolWindow), es);
  }

  /** The setting is only ever cleared. */
  lemma {:induction false} FirstRunNeverSetAgain(s: State, es: seq<Event>)
    requires !s.firstRun
    ensures !Run(s, es).firstRun
    decreases |es|
  {
    if es != [] {
      FirstRunNeverSetAgain(s, es[..|es| - 1]);
      var m := Run(s, es[..|es| - 1]);
      if es[|es| - 1].AgentStarted? {
        AgentCallbacksFrame(m.(pending := m.pending.(agentStart := [])), m.pending.agentStart);
      }
    }
  }
}
