/** The per-project controller of the IntelliJ plugin (CodeStreamComponent) as
    a state machine over values: one function per operation of the component
    and per host event it listens to. The class in module Plugin runs these
    operations in place and is proved against the functions here.

    Focus notifications posted to the webview, calls of the visibility
    observers, show/hide requests to the tool window, focusing the webview,
    running a caller's afterShow callback and loading the webview are
    appended, in order, to one log. The tool window's children and icon are
    state, not log entries, so the log does not say when they changed
    relative to the logged effects. Callbacks
    the component hands to a collaborator wait in explicit queues until the
    host fires them. */
module CodeStreamModel {
  import opened Host

  /** The id the host uses for the plugin's tool window. */
  const CodeStreamToolWindowId: string := "CodeStream"

  datatype Effect =
    | PostFocus(focused: bool)                 // FocusNotifications.DidChange posted to the webview
    | CallObserver(observer: nat, visible: bool) // one registered isVisible observer called
    | RequestShow                              // toolWindow.show(...) called
    | RequestHide                              // toolWindow.hide(null) called
    | FocusWebView                             // webView.focus() called
    | RunAfterShow(callback: nat)              // the caller's afterShow callback invoked
    | LoadWebView                              // webViewService.load() called

  /** Blocks handed to ApplicationManager.invokeLater, run one per UI turn. */
  datatype UiTask =
    | InitListeners              // the init block's deferred window-focus and unreads set-up
    | FirstRunShow               // show(); settings.firstRun = false
    | ApplyUnreadIcon(unreads: int)

  /** The project and the optional services the component looks up on it,
      plus whether the IDE frame has a window. */
  datatype Project = Project(disposed: bool, webView: bool, agent: bool, session: bool, frameWindow: bool)

  /** Which listeners the component has installed with the host. */
  datatype Listeners = Listeners(editor: bool, messageBus: bool, windowFocus: bool, unreads: bool)

  /** Callbacks handed to a collaborator and not yet run. */
  datatype Pending = Pending(
    firstRunHook: bool,          // registered with webViewService.onDidInitialize
    agentStart: seq<nat>,        // registered with agentService.onDidStart, by label id
    uiQueue: seq<UiTask>,        // invokeLater blocks, oldest first
    shows: seq<Option<nat>>      // the afterShow of each show request not yet completed
  )

  datatype State = State(
    isFocused: bool,
    isVisible: bool,
    observers: seq<nat>,             // _isVisibleObservers, by observer id
    firstRun: bool,                  // the application setting
    project: Project,
    toolWindow: Option<ToolWindow>,  // the tool window with id "CodeStream", if the host has one
    log: seq<Effect>,                // what has been done to the outside world, oldest first
    nextLabel: nat,                  // the id the next "Loading..." label gets
    listeners: Listeners,
    pending: Pending
  )

  /** The tool window's children keep no duplicates, and every loading
      label among them was created by an earlier registration, so the label
      the next registration creates is new to the tool window. */
  predicate Valid(s: State) {
    s.toolWindow.Some? ==>
      && Distinct(s.toolWindow.value.components)
      && forall c :: c in s.toolWindow.value.components && c.LoadingLabel? ==> c.id < s.nextLabel
  }

  /** Construction: the field initialisers and the init block. The editor and
      message-bus listeners are installed unless the project is already
      disposed; the first-run hook is registered when the setting says first
      run and the webview service exists; the window-focus and unreads set-up
      is deferred to a later UI turn. */
  function Init(firstRun: bool, project: Project, toolWindow: Option<ToolWindow>): State
  {
    State(isFocused := true, isVisible := false, observers := [], firstRun := firstRun,
          project := project, toolWindow := toolWindow, log := [], nextLabel := 0,
          listeners := Listeners(editor := !project.disposed, messageBus := !project.disposed,
                                 windowFocus := false, unreads := false),
          pending := Pending(firstRunHook := firstRun && project.webView, agentStart := [],
                             uiQueue := [InitListeners], shows := []))
  }

  // ---------------------------------------------------------------------
  // The two observable fields

  /** updateWebViewFocus: posts isFocused && isVisible when the webview
      service exists. */
  function UpdateWebViewFocus(s: State): State {
    s.(log := s.log + if s.project.webView then [PostFocus(s.isFocused && s.isVisible)] else [])
  }

  /** An assignment to isFocused stores the value and runs updateWebViewFocus,
      whether or not the value changed. */
  function AssignFocused(s: State, v: bool): State {
    UpdateWebViewFocus(s.(isFocused := v))
  }

  /** The calls made by _isVisibleObservers.forEach { it(visible) }. */
  function ObserverCalls(observers: seq<nat>, visible: bool): seq<Effect>
  {
    if observers == [] then []
    else ObserverCalls(observers[..|observers| - 1], visible)
         + [CallObserver(observers[|observers| - 1], visible)]
  }

  /** An assignment to isVisible stores the value and calls every observer
      with it, whether or not the value changed. */
  function AssignVisible(s: State, v: bool): State {
    s.(isVisible := v, log := s.log + ObserverCalls(s.observers, v))
  }

  /** onIsVisibleChanged: registers one more observer. */
  function OnIsVisibleChanged(s: State, observer: nat): State {
    s.(observers := s.observers + [observer])
  }

  // ---------------------------------------------------------------------
  // Host events

  function WindowLostFocus(s: State): State {
    if s.listeners.windowFocus then AssignFocused(s, false) else s
  }

  function WindowGainedFocus(s: State): State {
    if s.listeners.windowFocus then AssignFocused(s, true) else s
  }

  /** toolWindow?.isVisible ?: false */
  function ToolWindowVisible(s: State): bool {
    s.toolWindow.Some? && s.toolWindow.value.visible
  }

  /** ToolWindowManagerListener.stateChanged. */
  function StateChanged(s: State): State {
    if s.listeners.messageBus then UpdateWebViewFocus(AssignVisible(s, ToolWindowVisible(s))) else s
  }

  /** toolWindowRegistered for the component's own id when the tool window
      cannot be found: `toolWindow!!` throws before anything is changed. */
  predicate RegistrationThrows(s: State, id: string) {
    s.listeners.messageBus && id == CodeStreamToolWindowId && s.toolWindow.None?
  }

  /** ToolWindowManagerListener.toolWindowRegistered: for the own id, a new
      loading label becomes a child of the tool window and, when the agent
      service exists, a callback that will swap it out is queued on agent
      start. */
  function ToolWindowRegistered(s: State, id: string): State {
    if !s.listeners.messageBus || id != CodeStreamToolWindowId || s.toolWindow.None? then s
    else
      var tw := s.toolWindow.value;
      s.(toolWindow := Some(tw.(components := Attach(tw.components, LoadingLabel(s.nextLabel)))),
         nextLabel := s.nextLabel + 1,
         pending := if s.project.agent then s.pending.(agentStart := s.pending.agentStart + [s.nextLabel])
                    else s.pending)
  }

  /** The onDidStart callback for the label with id labelId: without the
      webview service it returns at once; otherwise it loads the webview and,
      if the tool window is there, removes the label and adds the webview. */
  function SwapInWebView(s: State, labelId: nat): State {
    if !s.project.webView then s
    else
      var loaded := s.(log := s.log + [LoadWebView]);
      if s.toolWindow.None? then loaded
      else
        var tw := s.toolWindow.value;
        loaded.(toolWindow := Some(tw.(components :=
          Attach(Detach(tw.components, LoadingLabel(labelId)), WebViewComponent))))
  }

  /** The queued onDidStart callbacks, run in registration order. */
  function RunAgentCallbacks(s: State, labels: seq<nat>): State
    decreases |labels|
  {
    if labels == [] then s
    else SwapInWebView(RunAgentCallbacks(s, labels[..|labels| - 1]), labels[|labels| - 1])
  }

  /** The agent reports it has started: every callback registered so far runs
      once and is dropped. */
  function AgentDidStart(s: State): State {
    RunAgentCallbacks(s.(pending := s.pending.(agentStart := [])), s.pending.agentStart)
  }

  /** The webview reports it has initialised: the first-run callback, if
      registered, defers show-and-clear-firstRun to a later UI turn. */
  function WebViewDidInitialize(s: State): State {
    if s.pending.firstRunHook
    then s.(pending := s.pending.(firstRunHook := false, uiQueue := s.pending.uiQueue + [FirstRunShow]))
    else s
  }

  /** The session's unread count changed: the icon update is deferred to a
      later UI turn. */
  function UnreadsChanged(s: State, unreads: int): State {
    if s.listeners.unreads
    then s.(pending := s.pending.(uiQueue := s.pending.uiQueue + [ApplyUnreadIcon(unreads)]))
    else s
  }

  /** initWindowFocusListener and initUnreadsListener, each guarded by the
      project's disposed flag. */
  function InitDeferredListeners(s: State): State {
    var focus := !s.project.disposed && s.project.frameWindow;
    var unreads := !s.project.disposed && s.project.session;
    s.(listeners := s.listeners.(windowFocus := s.listeners.windowFocus || focus,
                                 unreads := s.listeners.unreads || unreads))
  }

  /** toolWindow?.setIcon(...) */
  function ApplyIcon(s: State, unreads: int): State {
    if s.toolWindow.None? then s
    else s.(toolWindow := Some(s.toolWindow.value.(icon := IconFor(unreads))))
  }

  function RunTask(s: State, task: UiTask): State {
    match task
    case InitListeners => InitDeferredListeners(s)
    case FirstRunShow => Show(s, None).(firstRun := false)
    case ApplyUnreadIcon(n) => ApplyIcon(s, n)
  }

  /** One UI turn: the oldest invokeLater block runs. */
  function RunUiTurn(s: State): State {
    if s.pending.uiQueue == [] then s
    else RunTask(s.(pending := s.pending.(uiQueue := s.pending.uiQueue[1..])), s.pending.uiQueue[0])
  }

  /** The tool window finishes the oldest pending show: the webview (if any)
      is focused, then the caller's afterShow (if any) runs. */
  function ShowCompleted(s: State): State {
    if s.pending.shows == [] then s
    else
      var afterShow := s.pending.shows[0];
      s.(pending := s.pending.(shows := s.pending.shows[1..]),
         log := s.log + (if s.project.webView then [FocusWebView] else [])
                      + (if afterShow.Some? then [RunAfterShow(afterShow.value)] else []))
  }

  /** The host shows or hides the tool window itself (the user clicks its
      stripe button, or a requested show or hide takes effect). */
  function HostSetsVisibility(s: State, visible: bool): State {
    if s.toolWindow.None? then s else s.(toolWindow := Some(s.toolWindow.value.(visible := visible)))
  }

  /** The host creates the tool window: hidden, empty, normal icon. */
  function HostCreatesToolWindow(s: State): State {
    if s.toolWindow.Some? then s else s.(toolWindow := Some(ToolWindow(false, [], NormalIcon)))
  }

  /** The host removes the tool window. */
  function HostRemovesToolWindow(s: State): State {
    s.(toolWindow := None)
  }

  /** The project is closed by the host. */
  function ProjectClosed(s: State): State {
    s.(project := s.project.(disposed := true))
  }

  // ---------------------------------------------------------------------
  // Commands

  /** show(afterShow): asks the tool window, if there is one, to show. */
  function Show(s: State, afterShow: Option<nat>): State {
    if s.toolWindow.None? then s
    else s.(log := s.log + [RequestShow], pending := s.pending.(shows := s.pending.shows + [afterShow]))
  }

  /** hide(): asks the tool window, if there is one, to hide. */
  function Hide(s: State): State {
    if s.toolWindow.None? then s else s.(log := s.log + [RequestHide])
  }

  /** toggleVisible: decides on the stored isVisible. */
  function ToggleVisible(s: State): State {
    if s.isVisible then Hide(s) else Show(s, None)
  }

  /** dispose() has an empty body. */
  function Dispose(s: State): State {
    s
  }

  // ---------------------------------------------------------------------
  // Reading the log

  function PostOf(e: Effect): seq<bool> {
    if e.PostFocus? then [e.focused] else []
  }

  /** The focus notifications in the log, oldest first. */
  function FocusPosts(log: seq<Effect>): seq<bool>
  {
    if log == [] then []
    else FocusPosts(log[..|log| - 1]) + PostOf(log[|log| - 1])
  }

  /** The value the webview was told last, if it was told anything. */
  function LastPost(log: seq<Effect>): Option<bool> {
    var posts := FocusPosts(log);
    if posts == [] then None else Some(posts[|posts| - 1])
  }
}
