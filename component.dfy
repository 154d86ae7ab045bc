/** The component itself: one object per project whose fields the host
    events and the public members update in place. Every method is proved to
    take the object from a state s to the state the matching function of
    CodeStreamModel gives for s, so everything proved about those functions
    holds of the object. */
module Plugin {
  import opened Host
  import opened CodeStreamModel
  import CodeStreamProperties

  class CodeStreamComponent {
    var isFocused: bool
    var isVisible: bool
    var observers: seq<nat>            // _isVisibleObservers
    var firstRun: bool                 // the application setting
    var project: Project
    var toolWindow: Option<ToolWindow>
    var log: seq<Effect>
    var nextLabel: nat
    var listeners: Listeners
    var pending: Pending

    /** The object's fields as a value of the state machine. */
    function Snapshot(): State
      reads this
    {
      State(isFocused, isVisible, observers, firstRun, project, toolWindow, log, nextLabel, listeners, pending)
    }

    /** The tool window holds each component at most once. */
    predicate Valid()
      reads this
    {
      CodeStreamModel.Valid(Snapshot())
    }

    /** The field initialisers and the init block. */
    constructor (firstRun: bool, project: Project, toolWindow: Option<ToolWindow>)
      requires toolWindow.Some? ==>
                 && Distinct(toolWindow.value.components)
                 && forall c :: c in toolWindow.value.components ==> !c.LoadingLabel?
      ensures Valid()
      ensures Snapshot() == Init(firstRun, project, toolWindow)
    {
      isFocused := true;
      isVisible := false;
      observers := [];
      this.firstRun := firstRun;
      this.project := project;
      this.toolWindow := toolWindow;
      log := [];
      nextLabel := 0;
      listeners := Listeners(editor := !project.disposed, messageBus := !project.disposed,
                             windowFocus := false, unreads := false);
      pending := Pending(firstRunHook := firstRun && project.webView, agentStart := [],
                         uiQueue := [InitListeners], shows := []);
    }

    // -------------------------------------------------------------------
    // The two observable fields

    method UpdateWebViewFocus()
      requires Valid()
      modifies this
      ensures Valid()
      ensures Snapshot() == CodeStreamModel.UpdateWebViewFocus(old(Snapshot()))
    {
      if project.webView {
        log := log + [PostFocus(isFocused && isVisible)];
      }
    }

    /** The isFocused setter. */
    method SetFocused(v: bool)
      requires Valid()
      modifies this
      ensures Valid()
      ensures Snapshot() == AssignFocused(old(Snapshot()), v)
    {
      isFocused := v;
      UpdateWebViewFocus();
    }

    /** The isVisible setter: the forEach over the observers. */
    method SetVisible(v: bool)
      requires Valid()
      modifies this
      ensures Valid()
      ensures Snapshot() == AssignVisible(old(Snapshot()), v)
    {
      isVisible := v;
      var i := 0;
      while i < |observers|
        invariant 0 <= i <= |observers|
        invariant log == old(log) + ObserverCalls(observers[..i], v)
        invariant Snapshot() == old(Snapshot()).(isVisible := v, log := log)
      {
        assert observers[..i + 1][..i] == observers[..i];
        log := log + [CallObserver(observers[i], v)];
        i := i + 1;
      }
      assert observers[..i] == observers;
    }

    method OnIsVisibleChanged(observer: nat)
      requires Valid()
      modifies this
      ensures Valid()
      ensures Snapshot() == CodeStreamModel.OnIsVisibleChanged(old(Snapshot()), observer)
    {
      observers := observers + [observer];
    }

    // -------------------------------------------------------------------
    // Host events

    method WindowLostFocus()
      requires Valid()
      modifies this
      ensures Valid()
      ensures Snapshot() == CodeStreamModel.WindowLostFocus(old(Snapshot()))
    {
      if listeners.windowFocus {
        SetFocused(false);
      }
    }

    method WindowGainedFocus()
      requires Valid()
      modifies this
      ensures Valid()
      ensures Snapshot() == CodeStreamModel.WindowGainedFocus(old(Snapshot()))
    {
      if listeners.windowFocus {
        SetFocused(true);
      }
    }

    method StateChanged()
      requires Valid()
      modifies this
      ensures Valid()
      ensures Snapshot() == CodeStreamModel.StateChanged(old(Snapshot()))
    {
      if listeners.messageBus {
        SetVisible(toolWindow.Some? && toolWindow.value.visible);
        UpdateWebViewFocus();
      }
    }

    /** toolWindowRegistered; threw reports the null dereference on the
        component's own id when the host has no tool window. */
    method ToolWindowRegistered(id: string) returns (threw: bool)
      requires Valid()
      modifies this
      ensures Valid()
      ensures threw == RegistrationThrows(old(Snapshot()), id)
      ensures Snapshot() == CodeStreamModel.ToolWindowRegistered(old(Snapshot()), id)
    {
      if !listeners.messageBus || id != CodeStreamToolWindowId {
        return false;
      }
      if toolWindow.None? {
        return true;
      }
      ghost var before := Snapshot();
      var labelId := nextLabel;
      nextLabel := nextLabel + 1;
      var tw := toolWindow.value;
      toolWindow := Some(tw.(components := Attach(tw.components, LoadingLabel(labelId))));
      if project.agent {
        pending := pending.(agentStart := pending.agentStart + [labelId]);
      }
      CodeStreamProperties.RegistrationAddsLoadingLabel(before);
      return false;
    }

    /** The body of the callback handed to the agent's onDidStart for the
        label labelId. */
    method SwapInWebView(labelId: nat)
      requires Valid()
      modifies this
      ensures Valid()
      ensures Snapshot() == CodeStreamModel.SwapInWebView(old(Snapshot()), labelId)
    {
      if !project.webView {
        return;
      }
      CodeStreamProperties.SwapInWebViewKeepsValid(Snapshot(), labelId);
      log := log + [LoadWebView];
      if toolWindow.Some? {
        var tw := toolWindow.value;
        var rest := Detach(tw.components, LoadingLabel(labelId));
        toolWindow := Some(tw.(components := Attach(rest, WebViewComponent)));
      }
    }

    /** The agent has started: the callbacks registered so far run in order
        and are dropped. */
    method AgentDidStart()
      requires Valid()
      modifies this
      ensures Valid()
      ensures Snapshot() == CodeStreamModel.AgentDidStart(old(Snapshot()))
    {
      var callbacks := pending.agentStart;
      pending := pending.(agentStart := []);
      ghost var start := Snapshot();
      var i := 0;
      while i < |callbacks|
        invariant 0 <= i <= |callbacks|
        invariant Valid()
        invariant Snapshot() == RunAgentCallbacks(start, callbacks[..i])
      {
        assert callbacks[..i + 1][..i] == callbacks[..i];
        SwapInWebView(callbacks[i]);
        i := i + 1;
      }
      assert callbacks[..i] == callbacks;
    }

    method WebViewDidInitialize()
      requires Valid()
      modifies this
      ensures Valid()
      ensures Snapshot() == CodeStreamModel.WebViewDidInitialize(old(Snapshot()))
    {
      if pending.firstRunHook {
        pending := pending.(firstRunHook := false, uiQueue := pending.uiQueue + [FirstRunShow]);
      }
    }

    method UnreadsChanged(unreads: int)
      requires Valid()
      modifies this
      ensures Valid()
      ensures Snapshot() == CodeStreamModel.UnreadsChanged(old(Snapshot()), unreads)
    {
      if listeners.unreads {
        pending := pending.(uiQueue := pending.uiQueue + [ApplyUnreadIcon(unreads)]);
      }
    }

    /** initWindowFocusListener and initUnreadsListener. */
    method InitDeferredListeners()
      requires Valid()
      modifies this
      ensures Valid()
      ensures Snapshot() == CodeStreamModel.InitDeferredListeners(old(Snapshot()))
    {
      if !project.disposed && project.frameWindow {
        listeners := listeners.(windowFocus := true);
      }
      if !project.disposed && project.session {
        listeners := listeners.(unreads := true);
      }
    }

    method ApplyIcon(unreads: int)
      requires Valid()
      modifies this
      ensures Valid()
      ensures Snapshot() == CodeStreamModel.ApplyIcon(old(Snapshot()), unreads)
    {
      if toolWindow.Some? {
        toolWindow := Some(toolWindow.value.(icon := IconFor(unreads)));
      }
    }

    /** The host runs the oldest invokeLater block. */
    method RunUiTurn()
      requires Valid()
      modifies this
      ensures Valid()
      ensures Snapshot() == CodeStreamModel.RunUiTurn(old(Snapshot()))
    {
      if pending.uiQueue == [] {
        return;
      }
      var task := pending.uiQueue[0];
      pending := pending.(uiQueue := pending.uiQueue[1..]);
      match task {
        case InitListeners => InitDeferredListeners();
        case FirstRunShow =>
          Show(None);
          firstRun := false;
        case ApplyUnreadIcon(n) => ApplyIcon(n);
      }
    }

    /** The tool window completes the oldest show: the webview is focused,
        then afterShow runs. */
    method ShowCompleted()
      requires Valid()
      modifies this
      ensures Valid()
      ensures Snapshot() == CodeStreamModel.ShowCompleted(old(Snapshot()))
    {
      if pending.shows == [] {
        return;
      }
      var afterShow := pending.shows[0];
      pending := pending.(shows := pending.shows[1..]);
      var effects: seq<Effect> := [];
      if project.webView {
        effects := effects + [FocusWebView];
      }
      if afterShow.Some? {
        effects := effects + [RunAfterShow(afterShow.value)];
      }
      log := log + effects;
    }

    method HostSetsVisibility(visible: bool)
      requires Valid()
      modifies this
      ensures Valid()
      ensures Snapshot() == CodeStreamModel.HostSetsVisibility(old(Snapshot()), visible)
    {
      if toolWindow.Some? {
        toolWindow := Some(toolWindow.value.(visible := visible));
      }
    }

    method HostCreatesToolWindow()
      requires Valid()
      modifies this
      ensures Valid()
      ensures Snapshot() == CodeStreamModel.HostCreatesToolWindow(old(Snapshot()))
    {
      if toolWindow.None? {
        toolWindow := Some(ToolWindow(false, [], NormalIcon));
      }
    }

    method HostRemovesToolWindow()
      requires Valid()
      modifies this
      ensures Valid()
      ensures Snapshot() == CodeStreamModel.HostRemovesToolWindow(old(Snapshot()))
    {
      toolWindow := None;
    }

    method ProjectClosed()
      requires Valid()
      modifies this
      ensures Valid()
      ensures Snapshot() == CodeStreamModel.ProjectClosed(old(Snapshot()))
    {
      project := project.(disposed := true);
    }

    // -------------------------------------------------------------------
    // Commands

    method Show(afterShow: Option<nat>)
      requires Valid()
      modifies this
      ensures Valid()
      ensures Snapshot() == CodeStreamModel.Show(old(Snapshot()), afterShow)
    {
      if toolWindow.Some? {
        log := log + [RequestShow];
        pending := pending.(shows := pending.shows + [afterShow]);
      }
    }

    method Hide()
      requires Valid()
      modifies this
      ensures Valid()
      ensures Snapshot() == CodeStreamModel.Hide(old(Snapshot()))
    {
      if toolWindow.Some? {
        log := log + [RequestHide];
      }
    }

    method ToggleVisible()
      requires Valid()
      modifies this
      ensures Valid()
      ensures Snapshot() == CodeStreamModel.ToggleVisible(old(Snapshot()))
    {
      if isVisible {
        Hide();
      } else {
        Show(None);
      }
    }

    /** dispose() releases nothing. */
    method Dispose()
      requires Valid()
      ensures Valid()
      ensures Snapshot() == CodeStreamModel.Dispose(old(Snapshot()))
    {
    }
  }
}
