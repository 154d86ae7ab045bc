/** The few IntelliJ and Swing things the component touches, as plain values:
    the tool window (visible flag, child components, icon), the two icons the
    unread counter chooses between, and the Swing container operations used to
    swap the loading label for the webview. */
module Host {

  datatype Option<+T> = None | Some(value: T)

  /** The two tool-window icons: "/images/codestream.svg" and
      "/images/codestream-unread.svg". */
  datatype Icon = NormalIcon | UnreadIcon

  /** A child of the tool window's Swing component: a "Loading..." label
      (each registration creates a new one, told apart by its id) or the
      webview's component (there is one webview per project). */
  datatype Component = LoadingLabel(id: nat) | WebViewComponent

  datatype ToolWindow = ToolWindow(visible: bool, components: seq<Component>, icon: Icon)

  /** The unread-count listener maps a count onto one of two icons. */
  function IconFor(unreads: int): (icon: Icon)
    ensures icon == UnreadIcon <==> unreads > 0
    ensures icon == NormalIcon <==> unreads <= 0
  {
    if unreads > 0 then UnreadIcon else NormalIcon
  }

  /** A Swing container never holds the same component twice. */
  predicate Distinct(cs: seq<Component>) {
    forall i, j :: 0 <= i < j < |cs| ==> cs[i] != cs[j]
  }

  /** Container.remove: drops the component from the children. */
  function Detach(cs: seq<Component>, c: Component): seq<Component>
  {
    if cs == [] then []
    else if cs[|cs| - 1] == c then Detach(cs[..|cs| - 1], c)
    else Detach(cs[..|cs| - 1], c) + [cs[|cs| - 1]]
  }

  /** Container.add: a component that already has this parent is first
      detached, then the component becomes the last child. */
  function Attach(cs: seq<Component>, c: Component): seq<Component>
  {
    Detach(cs, c) + [c]
  }

  /** After removal the component is no longer a child, every other child
      stays, and a container without duplicates keeps none. */
  lemma {:induction false} DetachRemovesOnly(cs: seq<Component>, c: Component)
    ensures c !in Detach(cs, c)
    ensures forall x :: x != c ==> (x in Detach(cs, c) <==> x in cs)
    ensures |Detach(cs, c)| <= |cs|
    ensures Distinct(cs) ==> Distinct(Detach(cs, c))
    ensures c !in cs ==> Detach(cs, c) == cs
    decreases |cs|
  {
    if cs != [] {
      var init, last := cs[..|cs| - 1], cs[|cs| - 1];
      DetachRemovesOnly(init, c);
      assert cs == init + [last];
      assert Distinct(cs) ==> last !in init;
    }
  }

  /** After adding, the component is the last child, the children are the
      old ones plus it, there is still no duplicate, and a component new to
      the container makes it one child longer. */
  lemma AttachAppendsOnce(cs: seq<Component>, c: Component)
    ensures |Attach(cs, c)| > 0 && Attach(cs, c)[|Attach(cs, c)| - 1] == c
    ensures forall x :: x in Attach(cs, c) <==> x in cs || x == c
    ensures Distinct(cs) ==> Distinct(Attach(cs, c))
    ensures c !in cs ==> Attach(cs, c) == cs + [c]
  {
    DetachRemovesOnly(cs, c);
  }
}
