/** The open/close state machine of the two modal controllers, `Modal` and its
    specialisation `Header`, as functions on a snapshot of a controller and
    the document. Each `async` transition is cut at its `await`s: a `...Start`
    function is the part that runs synchronously when the transition is
    called, `...AfterMin` the part after the short pre-delay and `...Finish`
    the part after the animation delay. A phase that raises leaves the
    controller in `Aborted`: the rest of the body never runs. */
module Lifecycle {
  import opened Dom

  /** The pre-delay and the animation duration, in milliseconds. */
  const MIN_TIME: int := 11
  const ANIMATION_TIME: int := 500

  /** The value held in `status.isAnimated`: `Modal` stores `true`, while
      `Header.close` stores the controller itself, which is truthy as well. */
  datatype Animated = NotAnimated | AnimatedTrue | AnimatedSelf {
    predicate Truthy() { !NotAnimated? }
  }

  datatype Status = Status(isOpen: bool, isAnimated: Animated)

  /** The single listener slot; `NoOp` is the default empty function. */
  datatype Listener = NoOp | Registered(id: nat)

  /** One call of the listener by the `isOpen` setter, with what the listener
      can observe at that moment: the status, the last trigger and the document. */
  datatype Call = Call(listener: Listener, value: bool, status: Status, lastEventTarget: Target, dom: DomState)

  /** Where a transition is suspended: waiting out the pre-delay or the
      animation, of `ms` milliseconds each, or not running (`Settled`).
      `Aborted` means a phase raised, so the flag `isAnimated` is never cleared. */
  datatype Phase = Settled | OpenMinWait(ms: int) | OpenAnimWait(ms: int) | CloseAnimWait(ms: int) | Aborted

  /** The value a transition's promise resolves to. */
  datatype ReturnValue = Controller | False

  datatype Promise = Pending | Fulfilled(value: ReturnValue) | Rejected(error: JsError)

  /** A controller's mutable fields together with the document. */
  datatype State = State(
    status: Status,
    lastEventTarget: Target,
    listener: Listener,
    log: seq<Call>,
    phase: Phase,
    dom: DomState)

  /** The state a phase leaves behind and what the promise of the transition is by then. */
  datatype Outcome = Outcome(next: State, promise: Promise)

  /** The elements a `Modal` was constructed with, its duration, and the
      module-level shadow (which `open` appends instead of its own). */
  datatype ModalConfig = ModalConfig(container: ElemId, body: ElemId, shadow: ElemId, time: int, pageShadow: ElemId)

  /** The elements a `Header` was constructed with, and the module-level body
      (from which `close` removes the shadow). */
  datatype HeaderConfig = HeaderConfig(
    container: ElemId, body: ElemId, shadow: ElemId,
    dropdown: Option<ElemId>, burger: Option<ElemId>, pageBody: ElemId)

  /** A freshly constructed controller over the document `dom`. */
  function Initial(dom: DomState): State
  {
    State(Status(false, NotAnimated), Null, NoOp, [], Settled, dom)
  }

  predicate OpenRefused(st: Status)
  {
    st.isAnimated.Truthy() || st.isOpen
  }

  predicate CloseRefused(st: Status)
  {
    st.isAnimated.Truthy() || !st.isOpen
  }

  /** How the flags and the phase fit together between phases; `closing` is the
      value the variant stores in `isAnimated` while it closes. */
  predicate Consistent(st: Status, phase: Phase, closing: Animated)
  {
    && (phase.Settled? <==> !st.isAnimated.Truthy())
    && (phase.OpenMinWait? || phase.OpenAnimWait? ==> st == Status(true, AnimatedTrue))
    && (phase.CloseAnimWait? ==> st == Status(false, closing))
  }

  /** The `isOpen` setter: store the flag, then call the listener with it. */
  function SetIsOpen(s: State, value: bool): State
  {
    var st := s.status.(isOpen := value);
    s.(status := st, log := s.log + [Call(s.listener, value, st, s.lastEventTarget, s.dom)])
  }

  /** The phase stops at an exception: the rest of the body is skipped. */
  function Abort(s: State, dom: DomState, e: JsError): Outcome
  {
    Outcome(s.(dom := dom, phase := Aborted), Rejected(e))
  }

  /** The common last phase of every successful transition: clear `isAnimated`. */
  function Settle(s: State, dom: DomState): Outcome
  {
    Outcome(s.(dom := dom, status := s.status.(isAnimated := NotAnimated), phase := Settled), Fulfilled(Controller))
  }

  /** The total height of the navigation items, summed in list order. */
  function Sum(heights: seq<int>): int
  {
    if heights == [] then 0 else Sum(heights[..|heights| - 1]) + heights[|heights| - 1]
  }

  // ----- Modal.open -----

  function ModalOpenStart(c: ModalConfig, s: State, target: Target): Outcome
  {
    if OpenRefused(s.status) then Outcome(s, Fulfilled(Controller))
    else
      var s1 := SetIsOpen(s.(lastEventTarget := target, status := s.status.(isAnimated := AnimatedTrue)), true);
      match ParentNode(s1.dom, c.container)
      case None => Abort(s1, s1.dom, TypeError)
      case Some(p) =>
        var d := AddClass(s1.dom, p, "forward");
        var d := AddClass(d, c.body, "body-fixed");
        var d := AppendChild(d, c.body, c.pageShadow);
        Outcome(s1.(dom := d, phase := OpenMinWait(MIN_TIME)), Pending)
  }

  function ModalOpenAfterMin(c: ModalConfig, s: State): Outcome
    requires s.phase.OpenMinWait?
  {
    match ParentNode(s.dom, c.container)
    case None => Abort(s, s.dom, TypeError)
    case Some(p) =>
      var d := AddClass(s.dom, p, "active");
      var d := AddClass(d, c.shadow, "active");
      Outcome(s.(dom := d, phase := OpenAnimWait(c.time)), Pending)
  }

  /** The last phase of both variants' `open`. */
  function OpenFinish(s: State): Outcome
    requires s.phase.OpenAnimWait?
  {
    Settle(s, s.dom)
  }

  // ----- Modal.close -----

  function ModalCloseStart(c: ModalConfig, s: State, target: Target): Outcome
  {
    if CloseRefused(s.status) then Outcome(s, Fulfilled(Controller))
    else
      var s1 := SetIsOpen(s.(lastEventTarget := target, status := s.status.(isAnimated := AnimatedTrue)), false);
      var d := RemoveClass(s1.dom, c.shadow, "active");
      match ParentNode(d, c.container)
      case None => Abort(s1, d, TypeError)
      case Some(p) =>
        var d := RemoveClass(d, p, "active");
        Outcome(s1.(dom := d, phase := CloseAnimWait(c.time)), Pending)
  }

  function ModalCloseFinish(c: ModalConfig, s: State): Outcome
    requires s.phase.CloseAnimWait?
  {
    match ParentNode(s.dom, c.container)
    case None => Abort(s, s.dom, TypeError)
    case Some(p) =>
      var d := RemoveClass(s.dom, p, "forward");
      match RemoveChild(d, c.body, c.shadow)
      case Err(e) => Abort(s, d, e)
      case Ok(d) => Settle(s, RemoveClass(d, c.body, "body-fixed"))
  }

  /** `toggle()` calls `open()` or `close()` with no argument and does not wait. */
  function ModalToggle(c: ModalConfig, s: State): State
  {
    if !s.status.isOpen then ModalOpenStart(c, s, Undefined).next
    else ModalCloseStart(c, s, Undefined).next
  }

  // ----- Header.open -----

  function HeaderOpenStart(c: HeaderConfig, s: State, navHeights: seq<int>): Outcome
  {
    if OpenRefused(s.status) then Outcome(s, Fulfilled(Controller))
    else
      var s1 := SetIsOpen(s, true);
      var s1 := s1.(status := s1.status.(isAnimated := AnimatedTrue));
      var d := AddClass(s1.dom, c.body, "body-fixed");
      if c.burger.None? then Abort(s1, d, TypeError)
      else
        var d := AddClass(d, c.burger.value, "active");
        if c.dropdown.None? then Abort(s1, d, TypeError)
        else
          var d := AddClass(d, c.dropdown.value, "active");
          var d := AddClass(d, c.container, "forward");
          var d := SetStyle(d, c.dropdown.value, Height(Sum(navHeights)));
          var d := AppendChild(d, c.body, c.shadow);
          Outcome(s1.(dom := d, phase := OpenMinWait(MIN_TIME)), Pending)
  }

  function HeaderOpenAfterMin(c: HeaderConfig, s: State): Outcome
    requires s.phase.OpenMinWait?
  {
    Outcome(s.(dom := AddClass(s.dom, c.shadow, "active"), phase := OpenAnimWait(ANIMATION_TIME)), Pending)
  }

  // ----- Header.close -----

  function HeaderCloseStart(c: HeaderConfig, s: State): Outcome
  {
    if CloseRefused(s.status) then Outcome(s, Fulfilled(False))
    else
      var s1 := SetIsOpen(s, false);
      var s1 := s1.(status := s1.status.(isAnimated := AnimatedSelf));
      if c.burger.None? then Abort(s1, s1.dom, TypeError)
      else
        var d := RemoveClass(s1.dom, c.burger.value, "active");
        if c.dropdown.None? then Abort(s1, d, TypeError)
        else
          var d := RemoveClass(d, c.dropdown.value, "active");
          var d := SetStyle(d, c.dropdown.value, Blank);
          var d := RemoveClass(d, c.shadow, "active");
          Outcome(s1.(dom := d, phase := CloseAnimWait(ANIMATION_TIME)), Pending)
  }

  function HeaderCloseFinish(c: HeaderConfig, s: State): Outcome
    requires s.phase.CloseAnimWait?
  {
    match RemoveChild(s.dom, c.pageBody, c.shadow)
    case Err(e) => Abort(s, s.dom, e)
    case Ok(d) =>
      var d := RemoveClass(d, c.container, "forward");
      Settle(s, RemoveClass(d, c.body, "body-fixed"))
  }

  function HeaderToggle(c: HeaderConfig, s: State, navHeights: seq<int>): State
  {
    if !s.status.isOpen then HeaderOpenStart(c, s, navHeights).next
    else HeaderCloseStart(c, s).next
  }

  // ----- whole transitions, every phase run as soon as it is due -----

  function ModalOpenRun(c: ModalConfig, s: State, target: Target): Outcome
  {
    var o := ModalOpenStart(c, s, target);
    if !o.promise.Pending? then o
    else
      var o := ModalOpenAfterMin(c, o.next);
      if !o.promise.Pending? then o else OpenFinish(o.next)
  }

  function ModalCloseRun(c: ModalConfig, s: State, target: Target): Outcome
  {
    var o := ModalCloseStart(c, s, target);
    if !o.promise.Pending? then o else ModalCloseFinish(c, o.next)
  }

  function ModalToggleRun(c: ModalConfig, s: State): Outcome
  {
    if !s.status.isOpen then ModalOpenRun(c, s, Undefined) else ModalCloseRun(c, s, Undefined)
  }

  function HeaderOpenRun(c: HeaderConfig, s: State, navHeights: seq<int>): Outcome
  {
    var o := HeaderOpenStart(c, s, navHeights);
    if !o.promise.Pending? then o
    else OpenFinish(HeaderOpenAfterMin(c, o.next).next)
  }

  function HeaderCloseRun(c: HeaderConfig, s: State): Outcome
  {
    var o := HeaderCloseStart(c, s);
    if !o.promise.Pending? then o else HeaderCloseFinish(c, o.next)
  }

  function HeaderToggleRun(c: HeaderConfig, s: State, navHeights: seq<int>): Outcome
  {
    if !s.status.isOpen then HeaderOpenRun(c, s, navHeights) else HeaderCloseRun(c, s)
  }

  // ----- the click handlers installed on the trigger elements -----

  /** The three trigger groups of the factory: `toOpen`, `toClose`, `toToggle`. */
  datatype TriggerKind = ToOpen | ToClose | ToToggle

  /** A click on a trigger element calls the matching method with the element
      as its argument; `toggle` ignores it. */
  function ModalClick(c: ModalConfig, s: State, kind: TriggerKind, element: ElemId): State
  {
    match kind
    case ToOpen => ModalOpenStart(c, s, Node(element)).next
    case ToClose => ModalCloseStart(c, s, Node(element)).next
    case ToToggle => ModalToggle(c, s)
  }

  /** `Header.open` and `Header.close` ignore the element they are given. */
  function HeaderClick(c: HeaderConfig, s: State, kind: TriggerKind, navHeights: seq<int>): State
  {
    match kind
    case ToOpen => HeaderOpenStart(c, s, navHeights).next
    case ToClose => HeaderCloseStart(c, s).next
    case ToToggle => HeaderToggle(c, s, navHeights)
  }

  // ----- the page-wide click handler installed for each controller -----

  /** A click closes the controller when it lands exactly on the container's
      parent or on the shadow. */
  predicate IsBackdropClick(target: ElemId, containerParent: Option<ElemId>, shadow: ElemId)
  {
    (containerParent.Some? && target == containerParent.value) || target == shadow
  }

  function ModalBackdrop(c: ModalConfig, s: State, target: ElemId): State
  {
    if IsBackdropClick(target, ParentNode(s.dom, c.container), c.shadow)
    then ModalCloseStart(c, s, Window).next else s
  }

  function HeaderBackdrop(c: HeaderConfig, s: State, target: ElemId): State
  {
    if IsBackdropClick(target, ParentNode(s.dom, c.container), c.shadow)
    then HeaderCloseStart(c, s).next else s
  }
}
