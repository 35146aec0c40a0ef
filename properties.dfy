/** What the lifecycle promises: guards that make every trigger idempotent,
    one listener call per transition that goes ahead, the effects of each
    phase and of whole transitions, `toggle` flipping the state, and the
    document coming back to where it was after an open and a close. */
module Properties {
  import opened Dom
  import opened Lifecycle

  // ----- guards -----

  /** `Modal.open` changes nothing and resolves to the controller exactly when
      a transition is in flight or the modal is open; otherwise the listener
      is called once. */
  lemma ModalOpenGuard(c: ModalConfig, s: State, t: Target)
    ensures OpenRefused(s.status) ==> ModalOpenStart(c, s, t) == Outcome(s, Fulfilled(Controller))
    ensures !OpenRefused(s.status) ==> |ModalOpenStart(c, s, t).next.log| == |s.log| + 1
    ensures ModalOpenStart(c, s, t).next == s <==> OpenRefused(s.status)
  {
  }

  lemma ModalCloseGuard(c: ModalConfig, s: State, t: Target)
    ensures CloseRefused(s.status) ==> ModalCloseStart(c, s, t) == Outcome(s, Fulfilled(Controller))
    ensures !CloseRefused(s.status) ==> |ModalCloseStart(c, s, t).next.log| == |s.log| + 1
    ensures ModalCloseStart(c, s, t).next == s <==> CloseRefused(s.status)
  {
  }

  lemma HeaderOpenGuard(c: HeaderConfig, s: State, navHeights: seq<int>)
    ensures OpenRefused(s.status) ==> HeaderOpenStart(c, s, navHeights) == Outcome(s, Fulfilled(Controller))
    ensures !OpenRefused(s.status) ==> |HeaderOpenStart(c, s, navHeights).next.log| == |s.log| + 1
    ensures HeaderOpenStart(c, s, navHeights).next == s <==> OpenRefused(s.status)
  {
  }

  /** `Header.close` refuses like `Modal.close` but resolves to `false`. */
  lemma HeaderCloseGuard(c: HeaderConfig, s: State)
    ensures CloseRefused(s.status) ==> HeaderCloseStart(c, s) == Outcome(s, Fulfilled(False))
    ensures !CloseRefused(s.status) ==> |HeaderCloseStart(c, s).next.log| == |s.log| + 1
    ensures HeaderCloseStart(c, s).next == s <==> CloseRefused(s.status)
  {
  }

  /** Calling `open` twice without waiting runs one transition: the second call
      finds `isAnimated` set and changes nothing. */
  lemma ModalOpenTwice(c: ModalConfig, s: State, t1: Target, t2: Target)
    ensures var o := ModalOpenStart(c, s, t1); ModalOpenStart(c, o.next, t2) == Outcome(o.next, Fulfilled(Controller))
  {
  }

  /** A controller whose transition raised refuses every later transition. */
  lemma AbortedIsFinal(mc: ModalConfig, hc: HeaderConfig, s: State, t: Target, navHeights: seq<int>, closing: Animated)
    requires s.phase == Aborted && Consistent(s.status, s.phase, closing)
    ensures ModalOpenStart(mc, s, t).next == s && ModalCloseStart(mc, s, t).next == s
    ensures HeaderOpenStart(hc, s, navHeights).next == s && HeaderCloseStart(hc, s).next == s
    ensures ModalToggle(mc, s) == s && HeaderToggle(hc, s, navHeights) == s
  {
  }

  // ----- Modal.open -----

  /** By its first suspension a successful `Modal.open` has recorded the trigger,
      set both flags, called the listener once with `true` while the document
      was still untouched, marked the container's parent `forward` and the body
      `body-fixed`, and attached the module-level shadow to the body; no element
      has gained `active`, and no other class list, parent or style changed. */
  lemma ModalOpenStartEffects(c: ModalConfig, s: State, t: Target, p: ElemId)
    requires !OpenRefused(s.status) && ParentNode(s.dom, c.container) == Some(p)
    ensures var o := ModalOpenStart(c, s, t);
      && o.promise == Pending && o.next.phase == OpenMinWait(MIN_TIME)
      && o.next.lastEventTarget == t
      && o.next.status == Status(true, AnimatedTrue)
      && o.next.log == s.log + [Call(s.listener, true, Status(true, AnimatedTrue), t, s.dom)]
      && HasClass(o.next.dom, p, "forward") && HasClass(o.next.dom, c.body, "body-fixed")
      && c.pageShadow in Children(o.next.dom, c.body)
      && (forall x :: HasClass(o.next.dom, x, "active") <==> HasClass(s.dom, x, "active"))
      && (forall x :: ClassesOf(s.dom, x) <= ClassesOf(o.next.dom, x) <= ClassesOf(s.dom, x) + {"forward", "body-fixed"})
      && (forall x :: x != p && x != c.body ==> ClassesOf(o.next.dom, x) == ClassesOf(s.dom, x))
      && (forall x :: x != c.pageShadow ==> ParentNode(o.next.dom, x) == ParentNode(s.dom, x))
      && o.next.dom.styles == s.dom.styles
  {
  }

  /** A completed `Modal.open` from the closed, settled state: open, no longer
      animating, listener called exactly once, the container's parent carries
      `forward` and `active`, the shadow `active`, the body `body-fixed`, and
      the shadow is attached to the body. */
  lemma ModalOpenCompletes(c: ModalConfig, s: State, t: Target, p: ElemId)
    requires s.status == Status(false, NotAnimated) && s.phase == Settled
    requires ParentNode(s.dom, c.container) == Some(p) && c.container != c.pageShadow
    ensures var o := ModalOpenRun(c, s, t);
      && o.promise == Fulfilled(Controller)
      && o.next.status == Status(true, NotAnimated) && o.next.phase == Settled
      && o.next.lastEventTarget == t
      && o.next.log == s.log + [Call(s.listener, true, Status(true, AnimatedTrue), t, s.dom)]
      && HasClass(o.next.dom, p, "forward") && HasClass(o.next.dom, p, "active")
      && HasClass(o.next.dom, c.shadow, "active") && HasClass(o.next.dom, c.body, "body-fixed")
      && ParentNode(o.next.dom, c.pageShadow) == Some(c.body)
  {
  }

  // ----- Modal.close -----

  /** By its suspension a successful `Modal.close` has called the listener once
      with `false` and taken `active` off the shadow and the container's parent,
      which keep every other class (so the parent is still `forward` until the
      animation is over), and changed no other class list, no parent and no style. */
  lemma ModalCloseStartEffects(c: ModalConfig, s: State, t: Target, p: ElemId)
    requires !CloseRefused(s.status) && ParentNode(s.dom, c.container) == Some(p)
    ensures var o := ModalCloseStart(c, s, t);
      && o.promise == Pending && o.next.phase == CloseAnimWait(c.time)
      && o.next.lastEventTarget == t
      && o.next.status == Status(false, AnimatedTrue)
      && o.next.log == s.log + [Call(s.listener, false, Status(false, AnimatedTrue), t, s.dom)]
      && ClassesOf(o.next.dom, p) == ClassesOf(s.dom, p) - {"active"}
      && ClassesOf(o.next.dom, c.shadow) == ClassesOf(s.dom, c.shadow) - {"active"}
      && (HasClass(o.next.dom, p, "forward") <==> HasClass(s.dom, p, "forward"))
      && (forall x :: x != p && x != c.shadow ==> ClassesOf(o.next.dom, x) == ClassesOf(s.dom, x))
      && o.next.dom.parentOf == s.dom.parentOf && o.next.dom.styles == s.dom.styles
  {
  }

  /** A completed `Modal.close` from the open, settled state with the shadow
      attached to the body: closed, no longer animating, listener called once
      with `false`, no `forward` or `active` on the container's parent, no
      `active` on the shadow, no `body-fixed` on the body, shadow detached. */
  lemma ModalCloseCompletes(c: ModalConfig, s: State, t: Target, p: ElemId)
    requires s.status == Status(true, NotAnimated) && s.phase == Settled
    requires ParentNode(s.dom, c.container) == Some(p) && ParentNode(s.dom, c.shadow) == Some(c.body)
    ensures var o := ModalCloseRun(c, s, t);
      && o.promise == Fulfilled(Controller)
      && o.next.status == Status(false, NotAnimated) && o.next.phase == Settled
      && o.next.log == s.log + [Call(s.listener, false, Status(false, AnimatedTrue), t, s.dom)]
      && !HasClass(o.next.dom, p, "forward") && !HasClass(o.next.dom, p, "active")
      && !HasClass(o.next.dom, c.shadow, "active") && !HasClass(o.next.dom, c.body, "body-fixed")
      && ParentNode(o.next.dom, c.shadow) == None
  {
  }

  /** When the modal's own shadow is not a child of its body at the end of the
      animation (another controller detached it, or the shadow the modal was
      built with is not the one `open` appended), `removeChild` raises: the
      promise rejects and `isAnimated` stays set, so the modal never moves again. */
  lemma ModalCloseRejects(c: ModalConfig, s: State, t: Target, p: ElemId)
    requires s.status == Status(true, NotAnimated) && s.phase == Settled
    requires ParentNode(s.dom, c.container) == Some(p) && ParentNode(s.dom, c.shadow) != Some(c.body)
    ensures var o := ModalCloseRun(c, s, t);
      && o.promise == Rejected(NotFoundError)
      && o.next.phase == Aborted && o.next.status == Status(false, AnimatedTrue)
  {
  }

  /** With a modal built over a shadow other than the module-level one, a
      complete open followed by a close rejects: `open` attached the
      module-level shadow but `close` removes the modal's own. */
  lemma ModalForeignShadowRejects(c: ModalConfig, s: State, t1: Target, t2: Target, p: ElemId)
    requires s.status == Status(false, NotAnimated) && s.phase == Settled
    requires ParentNode(s.dom, c.container) == Some(p) && c.container != c.pageShadow
    requires c.shadow != c.pageShadow && ParentNode(s.dom, c.shadow) == None
    ensures ModalCloseRun(c, ModalOpenRun(c, s, t1).next, t2).promise == Rejected(NotFoundError)
  {
  }

  // ----- toggle -----

  /** While a transition is in flight `toggle` changes nothing. */
  lemma ModalToggleInFlight(c: ModalConfig, s: State)
    requires s.status.isAnimated.Truthy()
    ensures ModalToggle(c, s) == s
  {
  }

  /** From a settled state the transition `toggle` starts flips `isOpen` once it completes. */
  lemma ModalToggleFlips(c: ModalConfig, s: State, p: ElemId)
    requires s.status.isAnimated == NotAnimated && s.phase == Settled
    requires ParentNode(s.dom, c.container) == Some(p) && c.container != c.pageShadow
    requires s.status.isOpen ==> ParentNode(s.dom, c.shadow) == Some(c.body)
    ensures ModalToggleRun(c, s).next.status == Status(!s.status.isOpen, NotAnimated)
    ensures ModalToggle(c, s) == if s.status.isOpen then ModalCloseStart(c, s, Undefined).next
                                 else ModalOpenStart(c, s, Undefined).next
  {
  }

  // ----- round trip -----

  /** Opening and then closing a modal (built over the module-level shadow) from
      the closed state leaves every class list, parent and style as it was and
      the status closed, with the listener called twice: `true`, then `false`. */
  lemma ModalOpenCloseRoundTrip(c: ModalConfig, s: State, t1: Target, t2: Target, p: ElemId)
    requires s.status == Status(false, NotAnimated) && s.phase == Settled
    requires ParentNode(s.dom, c.container) == Some(p)
    requires c.shadow == c.pageShadow && c.container != c.shadow
    requires ParentNode(s.dom, c.shadow) == None
    requires !HasClass(s.dom, p, "forward") && !HasClass(s.dom, p, "active")
    requires !HasClass(s.dom, c.shadow, "active") && !HasClass(s.dom, c.body, "body-fixed")
    ensures var o := ModalCloseRun(c, ModalOpenRun(c, s, t1).next, t2);
      && o.promise == Fulfilled(Controller)
      && o.next.status == s.status && o.next.phase == Settled
      && SameClasses(o.next.dom, s.dom)
      && o.next.dom.parentOf == s.dom.parentOf && o.next.dom.styles == s.dom.styles
      && |o.next.log| == |s.log| + 2 && o.next.log[..|s.log|] == s.log
      && o.next.log[|s.log|].value && !o.next.log[|s.log| + 1].value
  {
    var oa := ModalOpenStart(c, s, t1);
    ModalOpenStartEffects(c, s, t1, p);
    assert oa.next.dom == OpenEdits(s.dom, p, c.body, c.shadow);
    var ob := ModalOpenAfterMin(c, oa.next);
    var o1 := OpenFinish(ob.next);
    assert o1 == ModalOpenRun(c, s, t1);
    var oc := ModalCloseStart(c, o1.next, t2);
    assert oc.next.dom == ActiveEdits(oa.next.dom, p, c.shadow);
    ModalDomRoundTrip(s.dom, p, c.body, c.shadow);
    var o2 := ModalCloseFinish(c, oc.next);
    assert o2.next.dom == CloseEdits(oc.next.dom, p, c.body, c.shadow);
  }

  /** The document edits of a complete `Modal.open` followed by a complete
      `Modal.close`, in their order, undo each other. */
  lemma ModalDomRoundTrip(d0: DomState, p: ElemId, body: ElemId, shadow: ElemId)
    requires ParentNode(d0, shadow) == None
    requires !HasClass(d0, p, "forward") && !HasClass(d0, p, "active")
    requires !HasClass(d0, shadow, "active") && !HasClass(d0, body, "body-fixed")
    ensures var d3 := ActiveEdits(OpenEdits(d0, p, body, shadow), p, shadow);
      && RemoveChild(RemoveClass(d3, p, "forward"), body, shadow).Ok?
      && var d5 := CloseEdits(d3, p, body, shadow);
      && SameClasses(d5, d0) && d5.parentOf == d0.parentOf && d5.styles == d0.styles
  {
    var d1 := OpenEdits(d0, p, body, shadow);
    var d3 := ActiveEdits(d1, p, shadow);
    OpenLeavesActive(d0, p, body, shadow);
    RoundTripParents(d0, p, body, shadow);
    var d5 := CloseEdits(d3, p, body, shadow);
    forall x
      ensures ClassesOf(d5, x) == ClassesOf(d0, x)
    {
      ActiveCancelsAt(d1, p, shadow, x);
      MarksCancelAt(d0, d3, p, body, shadow, x);
    }
  }

  /** The document edits of `open` before its first suspension. */
  function OpenEdits(d0: DomState, p: ElemId, body: ElemId, shadow: ElemId): DomState
  {
    AppendChild(AddClass(AddClass(d0, p, "forward"), body, "body-fixed"), body, shadow)
  }

  /** `active` put on the parent and the shadow by `open`, and taken off again by `close`. */
  function ActiveEdits(d1: DomState, p: ElemId, shadow: ElemId): DomState
  {
    RemoveClass(RemoveClass(AddClass(AddClass(d1, p, "active"), shadow, "active"), shadow, "active"), p, "active")
  }

  /** The document edits of `close` after its suspension, when the shadow is a child of the body. */
  function CloseEdits(d3: DomState, p: ElemId, body: ElemId, shadow: ElemId): DomState
  {
    var d4 := RemoveClass(d3, p, "forward");
    RemoveClass(d4.(parentOf := d4.parentOf - {shadow}), body, "body-fixed")
  }

  /** `open`'s first edits put no `active` on the parent or the shadow. */
  lemma OpenLeavesActive(d0: DomState, p: ElemId, body: ElemId, shadow: ElemId)
    requires !HasClass(d0, p, "active") && !HasClass(d0, shadow, "active")
    ensures !HasClass(OpenEdits(d0, p, body, shadow), p, "active")
    ensures !HasClass(OpenEdits(d0, p, body, shadow), shadow, "active")
  {
    StringsDiffer();
  }

  /** The shadow is attached to the body and detached again; nothing else moves and no style changes. */
  lemma RoundTripParents(d0: DomState, p: ElemId, body: ElemId, shadow: ElemId)
    requires ParentNode(d0, shadow) == None
    ensures var d3 := ActiveEdits(OpenEdits(d0, p, body, shadow), p, shadow);
      && ParentNode(RemoveClass(d3, p, "forward"), shadow) == Some(body)
      && CloseEdits(d3, p, body, shadow).parentOf == d0.parentOf
      && CloseEdits(d3, p, body, shadow).styles == d0.styles
  {
    var d3 := ActiveEdits(OpenEdits(d0, p, body, shadow), p, shadow);
    assert d3.parentOf == d0.parentOf[shadow := body];
    assert d3.parentOf - {shadow} == d0.parentOf;
  }

  lemma StringsDiffer()
    ensures "active" != "forward" && "forward" != "body-fixed" && "body-fixed" != "active"
  {
    assert |"active"| == 6 && |"forward"| == 7 && |"body-fixed"| == 10;
  }

  /** An element that carried `active` on neither the parent nor the shadow gets its class list back. */
  lemma ActiveCancelsAt(d1: DomState, p: ElemId, shadow: ElemId, x: ElemId)
    requires !HasClass(d1, p, "active") && !HasClass(d1, shadow, "active")
    ensures ClassesOf(ActiveEdits(d1, p, shadow), x) == ClassesOf(d1, x)
  {
  }

  /** `forward` and `body-fixed`, absent before `open`, are gone again after `close`. */
  lemma MarksCancelAt(d0: DomState, d3: DomState, p: ElemId, body: ElemId, shadow: ElemId, x: ElemId)
    requires !HasClass(d0, p, "forward") && !HasClass(d0, body, "body-fixed")
    requires ClassesOf(d3, x) == ClassesOf(OpenEdits(d0, p, body, shadow), x)
    ensures ClassesOf(CloseEdits(d3, p, body, shadow), x) == ClassesOf(d0, x)
  {
    StringsDiffer();
  }

  // ----- Header -----

  /** By its first suspension a successful `Header.open` (with the burger and the
      dropdown present) has called the listener once with `true` while
      `isAnimated` was still clear, then set `isAnimated`; it marks the burger and
      the dropdown `active`, the container `forward`, the body `body-fixed`, sets
      the dropdown's height to the sum of the item heights and attaches its
      shadow to the body. It leaves `lastEventTarget` alone, and no other class
      list, parent or style changes. */
  lemma HeaderOpenStartEffects(c: HeaderConfig, s: State, navHeights: seq<int>)
    requires !OpenRefused(s.status) && c.burger.Some? && c.dropdown.Some?
    ensures var o := HeaderOpenStart(c, s, navHeights);
      && o.promise == Pending && o.next.phase == OpenMinWait(MIN_TIME)
      && o.next.lastEventTarget == s.lastEventTarget
      && o.next.status == Status(true, AnimatedTrue)
      && o.next.log == s.log + [Call(s.listener, true, Status(true, NotAnimated), s.lastEventTarget, s.dom)]
      && HasClass(o.next.dom, c.body, "body-fixed") && HasClass(o.next.dom, c.burger.value, "active")
      && HasClass(o.next.dom, c.dropdown.value, "active") && HasClass(o.next.dom, c.container, "forward")
      && StyleOf(o.next.dom, c.dropdown.value) == Some(Height(Sum(navHeights)))
      && ParentNode(o.next.dom, c.shadow) == Some(c.body)
      && (forall x :: ClassesOf(s.dom, x) <= ClassesOf(o.next.dom, x) <= ClassesOf(s.dom, x) + {"forward", "active", "body-fixed"})
      && (forall x :: x != c.body && x != c.burger.value && x != c.dropdown.value && x != c.container ==>
            ClassesOf(o.next.dom, x) == ClassesOf(s.dom, x))
      && (forall x :: x != c.shadow ==> ParentNode(o.next.dom, x) == ParentNode(s.dom, x))
      && (forall x :: x != c.dropdown.value ==> StyleOf(o.next.dom, x) == StyleOf(s.dom, x))
  {
    var d6 := HeaderOpenStart(c, s, navHeights).next.dom;
    forall x
      ensures ClassesOf(s.dom, x) <= ClassesOf(d6, x) <= ClassesOf(s.dom, x) + {"forward", "active", "body-fixed"}
      ensures x != c.body && x != c.burger.value && x != c.dropdown.value && x != c.container ==>
                ClassesOf(d6, x) == ClassesOf(s.dom, x)
    {
      HeaderOpenMarksAt(s.dom, c.body, c.burger.value, c.dropdown.value, c.container, x);
    }
  }

  /** The four flags `Header.open` sets only add classes, and only those four. */
  lemma HeaderOpenMarksAt(d: DomState, body: ElemId, burger: ElemId, dropdown: ElemId, container: ElemId, x: ElemId)
    ensures var d4 := AddClass(AddClass(AddClass(AddClass(d, body, "body-fixed"), burger, "active"), dropdown, "active"), container, "forward");
      && ClassesOf(d, x) <= ClassesOf(d4, x) <= ClassesOf(d, x) + {"forward", "active", "body-fixed"}
      && (x != body && x != burger && x != dropdown && x != container ==> ClassesOf(d4, x) == ClassesOf(d, x))
  {
  }

  /** Without a burger or a dropdown, `Header.open` raises right after setting
      the flags, and the header stays marked as animating. */
  lemma HeaderOpenMissingElement(c: HeaderConfig, s: State, navHeights: seq<int>)
    requires !OpenRefused(s.status) && (c.burger.None? || c.dropdown.None?)
    ensures var o := HeaderOpenStart(c, s, navHeights);
      && o.promise == Rejected(TypeError) && o.next.phase == Aborted
      && o.next.status == Status(true, AnimatedTrue)
  {
  }

  /** A completed `Header.open` from the closed, settled state: open and
      settled, the shadow attached and `active`, and the dropdown as high as the
      items together, which is never negative when no item height is. */
  lemma HeaderOpenCompletes(c: HeaderConfig, s: State, navHeights: seq<int>)
    requires s.status == Status(false, NotAnimated) && s.phase == Settled
    requires c.burger.Some? && c.dropdown.Some?
    ensures (forall i :: 0 <= i < |navHeights| ==> navHeights[i] >= 0) ==> Sum(navHeights) >= 0
    ensures var o := HeaderOpenRun(c, s, navHeights);
      && o.promise == Fulfilled(Controller)
      && o.next.status == Status(true, NotAnimated) && o.next.phase == Settled
      && |o.next.log| == |s.log| + 1
      && HasClass(o.next.dom, c.shadow, "active") && HasClass(o.next.dom, c.container, "forward")
      && StyleOf(o.next.dom, c.dropdown.value) == Some(Height(Sum(navHeights)))
      && ParentNode(o.next.dom, c.shadow) == Some(c.body)
  {
    if forall i :: 0 <= i < |navHeights| ==> navHeights[i] >= 0 {
      SumNonNegative(navHeights);
    }
  }

  /** By its suspension a successful `Header.close` has called the listener once
      with `false`, stored the controller itself in `isAnimated`, taken `active`
      off the burger, the dropdown and the shadow, and emptied the dropdown's style.
      It leaves `lastEventTarget` alone, and no other class list, parent or style
      changes. */
  lemma HeaderCloseStartEffects(c: HeaderConfig, s: State)
    requires !CloseRefused(s.status) && c.burger.Some? && c.dropdown.Some?
    ensures var o := HeaderCloseStart(c, s);
      && o.promise == Pending && o.next.phase == CloseAnimWait(ANIMATION_TIME)
      && o.next.status == Status(false, AnimatedSelf)
      && o.next.log == s.log + [Call(s.listener, false, Status(false, NotAnimated), s.lastEventTarget, s.dom)]
      && !HasClass(o.next.dom, c.burger.value, "active") && !HasClass(o.next.dom, c.dropdown.value, "active")
      && !HasClass(o.next.dom, c.shadow, "active")
      && StyleOf(o.next.dom, c.dropdown.value) == Some(Blank)
      && o.next.lastEventTarget == s.lastEventTarget
      && (forall x :: x == c.burger.value || x == c.dropdown.value || x == c.shadow ==>
            ClassesOf(o.next.dom, x) == ClassesOf(s.dom, x) - {"active"})
      && (forall x :: x != c.burger.value && x != c.dropdown.value && x != c.shadow ==>
            ClassesOf(o.next.dom, x) == ClassesOf(s.dom, x))
      && (forall x :: x != c.dropdown.value ==> StyleOf(o.next.dom, x) == StyleOf(s.dom, x))
      && o.next.dom.parentOf == s.dom.parentOf
  {
  }

  /** A completed `Header.close` from the open, settled state with the shadow
      attached to the module-level body. */
  lemma HeaderCloseCompletes(c: HeaderConfig, s: State)
    requires s.status == Status(true, NotAnimated) && s.phase == Settled
    requires c.burger.Some? && c.dropdown.Some?
    requires ParentNode(s.dom, c.shadow) == Some(c.pageBody)
    ensures var o := HeaderCloseRun(c, s);
      && o.promise == Fulfilled(Controller)
      && o.next.status == Status(false, NotAnimated) && o.next.phase == Settled
      && |o.next.log| == |s.log| + 1
      && !HasClass(o.next.dom, c.container, "forward") && !HasClass(o.next.dom, c.body, "body-fixed")
      && !HasClass(o.next.dom, c.shadow, "active")
      && StyleOf(o.next.dom, c.dropdown.value) == Some(Blank)
      && ParentNode(o.next.dom, c.shadow) == None
  {
  }

  /** `Header.open` attaches the shadow to the header's own body but `close`
      removes it from the module-level body: when the two differ, a complete
      open followed by a close rejects with NotFoundError. */
  lemma HeaderForeignBodyRejects(c: HeaderConfig, s: State, navHeights: seq<int>)
    requires s.status == Status(false, NotAnimated) && s.phase == Settled
    requires c.burger.Some? && c.dropdown.Some? && c.body != c.pageBody
    ensures HeaderCloseRun(c, HeaderOpenRun(c, s, navHeights).next).promise == Rejected(NotFoundError)
  {
  }

  lemma HeaderToggleInFlight(c: HeaderConfig, s: State, navHeights: seq<int>)
    requires s.status.isAnimated.Truthy()
    ensures HeaderToggle(c, s, navHeights) == s
  {
  }

  lemma HeaderToggleFlips(c: HeaderConfig, s: State, navHeights: seq<int>)
    requires s.status.isAnimated == NotAnimated && s.phase == Settled
    requires c.burger.Some? && c.dropdown.Some?
    requires s.status.isOpen ==> ParentNode(s.dom, c.shadow) == Some(c.pageBody)
    ensures HeaderToggleRun(c, s, navHeights).next.status == Status(!s.status.isOpen, NotAnimated)
  {
  }

  /** With non-negative item heights the dropdown height is non-negative. */
  lemma {:induction false} SumNonNegative(heights: seq<int>)
    requires forall i :: 0 <= i < |heights| ==> heights[i] >= 0
    ensures Sum(heights) >= 0
  {
    if heights != [] {
      SumNonNegative(heights[..|heights| - 1]);
    }
  }

  // ----- backdrop -----

  /** A click on the shadow or on the container's parent of an open, settled
      modal closes it: one listener call with `false`, seen with `window` as the
      trigger and the document as it was, and the modal animating closed. */
  lemma ModalBackdropClosesOnce(c: ModalConfig, s: State, target: ElemId, p: ElemId)
    requires s.status == Status(true, NotAnimated)
    requires ParentNode(s.dom, c.container) == Some(p) && (target == p || target == c.shadow)
    ensures var r := ModalBackdrop(c, s, target);
      && r.status == Status(false, AnimatedTrue) && r.lastEventTarget == Window
      && r.log == s.log + [Call(s.listener, false, Status(false, AnimatedTrue), Window, s.dom)]
  {
  }

  /** On a closed or animating modal every click, backdrop or not, changes nothing. */
  lemma ModalBackdropIdle(c: ModalConfig, s: State, target: ElemId)
    requires CloseRefused(s.status)
    ensures ModalBackdrop(c, s, target) == s
  {
  }

  /** A backdrop click on an open, settled header closes it: one listener call
      with `false`, `isAnimated` holding the controller, and the last trigger
      kept, since `Header.close` ignores the `window` it is given. */
  lemma HeaderBackdropClosesOnce(c: HeaderConfig, s: State, target: ElemId, p: ElemId)
    requires s.status == Status(true, NotAnimated)
    requires ParentNode(s.dom, c.container) == Some(p) && (target == p || target == c.shadow)
    ensures var r := HeaderBackdrop(c, s, target);
      && r.status == Status(false, AnimatedSelf) && r.lastEventTarget == s.lastEventTarget
      && r.log == s.log + [Call(s.listener, false, Status(false, NotAnimated), s.lastEventTarget, s.dom)]
  {
  }

  /** On a closed or animating header every click changes nothing. */
  lemma HeaderBackdropIdle(c: HeaderConfig, s: State, target: ElemId)
    requires CloseRefused(s.status)
    ensures HeaderBackdrop(c, s, target) == s
  {
  }
}
