/** The controller objects: the page with its module-level body and shadow,
    `Modal`, and `Header` (which in the program extends `Modal` and overrides
    `open` and `close`; here it is a class of its own with the same fields).
    Each transition method runs one phase of the `async` body on the fields
    and on the page's document, and is proved equal to the phase function of
    `Lifecycle` applied to the state before. */
module Controllers {
  import opened Dom
  import opened Lifecycle

  /** The document with the two elements every controller shares. */
  class Page {
    const body: ElemId
    const shadow: ElemId
    var dom: DomState

    /** The shadow element is created, so it is not the body and is detached,
        childless, without classes and without style in the markup; it is then
        given the class `modal-shadow`, and nothing else in the document changes. */
    constructor (body: ElemId, shadow: ElemId, markup: DomState)
      requires shadow != body && ParentNode(markup, shadow) == None && Children(markup, shadow) == {}
      requires ClassesOf(markup, shadow) == {} && StyleOf(markup, shadow) == None
      ensures this.body == body && this.shadow == shadow
      ensures ClassesOf(dom, shadow) == {"modal-shadow"} && ParentNode(dom, shadow) == None
      ensures Children(dom, shadow) == {} && StyleOf(dom, shadow) == None
      ensures forall x :: x != shadow ==> ClassesOf(dom, x) == ClassesOf(markup, x)
      ensures dom.parentOf == markup.parentOf && dom.styles == markup.styles
    {
      this.body := body;
      this.shadow := shadow;
      dom := AddClass(markup, shadow, "modal-shadow");
    }
  }

  /** The sum of the heights of the navigation items, accumulated item by item. */
  method NavHeight(heights: seq<int>) returns (height: int)
    ensures height == Sum(heights)
  {
    height := 0;
    for i := 0 to |heights|
      invariant height == Sum(heights[..i])
    {
      assert heights[..i + 1][..i] == heights[..i];
      height := height + heights[i];
    }
    assert heights[..|heights|] == heights;
  }

  class Modal {
    const page: Page
    const container: ElemId
    const body: ElemId
    const shadow: ElemId
    const time: int
    var status: Status
    var lastEventTarget: Target
    var listener: Listener
    ghost var notifications: seq<Call>
    var phase: Phase

    function Config(): ModalConfig
    {
      ModalConfig(container, body, shadow, time, page.shadow)
    }

    ghost function Snapshot(): State
      reads this, page
    {
      State(status, lastEventTarget, listener, notifications, phase, page.dom)
    }

    ghost predicate Valid()
      reads this
    {
      Consistent(status, phase, AnimatedTrue)
    }

    constructor (page: Page, container: ElemId, body: ElemId, shadow: ElemId, time: int)
      ensures this.page == page && this.container == container && this.body == body
      ensures this.shadow == shadow && this.time == time
      ensures Snapshot() == Initial(page.dom) && Valid()
    {
      this.page := page;
      this.container := container;
      this.body := body;
      this.shadow := shadow;
      this.time := time;
      status := Status(false, NotAnimated);
      lastEventTarget := Null;
      listener := NoOp;
      notifications := [];
      phase := Settled;
    }

    /** The `isOpen` setter. */
    method SetIsOpen(value: bool)
      modifies this`status, this`notifications
      ensures Snapshot() == Lifecycle.SetIsOpen(old(Snapshot()), value)
    {
      status := status.(isOpen := value);
      notifications := notifications + [Call(listener, value, status, lastEventTarget, page.dom)];
    }

    method RegisterListener(l: Listener)
      modifies this`listener
      ensures Snapshot() == old(Snapshot()).(listener := l)
    {
      listener := l;
    }

    /** `open(target)` up to its first `await`. */
    method OpenStart(target: Target) returns (promise: Promise)
      requires Valid()
      modifies this, page
      ensures Valid()
      ensures Outcome(Snapshot(), promise) == ModalOpenStart(Config(), old(Snapshot()), target)
    {
      if status.isAnimated.Truthy() || status.isOpen {
        return Fulfilled(Controller);
      }
      lastEventTarget := target;
      status := status.(isAnimated := AnimatedTrue);
      SetIsOpen(true);
      var parent := ParentNode(page.dom, container);
      if parent.None? {
        phase := Aborted;
        return Rejected(TypeError);
      }
      page.dom := AddClass(page.dom, parent.value, "forward");
      page.dom := AddClass(page.dom, body, "body-fixed");
      page.dom := AppendChild(page.dom, body, page.shadow);
      phase := OpenMinWait(MIN_TIME);
      promise := Pending;
    }

    /** `open` resumed after the pre-delay. */
    method OpenAfterMin() returns (promise: Promise)
      requires Valid() && phase.OpenMinWait?
      modifies this, page
      ensures Valid()
      ensures Outcome(Snapshot(), promise) == ModalOpenAfterMin(Config(), old(Snapshot()))
    {
      var parent := ParentNode(page.dom, container);
      if parent.None? {
        phase := Aborted;
        return Rejected(TypeError);
      }
      page.dom := AddClass(page.dom, parent.value, "active");
      page.dom := AddClass(page.dom, shadow, "active");
      phase := OpenAnimWait(time);
      promise := Pending;
    }

    /** `open` resumed after the animation delay. */
    method OpenFinish() returns (promise: Promise)
      requires Valid() && phase.OpenAnimWait?
      modifies this
      ensures Valid()
      ensures Outcome(Snapshot(), promise) == Lifecycle.OpenFinish(old(Snapshot()))
    {
      status := status.(isAnimated := NotAnimated);
      phase := Settled;
      promise := Fulfilled(Controller);
    }

    /** `close(target)` up to its `await`. */
    method CloseStart(target: Target) returns (promise: Promise)
      requires Valid()
      modifies this, page
      ensures Valid()
      ensures Outcome(Snapshot(), promise) == ModalCloseStart(Config(), old(Snapshot()), target)
    {
      if status.isAnimated.Truthy() || !status.isOpen {
        return Fulfilled(Controller);
      }
      lastEventTarget := target;
      status := status.(isAnimated := AnimatedTrue);
      SetIsOpen(false);
      page.dom := RemoveClass(page.dom, shadow, "active");
      var parent := ParentNode(page.dom, container);
      if parent.None? {
        phase := Aborted;
        return Rejected(TypeError);
      }
      page.dom := RemoveClass(page.dom, parent.value, "active");
      phase := CloseAnimWait(time);
      promise := Pending;
    }

    /** `close` resumed after the animation delay. */
    method CloseFinish() returns (promise: Promise)
      requires Valid() && phase.CloseAnimWait?
      modifies this, page
      ensures Valid()
      ensures Outcome(Snapshot(), promise) == ModalCloseFinish(Config(), old(Snapshot()))
    {
      var parent := ParentNode(page.dom, container);
      if parent.None? {
        phase := Aborted;
        return Rejected(TypeError);
      }
      page.dom := RemoveClass(page.dom, parent.value, "forward");
      var removed := RemoveChild(page.dom, body, shadow);
      if removed.Err? {
        phase := Aborted;
        return Rejected(removed.error);
      }
      page.dom := RemoveClass(removed.value, body, "body-fixed");
      status := status.(isAnimated := NotAnimated);
      phase := Settled;
      promise := Fulfilled(Controller);
    }

    method Toggle()
      requires Valid()
      modifies this, page
      ensures Valid()
      ensures Snapshot() == ModalToggle(Config(), old(Snapshot()))
    {
      if !status.isOpen {
        var _ := OpenStart(Undefined);
      } else {
        var _ := CloseStart(Undefined);
      }
    }
  }

  class Header {
    const page: Page
    const container: ElemId
    const body: ElemId
    const shadow: ElemId
    const time: int
    const dropdown: Option<ElemId>
    const burger: Option<ElemId>
    var status: Status
    var lastEventTarget: Target
    var listener: Listener
    ghost var notifications: seq<Call>
    var phase: Phase

    function Config(): HeaderConfig
    {
      HeaderConfig(container, body, shadow, dropdown, burger, page.body)
    }

    ghost function Snapshot(): State
      reads this, page
    {
      State(status, lastEventTarget, listener, notifications, phase, page.dom)
    }

    ghost predicate Valid()
      reads this
    {
      Consistent(status, phase, AnimatedSelf)
    }

    constructor (page: Page, container: ElemId, body: ElemId, shadow: ElemId,
                 dropdown: Option<ElemId>, burger: Option<ElemId>, time: int)
      ensures this.page == page && this.container == container && this.body == body
      ensures this.shadow == shadow && this.dropdown == dropdown && this.burger == burger
      ensures this.time == time
      ensures Snapshot() == Initial(page.dom) && Valid()
    {
      this.page := page;
      this.container := container;
      this.body := body;
      this.shadow := shadow;
      this.time := time;
      this.dropdown := dropdown;
      this.burger := burger;
      status := Status(false, NotAnimated);
      lastEventTarget := Null;
      listener := NoOp;
      notifications := [];
      phase := Settled;
    }

    /** The `isOpen` setter inherited from `Modal`. */
    method SetIsOpen(value: bool)
      modifies this`status, this`notifications
      ensures Snapshot() == Lifecycle.SetIsOpen(old(Snapshot()), value)
    {
      status := status.(isOpen := value);
      notifications := notifications + [Call(listener, value, status, lastEventTarget, page.dom)];
    }

    method RegisterListener(l: Listener)
      modifies this`listener
      ensures Snapshot() == old(Snapshot()).(listener := l)
    {
      listener := l;
    }

    /** `open()` up to its first `await`; `navHeights` are the rendered heights
        of the navigation items at that moment. */
    method OpenStart(navHeights: seq<int>) returns (promise: Promise)
      requires Valid()
      modifies this, page
      ensures Valid()
      ensures Outcome(Snapshot(), promise) == HeaderOpenStart(Config(), old(Snapshot()), navHeights)
    {
      if status.isAnimated.Truthy() || status.isOpen {
        return Fulfilled(Controller);
      }
      SetIsOpen(true);
      status := status.(isAnimated := AnimatedTrue);
      page.dom := AddClass(page.dom, body, "body-fixed");
      if burger.None? {
        phase := Aborted;
        return Rejected(TypeError);
      }
      page.dom := AddClass(page.dom, burger.value, "active");
      if dropdown.None? {
        phase := Aborted;
        return Rejected(TypeError);
      }
      page.dom := AddClass(page.dom, dropdown.value, "active");
      page.dom := AddClass(page.dom, container, "forward");
      var height := NavHeight(navHeights);
      page.dom := SetStyle(page.dom, dropdown.value, Height(height));
      page.dom := AppendChild(page.dom, body, shadow);
      phase := OpenMinWait(MIN_TIME);
      promise := Pending;
    }

    method OpenAfterMin() returns (promise: Promise)
      requires Valid() && phase.OpenMinWait?
      modifies this, page
      ensures Valid()
      ensures Outcome(Snapshot(), promise) == HeaderOpenAfterMin(Config(), old(Snapshot()))
    {
      page.dom := AddClass(page.dom, shadow, "active");
      phase := OpenAnimWait(ANIMATION_TIME);
      promise := Pending;
    }

    method OpenFinish() returns (promise: Promise)
      requires Valid() && phase.OpenAnimWait?
      modifies this
      ensures Valid()
      ensures Outcome(Snapshot(), promise) == Lifecycle.OpenFinish(old(Snapshot()))
    {
      status := status.(isAnimated := NotAnimated);
      phase := Settled;
      promise := Fulfilled(Controller);
    }

    /** `close()` up to its `await`. */
    method CloseStart() returns (promise: Promise)
      requires Valid()
      modifies this, page
      ensures Valid()
      ensures Outcome(Snapshot(), promise) == HeaderCloseStart(Config(), old(Snapshot()))
    {
      if status.isAnimated.Truthy() || !status.isOpen {
        return Fulfilled(False);
      }
      SetIsOpen(false);
      status := status.(isAnimated := AnimatedSelf);
      if burger.None? {
        phase := Aborted;
        return Rejected(TypeError);
      }
      page.dom := RemoveClass(page.dom, burger.value, "active");
      if dropdown.None? {
        phase := Aborted;
        return Rejected(TypeError);
      }
      page.dom := RemoveClass(page.dom, dropdown.value, "active");
      page.dom := SetStyle(page.dom, dropdown.value, Blank);
      page.dom := RemoveClass(page.dom, shadow, "active");
      phase := CloseAnimWait(ANIMATION_TIME);
      promise := Pending;
    }

    method CloseFinish() returns (promise: Promise)
      requires Valid() && phase.CloseAnimWait?
      modifies this, page
      ensures Valid()
      ensures Outcome(Snapshot(), promise) == HeaderCloseFinish(Config(), old(Snapshot()))
    {
      var removed := RemoveChild(page.dom, page.body, shadow);
      if removed.Err? {
        phase := Aborted;
        return Rejected(removed.error);
      }
      page.dom := RemoveClass(removed.value, container, "forward");
      page.dom := RemoveClass(page.dom, body, "body-fixed");
      status := status.(isAnimated := NotAnimated);
      phase := Settled;
      promise := Fulfilled(Controller);
    }

    /** `toggle()`, inherited from `Modal`, dispatching to the overriding `open` and `close`. */
    method Toggle(navHeights: seq<int>)
      requires Valid()
      modifies this, page
      ensures Valid()
      ensures Snapshot() == HeaderToggle(Config(), old(Snapshot()), navHeights)
    {
      if !status.isOpen {
        var _ := OpenStart(navHeights);
      } else {
        var _ := CloseStart();
      }
    }
  }
}
