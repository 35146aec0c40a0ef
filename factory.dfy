/** The factory: it builds a controller only when its container exists, and
    the click handlers it installs for a controller. Which elements the
    handlers are attached to is not modelled; each handler is a method that
    runs what the installed closure runs when its element is clicked. */
module Factory {
  import opened Dom
  import opened Lifecycle
  import opened Controllers

  /** The elements handed to the factory; the container, the dropdown and the
      burger come from queries that may find nothing. */
  datatype ModalElements = ModalElements(
    container: Option<ElemId>, body: ElemId, shadow: ElemId,
    dropdown: Option<ElemId>, burger: Option<ElemId>)

  /** `createModal`: no controller without a container, otherwise a closed,
      settled `Modal` over the given elements. */
  method CreateModal(page: Page, elements: ModalElements, animation: int) returns (m: Modal?)
    ensures m == null <==> elements.container.None?
    ensures m != null ==> fresh(m) && m.Valid() && m.Snapshot() == Initial(page.dom)
    ensures m != null ==> m.page == page && m.container == elements.container.value
    ensures m != null ==> m.body == elements.body && m.shadow == elements.shadow && m.time == animation
  {
    if elements.container.None? {
      return null;
    }
    m := new Modal(page, elements.container.value, elements.body, elements.shadow, animation);
  }

  /** `createHeader`: the same check, building a `Header`. */
  method CreateHeader(page: Page, elements: ModalElements, animation: int) returns (h: Header?)
    ensures h == null <==> elements.container.None?
    ensures h != null ==> fresh(h) && h.Valid() && h.Snapshot() == Initial(page.dom)
    ensures h != null ==> h.page == page && h.container == elements.container.value
    ensures h != null ==> h.body == elements.body && h.shadow == elements.shadow && h.time == animation
    ensures h != null ==> h.dropdown == elements.dropdown && h.burger == elements.burger
  {
    if elements.container.None? {
      return null;
    }
    h := new Header(page, elements.container.value, elements.body, elements.shadow,
                    elements.dropdown, elements.burger, animation);
  }

  /** The handler on an element of the group `kind`. */
  method ModalTriggerClick(m: Modal, kind: TriggerKind, element: ElemId)
    requires m.Valid()
    modifies m, m.page
    ensures m.Valid()
    ensures m.Snapshot() == ModalClick(m.Config(), old(m.Snapshot()), kind, element)
  {
    match kind {
      case ToOpen => var _ := m.OpenStart(Node(element));
      case ToClose => var _ := m.CloseStart(Node(element));
      case ToToggle => m.Toggle();
    }
  }

  method HeaderTriggerClick(h: Header, kind: TriggerKind, navHeights: seq<int>)
    requires h.Valid()
    modifies h, h.page
    ensures h.Valid()
    ensures h.Snapshot() == HeaderClick(h.Config(), old(h.Snapshot()), kind, navHeights)
  {
    match kind {
      case ToOpen => var _ := h.OpenStart(navHeights);
      case ToClose => var _ := h.CloseStart();
      case ToToggle => h.Toggle(navHeights);
    }
  }

  /** The page-wide handler: a click exactly on the container's parent or on
      the shadow calls `close(window)`. */
  method ModalWindowClick(m: Modal, target: ElemId)
    requires m.Valid()
    modifies m, m.page
    ensures m.Valid()
    ensures m.Snapshot() == ModalBackdrop(m.Config(), old(m.Snapshot()), target)
  {
    if IsBackdropClick(target, ParentNode(m.page.dom, m.container), m.shadow) {
      var _ := m.CloseStart(Window);
    }
  }

  method HeaderWindowClick(h: Header, target: ElemId)
    requires h.Valid()
    modifies h, h.page
    ensures h.Valid()
    ensures h.Snapshot() == HeaderBackdrop(h.Config(), old(h.Snapshot()), target)
  {
    if IsBackdropClick(target, ParentNode(h.page.dom, h.container), h.shadow) {
      var _ := h.CloseStart();
    }
  }
}
