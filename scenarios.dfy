/** Clients of the controllers that run whole transitions phase by phase on a
    small page and check, from the methods' contracts alone, what the page
    looks like in between. Element ids: 1 the body, 2 the shadow, 10 a modal
    container under its wrapper 11, 20 the header, 21 the burger, 22 the
    navigation dropdown. */
module Scenarios {
  import opened Dom
  import opened Lifecycle
  import opened Controllers
  import opened Factory

  method NewPage() returns (page: Page)
    ensures fresh(page) && page.body == 1 && page.shadow == 2
    ensures ParentNode(page.dom, 10) == Some(11) && ParentNode(page.dom, 20) == Some(1)
    ensures ParentNode(page.dom, 2) == None
    ensures forall e :: e != 2 ==> ClassesOf(page.dom, e) == {}
  {
    page := new Page(1, 2, DomState(map[], map[10 := 11, 20 := 1], map[]));
  }

  /** A modal opened and then closed, checked before and after each suspension. */
  method OpenThenClose()
  {
    var page := NewPage();
    var m := CreateModal(page, ModalElements(Some(10), 1, 2, None, None), ANIMATION_TIME);
    assert m != null;
    m.RegisterListener(Registered(7));

    var before := page.dom;
    var promise := m.OpenStart(Node(30));
    assert promise == Pending && m.status == Status(true, AnimatedTrue);
    assert m.notifications == [Call(Registered(7), true, Status(true, AnimatedTrue), Node(30), before)];
    assert HasClass(page.dom, 11, "forward") && !HasClass(page.dom, 11, "active");
    assert 2 in Children(page.dom, 1);

    promise := m.OpenAfterMin();
    assert HasClass(page.dom, 11, "active") && HasClass(page.dom, 2, "active");
    promise := m.OpenFinish();
    assert promise == Fulfilled(Controller) && m.status == Status(true, NotAnimated);

    promise := m.OpenStart(Node(31));
    assert promise == Fulfilled(Controller) && |m.notifications| == 1;

    promise := m.CloseStart(Node(32));
    assert m.status == Status(false, AnimatedTrue) && |m.notifications| == 2;
    assert !HasClass(page.dom, 11, "active") && !HasClass(page.dom, 2, "active");
    assert HasClass(page.dom, 11, "forward");
    promise := m.CloseFinish();
    assert promise == Fulfilled(Controller) && m.status == Status(false, NotAnimated);
    assert !HasClass(page.dom, 11, "forward") && !HasClass(page.dom, 1, "body-fixed");
    assert ParentNode(page.dom, 2) == None;
  }

  /** A page without the container gets no controller. */
  method MissingContainer()
  {
    var page := NewPage();
    var m := CreateModal(page, ModalElements(None, 1, 2, None, None), 500);
    assert m == null;
    var h := CreateHeader(page, ModalElements(None, 1, 2, Some(22), Some(21)), ANIMATION_TIME);
    assert h == null;
  }

  /** The header with three navigation items of heights 40, 50 and 30: the
      dropdown is 120 pixels high once `open` reaches its first suspension, and
      the listener saw the header open but not yet animating. */
  method HeaderDropdown()
  {
    var page := NewPage();
    var h := CreateHeader(page, ModalElements(Some(20), 1, 2, Some(22), Some(21)), ANIMATION_TIME);
    assert h != null;
    assert [40, 50, 30][..2] == [40, 50] && [40, 50][..1] == [40] && [40][..0] == [];
    assert Sum([40, 50, 30]) == 120;
    var promise := h.OpenStart([40, 50, 30]);
    assert StyleOf(page.dom, 22) == Some(Height(120));
    assert ParentNode(page.dom, 2) == Some(1);
    assert h.notifications[0].status == Status(true, NotAnimated);
    assert h.status == Status(true, AnimatedTrue);
    promise := h.OpenAfterMin();
    promise := h.OpenFinish();
    assert h.status == Status(true, NotAnimated) && h.phase == Settled;

    promise := h.OpenStart([40, 50, 30]);
    assert promise == Fulfilled(Controller);
    h.Toggle([]);
    assert h.status == Status(false, AnimatedSelf) && StyleOf(page.dom, 22) == Some(Blank);
    promise := h.CloseStart();
    assert promise == Fulfilled(False);
    promise := h.CloseFinish();
    assert promise == Fulfilled(Controller) && h.status == Status(false, NotAnimated);
    assert ParentNode(page.dom, 2) == None && !HasClass(page.dom, 20, "forward");
  }

  /** A click on the shadow of an open modal closes it once; a second click
      while it animates does nothing. */
  method ShadowClick()
  {
    var page := NewPage();
    var m := CreateModal(page, ModalElements(Some(10), 1, 2, None, None), ANIMATION_TIME);
    assert m != null;
    var promise := m.OpenStart(Node(30));
    promise := m.OpenAfterMin();
    promise := m.OpenFinish();
    ModalWindowClick(m, 10);
    assert m.status == Status(true, NotAnimated) && |m.notifications| == 1;
    ModalWindowClick(m, 2);
    assert m.status == Status(false, AnimatedTrue) && |m.notifications| == 2;
    assert m.lastEventTarget == Window;
    ModalWindowClick(m, 2);
    assert |m.notifications| == 2;
    promise := m.CloseFinish();
    assert promise == Fulfilled(Controller) && m.status == Status(false, NotAnimated);
  }
}
