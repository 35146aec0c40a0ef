/** The part of the browser's document that the modal controllers touch:
    the class list of each element, the parent of each attached element and
    the `style` attribute. Elements are abstract ids; every operation is a
    function from one document state to the next. */
module Dom {

  type ElemId = nat

  datatype Option<T> = None | Some(value: T)

  /** The two exceptions the controllers can raise: reading `classList` of a
      missing `parentNode` (or of an element a query did not find), and
      `removeChild` of a node that is not a child. */
  datatype JsError = TypeError | NotFoundError

  datatype Result<T> = Ok(value: T) | Err(error: JsError)

  /** What a controller records as the element that triggered a transition. */
  datatype Target = Null | Undefined | Window | Node(id: ElemId)

  /** The value of an element's `style` attribute as the controllers write it:
      `height: <n>px;` or the empty string. */
  datatype Style = Height(px: int) | Blank

  datatype DomState = DomState(
    classes: map<ElemId, set<string>>,
    parentOf: map<ElemId, ElemId>,
    styles: map<ElemId, Style>)

  /** The class list of `e`; an element with no entry has none. */
  function ClassesOf(d: DomState, e: ElemId): set<string>
  {
    if e in d.classes then d.classes[e] else {}
  }

  predicate HasClass(d: DomState, e: ElemId, c: string)
  {
    c in ClassesOf(d, e)
  }

  /** Two documents whose elements carry the same class lists. */
  ghost predicate SameClasses(d1: DomState, d2: DomState)
  {
    forall x :: ClassesOf(d1, x) == ClassesOf(d2, x)
  }

  function ParentNode(d: DomState, e: ElemId): Option<ElemId>
  {
    if e in d.parentOf then Some(d.parentOf[e]) else None
  }

  function Children(d: DomState, p: ElemId): set<ElemId>
  {
    set c | c in d.parentOf && d.parentOf[c] == p
  }

  function StyleOf(d: DomState, e: ElemId): Option<Style>
  {
    if e in d.styles then Some(d.styles[e]) else None
  }

  /** `e.classList.add(c)`: only the class list of `e` changes, and it gains `c`. */
  function AddClass(d: DomState, e: ElemId, c: string): (r: DomState)
    ensures HasClass(r, e, c)
    ensures ClassesOf(r, e) == ClassesOf(d, e) + {c}
    ensures forall x :: x != e ==> ClassesOf(r, x) == ClassesOf(d, x)
    ensures r.parentOf == d.parentOf && r.styles == d.styles
  {
    d.(classes := d.classes[e := ClassesOf(d, e) + {c}])
  }

  /** `e.classList.remove(c)`: only the class list of `e` changes, and it loses `c`. */
  function RemoveClass(d: DomState, e: ElemId, c: string): (r: DomState)
    ensures !HasClass(r, e, c)
    ensures ClassesOf(r, e) == ClassesOf(d, e) - {c}
    ensures forall x :: x != e ==> ClassesOf(r, x) == ClassesOf(d, x)
    ensures r.parentOf == d.parentOf && r.styles == d.styles
  {
    d.(classes := d.classes[e := ClassesOf(d, e) - {c}])
  }

  /** `p.appendChild(c)`: `c` is moved under `p`, leaving its old parent if it had one;
      no other element changes parent. */
  function AppendChild(d: DomState, p: ElemId, c: ElemId): (r: DomState)
    ensures ParentNode(r, c) == Some(p)
    ensures c in Children(r, p)
    ensures forall x :: x != c ==> ParentNode(r, x) == ParentNode(d, x)
    ensures r.classes == d.classes && r.styles == d.styles
  {
    d.(parentOf := d.parentOf[c := p])
  }

  /** `p.removeChild(c)`: fails with NotFoundError exactly when `c` is not a child of `p`;
      otherwise `c` is detached and nothing else changes. */
  function RemoveChild(d: DomState, p: ElemId, c: ElemId): (r: Result<DomState>)
    ensures r.Ok? <==> c in Children(d, p)
    ensures r.Err? ==> r.error == NotFoundError
    ensures r.Ok? ==> ParentNode(r.value, c) == None && c !in Children(r.value, p)
    ensures r.Ok? ==> forall x :: x != c ==> ParentNode(r.value, x) == ParentNode(d, x)
    ensures r.Ok? ==> r.value.classes == d.classes && r.value.styles == d.styles
  {
    if ParentNode(d, c) == Some(p) then Ok(d.(parentOf := d.parentOf - {c}))
    else Err(NotFoundError)
  }

  /** `e.setAttribute('style', s)`: only the style of `e` changes. */
  function SetStyle(d: DomState, e: ElemId, s: Style): (r: DomState)
    ensures StyleOf(r, e) == Some(s)
    ensures forall x :: x != e ==> StyleOf(r, x) == StyleOf(d, x)
    ensures r.classes == d.classes && r.parentOf == d.parentOf
  {
    d.(styles := d.styles[e := s])
  }

  /** Removing a node appended to a parent restores the document it was
      appended to, provided it was detached before. */
  lemma DetachUndoesAttach(d: DomState, p: ElemId, c: ElemId)
    requires ParentNode(d, c) == None
    ensures RemoveChild(AppendChild(d, p, c), p, c) == Ok(d)
  {
    assert AppendChild(d, p, c).parentOf - {c} == d.parentOf;
  }

  /** Removing a class that was just added, and that was absent before,
      restores every class list. */
  lemma RemoveUndoesAdd(d: DomState, e: ElemId, c: string)
    requires !HasClass(d, e, c)
    ensures SameClasses(RemoveClass(AddClass(d, e, c), e, c), d)
  {
  }
}
