/**
 * The toggle of the Select component: the control that opens and closes the
 * dropdown menu. The toggle does not own the open flag; it receives `isOpen`
 * from its parent and reports every wish to change it through callbacks.
 *
 * Each event handler is modelled as a function from the event and the props
 * to the ordered list of effects it performs: the callbacks it calls, the
 * DOM calls it makes (`preventDefault`, `stopPropagation`, focusing the
 * toggle). A caller-side harness (`Apply`, `Run`) plays the parent's part and
 * applies `onToggle(b)` as `isOpen := b`.
 */
module SelectToggle {

  /** The keys the handlers distinguish; every other key is `OtherKey`. */
  datatype Key = Enter | Space | Tab | Escape | ArrowDown | ArrowUp | OtherKey

  datatype Variant = Single | Checkbox | Typeahead | TypeaheadMulti

  /** The argument given to `handleTypeaheadKeys`: 'down', 'up' or 'enter'. */
  datatype Position = Down | Up | EnterPosition

  /** One observable effect of a handler, in the order the handler performs it. */
  datatype Effect =
    | OnToggle(isExpanded: bool)
    | OnClose
    | OnEnter
    | HandleTypeaheadKeys(position: Position)
    | PreventDefault
    | StopPropagation
    | FocusToggle   // the toggle element receives keyboard focus

  /**
   * The props the handlers and attributes depend on. `hasParentRef` stands for
   * the truthiness test on `parentRef`; the callbacks are not data here, their
   * calls are effects.
   */
  datatype Props = Props(
    id: string,
    ariaLabelledBy: string,
    isOpen: bool,
    isDisabled: bool,
    variant: Variant,
    hasClearButton: bool,
    hasParentRef: bool)

  /** The props a caller who passes only `id` and `parentRef` gets. */
  function DefaultProps(id: string): (p: Props)
    ensures !p.isOpen && !p.isDisabled && !p.hasClearButton
    ensures p.variant == Single && p.ariaLabelledBy == ""
  {
    Props(id, "", false, false, Single, false, true)
  }

  predicate IsTypeaheadVariant(v: Variant) {
    v == Typeahead || v == TypeaheadMulti
  }

  /** What closing the menu does: report closed, notify, give focus back to the toggle. */
  function CloseSequence(): (effects: seq<Effect>) {
    [OnToggle(false), OnClose, FocusToggle]
  }

  /** What opening the menu from the keyboard does on a non-typeahead toggle. */
  function OpenSequence(): (effects: seq<Effect>) {
    [OnToggle(true), OnEnter]
  }

  // ---------------------------------------------------------------------------
  // Caller-side harness: the parent stores whatever `onToggle` last reported.

  function Apply(isOpen: bool, effects: seq<Effect>): (stored: bool)
    decreases |effects|
  {
    if effects == [] then isOpen
    else Apply(if effects[0].OnToggle? then effects[0].isExpanded else isOpen, effects[1..])
  }

  // ---------------------------------------------------------------------------
  // Document-level handlers

  /**
   * Mouse-down or touch-start anywhere in the document. Closes the menu when it
   * is open and the target lies outside the element that wraps the toggle.
   */
  function DocClick(targetInParent: bool, p: Props): (effects: seq<Effect>)
    ensures effects == [] || effects == CloseSequence()
    ensures effects != [] <==> p.isOpen && p.hasParentRef && !targetInParent
  {
    if p.isOpen && p.hasParentRef && !targetInParent then
      CloseSequence()
    else
      []
  }

  /**
   * Key-down anywhere in the document. Tab is ignored outright on the checkbox
   * variant; otherwise Escape or Tab pressed inside the wrapping element closes
   * an open menu.
   */
  function EscPress(key: Key, targetInParent: bool, p: Props): (effects: seq<Effect>)
    ensures effects == [] || effects == CloseSequence()
    ensures effects != [] <==>
      p.isOpen && p.hasParentRef && targetInParent &&
      (key == Escape || (key == Tab && p.variant != Checkbox))
  {
    if key == Tab && p.variant == Checkbox then
      []
    else if p.isOpen && (key == Escape || key == Tab) && p.hasParentRef && targetInParent then
      CloseSequence()
    else
      []
  }

  // ---------------------------------------------------------------------------
  // Key-down on the toggle itself

  /**
   * Key-down on the toggle, with the source's first-match guard order: the
   * arrow and Enter clauses for typeahead variants run first; then every key
   * other than Enter and Space returns (Tab included, so the Tab arm of the
   * final branch can never run); otherwise the default is prevented and the
   * menu is closed or opened.
   */
  function KeyDown(key: Key, p: Props): (effects: seq<Effect>)
    // Keys the toggle does not handle
    ensures key == Tab || key == Escape || key == OtherKey ==> effects == []
    // Arrows move through the typeahead list and do nothing elsewhere
    ensures key == ArrowDown ==>
      effects == if IsTypeaheadVariant(p.variant) then [HandleTypeaheadKeys(Down)] else []
    ensures key == ArrowUp ==>
      effects == if IsTypeaheadVariant(p.variant) then [HandleTypeaheadKeys(Up)] else []
    // Enter on a typeahead: choose the current item when open, open otherwise
    ensures key == Enter && IsTypeaheadVariant(p.variant) ==>
      effects == if p.isOpen then [HandleTypeaheadKeys(EnterPosition)] else [OnToggle(true)]
    // Space on a typeahead belongs to the text input
    ensures key == Space && IsTypeaheadVariant(p.variant) ==> effects == []
    // Enter or Space on single and checkbox: exactly one of close and open
    ensures (key == Enter || key == Space) && !IsTypeaheadVariant(p.variant) ==>
      effects == [PreventDefault] + if p.isOpen then CloseSequence() else OpenSequence()
    ensures PreventDefault in effects <==>
      (key == Enter || key == Space) && !IsTypeaheadVariant(p.variant)
  {
    var typeahead := IsTypeaheadVariant(p.variant);
    var arrows :=
      if (key == ArrowDown || key == ArrowUp) && typeahead then
        [HandleTypeaheadKeys(if key == ArrowDown then Down else Up)]
      else [];
    var enter :=
      if key == Enter && typeahead then
        (if p.isOpen then [HandleTypeaheadKeys(EnterPosition)] else [OnToggle(!p.isOpen)])
      else [];
    if || (key == Tab && p.variant == Checkbox)
       || (key == Tab && !p.isOpen)
       || (key != Enter && key != Space)
       || ((key == Space || key == Enter) && typeahead)
    then
      arrows + enter
    else
      arrows + enter + [PreventDefault] +
      if (key == Tab || key == Enter || key == Space) && p.isOpen then
        [OnToggle(!p.isOpen), OnClose, FocusToggle]
      else if (key == Enter || key == Space) && !p.isOpen then
        [OnToggle(!p.isOpen), OnEnter]
      else
        []
  }

  // ---------------------------------------------------------------------------
  // Click handlers

  /** Click on the plain toggle button (and on the caret button of a typeahead). */
  function ButtonClick(p: Props): (effects: seq<Effect>)
    ensures |effects| == if p.isOpen then 2 else 1
    ensures effects[0] == OnToggle(!p.isOpen)
    ensures OnClose in effects <==> p.isOpen
    ensures OnEnter !in effects && FocusToggle !in effects
    ensures Apply(p.isOpen, effects) == !p.isOpen
  {
    var effects := [OnToggle(!p.isOpen)] + if p.isOpen then [OnClose] else [];
    assert effects[1..] == if p.isOpen then [OnClose] else [];
    assert Apply(!p.isOpen, effects[1..]) == !p.isOpen;
    effects
  }

  /** Click on the typeahead area: asks to open unless the select is disabled. */
  function TypeaheadClick(p: Props): (effects: seq<Effect>)
    ensures effects == [] <==> p.isDisabled
    ensures !p.isDisabled ==> effects == [OnToggle(true)]
    ensures OnClose !in effects
    ensures !p.isDisabled ==> Apply(p.isOpen, effects) == true
  {
    if !p.isDisabled then [OnToggle(true)] else []
  }

  /** Click on the caret button inside a typeahead: the button click, kept from the typeahead area. */
  function TypeaheadButtonClick(p: Props): (effects: seq<Effect>)
    ensures effects == [StopPropagation] + ButtonClick(p)
    ensures Apply(p.isOpen, effects) == !p.isOpen
  {
    [StopPropagation] + ButtonClick(p)
  }

  // ---------------------------------------------------------------------------
  // Attributes chosen in render

  datatype Layout = ButtonLayout | TypeaheadLayout

  /** A clear button forces the typeahead layout even on single and checkbox. */
  function LayoutOf(p: Props): (l: Layout)
    ensures l == TypeaheadLayout <==> IsTypeaheadVariant(p.variant) || p.hasClearButton
    ensures !p.hasClearButton ==> (l == ButtonLayout <==> p.variant in {Single, Checkbox})
  {
    if p.variant == Typeahead || p.variant == TypeaheadMulti || p.hasClearButton then
      TypeaheadLayout
    else
      ButtonLayout
  }

  /** `aria-haspopup` is 'listbox' or null. */
  datatype Popup = Listbox | NoPopup

  datatype ToggleAttributes = ToggleAttributes(
    id: string,
    ariaLabelledBy: string,
    ariaExpanded: bool,
    ariaHasPopup: Popup)

  /** The attributes put on the toggle button (the caret button in the typeahead layout). */
  function ToggleProps(p: Props): (a: ToggleAttributes)
    ensures a.id == p.id && a.ariaLabelledBy == p.ariaLabelledBy
    ensures a.ariaExpanded == p.isOpen
    ensures a.ariaHasPopup == NoPopup <==> p.variant == Checkbox
  {
    ToggleAttributes(p.id, p.ariaLabelledBy, p.isOpen, if p.variant != Checkbox then Listbox else NoPopup)
  }

  /** Where a click lands: the toggle element itself, or the caret button of a typeahead. */
  datatype ClickTarget = ToggleElement | CaretButton

  /**
   * Routes a click to the handler the rendered layout attaches there. A button
   * rendered `disabled` receives no click; the typeahead area tests
   * `isDisabled` itself.
   */
  function Click(target: ClickTarget, p: Props): (effects: seq<Effect>)
    ensures p.isDisabled ==> effects == []
    ensures OnClose in effects ==> p.isOpen
    // Either button notifies onClose exactly when the menu was open
    ensures !p.isDisabled && (LayoutOf(p) == ButtonLayout || target == CaretButton) ==>
      (OnClose in effects <==> p.isOpen)
    // The caret button keeps its click from the typeahead area
    ensures !p.isDisabled && LayoutOf(p) == TypeaheadLayout && target == CaretButton ==>
      effects != [] && effects[0] == StopPropagation
    ensures !p.isDisabled ==>
      Apply(p.isOpen, effects) ==
        if LayoutOf(p) == TypeaheadLayout && target == ToggleElement then true else !p.isOpen
  {
    match LayoutOf(p)
    case ButtonLayout =>
      if p.isDisabled then [] else ButtonClick(p)
    case TypeaheadLayout =>
      match target
      case ToggleElement => TypeaheadClick(p)
      case CaretButton => if p.isDisabled then [] else TypeaheadButtonClick(p)
  }

  // ---------------------------------------------------------------------------
  // Lifetime of the document listeners

  datatype DocumentEvent =
    | MouseDown(targetInParent: bool)
    | TouchStart(targetInParent: bool)
    | DocumentKeyDown(key: Key, targetInParent: bool)

  /**
   * The listeners are added on mount and removed on unmount, whatever `isOpen`
   * is; the handlers test `isOpen` themselves, so a closed toggle is inert.
   */
  function OnDocumentEvent(mounted: bool, ev: DocumentEvent, p: Props): (effects: seq<Effect>)
    ensures !mounted ==> effects == []
    ensures !p.isOpen ==> effects == []
    ensures effects == [] || effects == CloseSequence()
    // A mounted, open toggle closes on a pointer outside, or on Escape (Tab but on checkbox) inside
    ensures effects != [] <==>
      mounted && p.isOpen && p.hasParentRef &&
      if ev.DocumentKeyDown? then
        ev.targetInParent && (ev.key == Escape || (ev.key == Tab && p.variant != Checkbox))
      else
        !ev.targetInParent
  {
    if !mounted then []
    else
      match ev
      case MouseDown(inParent) => DocClick(inParent, p)
      case TouchStart(inParent) => DocClick(inParent, p)
      case DocumentKeyDown(key, inParent) => EscPress(key, inParent, p)
  }

  /** Escape closes an open checkbox select from inside it; Tab never does, from either handler. */
  lemma CheckboxTab(targetInParent: bool, p: Props)
    requires p.variant == Checkbox
    ensures EscPress(Tab, targetInParent, p) == []
    ensures KeyDown(Tab, p) == []
    ensures p.isOpen && p.hasParentRef && targetInParent ==>
      EscPress(Escape, targetInParent, p) == CloseSequence()
  {
  }

  /** With default props the toggle is a closed plain button announcing a listbox. */
  lemma DefaultToggle(id: string)
    ensures LayoutOf(DefaultProps(id)) == ButtonLayout
    ensures ToggleProps(DefaultProps(id)) == ToggleAttributes(id, "", false, Listbox)
  {
  }

  // ---------------------------------------------------------------------------
  // Sequences of events against a parent that stores `onToggle`

  datatype Event =
    | Document(ev: DocumentEvent)
    | ToggleKeyDown(key: Key, onCaret: bool)   // onCaret: the caret button of the typeahead layout has focus
    | ToggleClick(target: ClickTarget)

  /**
   * A key-down on the toggle reaches both the toggle's own handler and, as it
   * bubbles, the document listener; the toggle lies inside the wrapping
   * element, so the document listener sees a target inside it.
   */
  function ToggleKeyEffects(key: Key, p: Props): (effects: seq<Effect>)
  {
    KeyDown(key, p) + EscPress(key, true, p)
  }

  /** At most one of the two handlers acts on any key, so their order does not matter. */
  lemma ToggleKeyHandlersDisjoint(key: Key, p: Props)
    ensures KeyDown(key, p) == [] || EscPress(key, true, p) == []
    ensures ToggleKeyEffects(key, p) == EscPress(key, true, p) + KeyDown(key, p)
  {
  }

  /** The effects of one event on a mounted toggle, handlers only. */
  function Effects(ev: Event, p: Props): (effects: seq<Effect>)
  {
    match ev
    case Document(d) => OnDocumentEvent(true, d, p)
    case ToggleKeyDown(key, _) => ToggleKeyEffects(key, p)
    case ToggleClick(target) => Click(target, p)
  }

  /**
   * The browser's default action for Enter and Space on a focused button is a
   * click on that button. In the typeahead layout the caret button can hold
   * focus; its key-down bubbles to the handler on the wrapping element, and
   * the click follows unless that handler prevented the default.
   */
  predicate ActivatesCaret(key: Key, onCaret: bool, p: Props) {
    onCaret && LayoutOf(p) == TypeaheadLayout && !p.isDisabled &&
    (key == Enter || key == Space) && PreventDefault !in KeyDown(key, p)
  }

  /**
   * The activation click happens exactly on the typeahead variants: a single or
   * checkbox select shown in the typeahead layout (because of its clear button)
   * prevents the default of Enter and Space.
   */
  lemma CaretActivationOnTypeaheadOnly(key: Key, onCaret: bool, p: Props)
    ensures ActivatesCaret(key, onCaret, p) <==>
      onCaret && !p.isDisabled && IsTypeaheadVariant(p.variant) && (key == Enter || key == Space)
  {
  }

  /**
   * The open flag after one event: the parent applies the handlers' effects and
   * re-renders, then a key-down's activation click, if any, runs with the new
   * flag.
   */
  function Step(isOpen: bool, ev: Event, p: Props): (stored: bool)
  {
    var q := p.(isOpen := isOpen);
    var handled := Apply(isOpen, Effects(ev, q));
    if ev.ToggleKeyDown? && ActivatesCaret(ev.key, ev.onCaret, q) then
      Apply(handled, Click(CaretButton, q.(isOpen := handled)))
    else
      handled
  }

  /** The open flag after every event in turn. */
  function Run(isOpen: bool, events: seq<Event>, p: Props): (stored: bool)
    decreases |events|
  {
    if events == [] then isOpen
    else Run(Step(isOpen, events[0], p), events[1..], p)
  }

  function Clicks(n: nat): (events: seq<Event>)
    ensures |events| == n
    ensures forall i :: 0 <= i < n ==> events[i] == ToggleClick(ToggleElement)
  {
    seq(n, _ => ToggleClick(ToggleElement))
  }

  /** On the plain button, n clicks from `isOpen` flip it exactly n times: from closed, open iff n is odd. */
  lemma {:induction false} ClickParity(n: nat, isOpen: bool, p: Props)
    requires LayoutOf(p) == ButtonLayout && !p.isDisabled
    ensures Run(isOpen, Clicks(n), p) == (isOpen != (n % 2 == 1))
  {
    if n > 0 {
      assert Clicks(n)[1..] == Clicks(n - 1);
      assert LayoutOf(p.(isOpen := isOpen)) == ButtonLayout;
      ClickParity(n - 1, !isOpen, p);
    }
  }

  /**
   * Escape pressed on an open toggle closes it, whatever the variant, and so
   * does Tab except on the checkbox variant: the toggle's own handler ignores
   * both keys, the document listener closes.
   */
  lemma EscapeOnToggleCloses(key: Key, p: Props)
    requires p.hasParentRef
    requires key == Escape || (key == Tab && p.variant != Checkbox)
    ensures ToggleKeyEffects(key, p.(isOpen := true)) == CloseSequence()
    ensures Run(true, [ToggleKeyDown(key, false)], p) == false
    ensures Run(true, [ToggleKeyDown(key, true)], p) == false
  {
  }

  /**
   * Key-downs on the toggle that change nothing, open or closed: other keys,
   * Tab on the checkbox variant, arrows on single and checkbox, and Space on a
   * typeahead unless the caret button has focus (there its activation click
   * toggles the menu).
   */
  predicate Unhandled(key: Key, onCaret: bool, p: Props) {
    || key == OtherKey
    || (key == Tab && p.variant == Checkbox)
    || ((key == ArrowDown || key == ArrowUp) && !IsTypeaheadVariant(p.variant))
    || (key == Space && IsTypeaheadVariant(p.variant) && !onCaret)
  }

  /** Key-downs on the toggle that nothing acts on leave the flag alone, whatever the parent stores. */
  lemma {:induction false} IgnoredKeysKeepState(isOpen: bool, events: seq<Event>, p: Props)
    requires forall i :: 0 <= i < |events| ==>
      events[i].ToggleKeyDown? && Unhandled(events[i].key, events[i].onCaret, p)
    ensures Run(isOpen, events, p) == isOpen
    decreases |events|
  {
    if events != [] {
      assert ToggleKeyEffects(events[0].key, p.(isOpen := isOpen)) == [];
      assert !ActivatesCaret(events[0].key, events[0].onCaret, p.(isOpen := isOpen));
      IgnoredKeysKeepState(isOpen, events[1..], p);
    }
  }

  /** With the caret button of a typeahead focused, Space toggles the menu as a click on the caret does. */
  lemma CaretSpaceToggles(isOpen: bool, p: Props)
    requires IsTypeaheadVariant(p.variant) && !p.isDisabled
    ensures Run(isOpen, [ToggleKeyDown(Space, true)], p) == !isOpen
    ensures Run(isOpen, [ToggleKeyDown(Space, false)], p) == isOpen
  {
    var q := p.(isOpen := isOpen);
    assert ToggleKeyEffects(Space, q) == [];
    assert Step(isOpen, ToggleKeyDown(Space, true), p) == Apply(isOpen, Click(CaretButton, q));
  }

  /**
   * With the caret button of a typeahead focused, Enter always leaves the menu
   * closed: from closed, the key-down handler opens it and the activation
   * click that follows closes it again.
   */
  lemma CaretEnterCloses(isOpen: bool, p: Props)
    requires IsTypeaheadVariant(p.variant) && !p.isDisabled
    ensures Run(isOpen, [ToggleKeyDown(Enter, true)], p) == false
  {
    var q := p.(isOpen := isOpen);
    CaretActivationOnTypeaheadOnly(Enter, true, q);
    var e := ToggleKeyEffects(Enter, q);
    assert Apply(isOpen, e) by {
      if isOpen {
        assert ToggleKeyEffects(Enter, q) == [HandleTypeaheadKeys(EnterPosition)];
      } else {
        assert ToggleKeyEffects(Enter, q) == [OnToggle(true)];
      }
    }
    var r := q.(isOpen := true);
    assert LayoutOf(r) == TypeaheadLayout;
    assert Apply(true, Click(CaretButton, r)) == false;
    assert Step(isOpen, ToggleKeyDown(Enter, true), p) == Apply(true, Click(CaretButton, r));
  }

  /** A pointer pressed outside an open toggle closes it. */
  lemma OutsidePointerCloses(p: Props)
    requires p.hasParentRef
    ensures Run(true, [Document(MouseDown(false))], p) == false
    ensures Run(true, [Document(TouchStart(false))], p) == false
  {
  }

  /** No document event ever opens the menu: after any of them it is open only if it was. */
  lemma {:induction false} DocumentEventsNeverOpen(isOpen: bool, events: seq<Event>, p: Props)
    requires forall i :: 0 <= i < |events| ==> events[i].Document?
    ensures Run(isOpen, events, p) ==> isOpen
    decreases |events|
  {
    if events != [] {
      var effects := Effects(events[0], p.(isOpen := isOpen));
      var next := Apply(isOpen, effects);
      if effects != [] {
        assert effects == [OnToggle(false), OnClose, FocusToggle];
        assert next == false;
      }
      assert next ==> isOpen;
      DocumentEventsNeverOpen(next, events[1..], p);
    }
  }
}
