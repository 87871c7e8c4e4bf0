# Select toggle and Toolbar coordinator, modelled in Dafny

This project models the behaviour of two components of the PatternFly React
core library once the DOM and the rendering framework are abstracted away.

- **Select toggle** (`select_toggle.dfy`, module `SelectToggle`). The control
  that opens and closes a Select menu. It does not own the open flag: it
  receives `isOpen` as a prop and reports changes through `onToggle`,
  `onClose`, `onEnter` and `handleTypeaheadKeys`. Every handler (document
  mouse-down/touch-start, document key-down, key-down on the toggle, the three
  click handlers) is a function from the event and the props to the ordered
  list of effects it performs, drawn from those callbacks, `preventDefault`,
  `stopPropagation` and focusing the toggle. `Apply` and `Run` play the parent
  that stores whatever `onToggle` reports, so sequences of events can be
  reasoned about. The attributes computed in `render` (`aria-expanded`,
  `aria-haspopup`, which layout is rendered) are functions of the props.
- **Toolbar** (`toolbar.dfy`, module `Toolbar`). A class whose methods update
  its fields as the component updates its state: the managed expanded flag
  (toggle, close, close on window resize when the toolbar manages the flag
  itself), the per-category filter-chip counts (an idempotent update, and a
  total that decides whether the "clear all filters" button shows), the mount
  and unmount steps that add and remove the resize listener, and the values
  handed down to the children.

Places where the code differs from an idealised description of it, and
where this model follows the code:

- The Select toggle's document listeners are added on mount and removed on
  unmount, for the whole lifetime of the component, not only while the menu
  is open. The handlers test `isOpen` themselves, so a closed toggle is inert
  (`OnDocumentEvent` proves it).
- In the toggle's key-down handler every key other than Enter and Space
  returns at the guard, Tab included, so the `Tab && isOpen` arm of the final
  branch can never run (`KeyDown`). The same key-down also bubbles to the
  document listener, with a target inside the wrapping element, so Escape on
  an open toggle, and Tab except on the checkbox variant, still close the menu
  through that listener (`EscapeOnToggleCloses`). At most one of the two
  handlers acts on any key, so their order does not matter
  (`ToggleKeyHandlersDisjoint`).
- The key-down handler decides "typeahead" from the variant only, while the
  rendered layout also switches to the typeahead form when `hasClearButton` is
  set; a single or checkbox select with a clear button therefore renders the
  typeahead layout but answers Enter and Space as a plain button does. The
  model keeps both tests as written.
- Filter counts are not checked for being non-negative. `SumPositive` states
  what the clear-all test means under that assumption, as a lemma premise.
- On the typeahead variants the toggle's key-down handler returns before
  `preventDefault` for Enter and Space, so when the caret button has focus
  the browser follows the key with a click on it. Space there toggles the
  menu; Enter on a closed menu opens it in the key-down handler and the click
  closes it again (`CaretSpaceToggles`, `CaretEnterCloses`). `Run` adds that
  click after the parent has stored the key-down's `onToggle`.
- The Toolbar evaluates its mode from the current props each time, not once
  at construction (see Findings).

## Model

| member | source | states |
|---|---|---|
| SelectToggle.DefaultProps | packages/react-core/src/components/Select/SelectToggle.tsx:49-63 | Default props: closed, enabled, no clear button, variant single, empty aria-labelledby |
| SelectToggle.DocClick | packages/react-core/src/components/Select/SelectToggle.tsx:84-91 | Outside click emits either nothing or exactly onToggle(false), onClose(), focus, and the latter iff open, parentRef set and the target is outside the parent |
| SelectToggle.EscPress | packages/react-core/src/components/Select/SelectToggle.tsx:93-108 | Document key-down closes (same three effects) iff open, parentRef set, target inside the parent, and the key is Escape or a Tab on a non-checkbox variant; otherwise nothing |
| SelectToggle.KeyDown | packages/react-core/src/components/Select/SelectToggle.tsx:110-147 | Tab, Escape and other keys do nothing; arrows delegate down/up on typeahead variants only; Enter on typeahead delegates 'enter' when open and opens when closed; Space on typeahead does nothing; Enter/Space on single/checkbox prevent default then close when open or open-and-onEnter when closed; preventDefault occurs iff Enter/Space on a non-typeahead variant |
| SelectToggle.ButtonClick | packages/react-core/src/components/Select/SelectToggle.tsx:200-205 | Exactly onToggle(!isOpen), followed by onClose() only when it was open (two effects when open, one when closed); the parent's flag is flipped |
| SelectToggle.TypeaheadClick | packages/react-core/src/components/Select/SelectToggle.tsx:227-231 | Nothing iff disabled; otherwise exactly onToggle(true), so the parent's flag becomes open; never closes |
| SelectToggle.TypeaheadButtonClick | packages/react-core/src/components/Select/SelectToggle.tsx:240-246 | stopPropagation followed by exactly the plain button's click effects; the flag is flipped |
| SelectToggle.LayoutOf | packages/react-core/src/components/Select/SelectToggle.tsx:172-173 | The typeahead layout is rendered iff the variant is typeahead/typeaheadmulti or there is a clear button |
| SelectToggle.ToggleProps | packages/react-core/src/components/Select/SelectToggle.tsx:174-184 | aria-expanded equals isOpen; aria-haspopup is null iff the variant is checkbox; id and aria-labelledby pass through |
| SelectToggle.Click | packages/react-core/src/components/Select/SelectToggle.tsx:187-247 | A disabled toggle does nothing on click; otherwise a click on either button emits onClose exactly when the menu was open and flips the flag, the caret button first stops propagation, and the typeahead area opens |
| SelectToggle.OnDocumentEvent | packages/react-core/src/components/Select/SelectToggle.tsx:72-108 | Listeners live from mount to unmount, whatever isOpen is: a document event acts iff the toggle is mounted, open, has its parentRef, and the event is a pointer outside the parent or Escape (Tab except on checkbox) inside it; any effect is the close sequence |
| SelectToggle.CheckboxTab | packages/react-core/src/components/Select/SelectToggle.tsx:95-97 | On checkbox, Tab produces nothing from either key handler, while Escape inside the parent still closes an open menu |
| SelectToggle.ClickParity | packages/react-core/src/components/Select/SelectToggle.tsx:200-205 | n clicks on the plain button flip the parent's flag n times: from closed it is open iff n is odd |
| SelectToggle.ToggleKeyHandlersDisjoint | packages/react-core/src/components/Select/SelectToggle.tsx:75 | A key-down on the toggle runs its own handler and the document handler; for every key and props at most one emits anything, so both orders give the same effects |
| SelectToggle.EscapeOnToggleCloses | packages/react-core/src/components/Select/SelectToggle.tsx:93-108 | Escape on an open toggle, whatever the variant and wherever the focus in it, and Tab except on checkbox, emit the close sequence and leave the menu closed |
| SelectToggle.IgnoredKeysKeepState | packages/react-core/src/components/Select/SelectToggle.tsx:93-147 | Any sequence of key-downs on the toggle that nothing acts on (other keys, Tab on checkbox, arrows on single and checkbox, Space on typeahead while the caret button does not have focus) leaves the open flag unchanged, open or closed |
| SelectToggle.CaretActivationOnTypeaheadOnly | packages/react-core/src/components/Select/SelectToggle.tsx:128-138 | The browser's activation click on the focused caret follows Enter or Space exactly on the typeahead variants (not disabled): a single or checkbox select in the typeahead layout prevents the default |
| SelectToggle.CaretSpaceToggles | packages/react-core/src/components/Select/SelectToggle.tsx:128-246 | Space with the caret button focused toggles the menu as a click on the caret does; Space with focus elsewhere in a typeahead changes nothing |
| SelectToggle.CaretEnterCloses | packages/react-core/src/components/Select/SelectToggle.tsx:118-246 | Enter with the caret button focused always leaves the menu closed: from closed the key-down handler opens it and the activation click closes it again |
| SelectToggle.OutsidePointerCloses | packages/react-core/src/components/Select/SelectToggle.tsx:84-91 | A mouse-down or touch-start outside an open toggle leaves the menu closed |
| SelectToggle.DocumentEventsNeverOpen | packages/react-core/src/components/Select/SelectToggle.tsx:84-108 | Over any sequence of document mouse-down, touch-start and key-down events the menu can only close: it ends open only if it started open |
| SelectToggle.DefaultToggle | packages/react-core/src/components/Select/SelectToggle.tsx:49-63 | With default props the toggle renders the plain button with aria-expanded false and aria-haspopup listbox |
| Toolbar.IsToggleManaged | packages/react-core/src/components/Toolbar/Toolbar.tsx:52 | Managed iff no toggle callback and isExpanded undefined or false; a callback always means delegated |
| Toolbar.SumRemove | packages/react-core/src/components/Toolbar/Toolbar.tsx:92 | The total of the counts does not depend on which category is summed first |
| Toolbar.SumUpdate | packages/react-core/src/components/Toolbar/Toolbar.tsx:83-92 | Setting a category's count changes the total by the new count minus the old one, a missing entry counting as 0 |
| Toolbar.SumPositive | packages/react-core/src/components/Toolbar/Toolbar.tsx:92-111 | With non-negative counts the total is non-negative, and positive (clear-all shown) iff some category has a chip |
| Toolbar.Toolbar.constructor | packages/react-core/src/components/Toolbar/Toolbar.tsx:43-50 | Starts with the managed flag false, no filter counts, not mounted, no resize listener |
| Toolbar.Toolbar.ToggleIsExpanded | packages/react-core/src/components/Toolbar/Toolbar.tsx:54-58 | Negates the managed flag and changes nothing else |
| Toolbar.Toolbar.CloseExpandableContent | packages/react-core/src/components/Toolbar/Toolbar.tsx:60-64 | Sets the managed flag to false and changes nothing else |
| Toolbar.Toolbar.ComponentDidMount | packages/react-core/src/components/Toolbar/Toolbar.tsx:66-69 | After mount the resize listener is registered iff the toolbar is managed |
| Toolbar.Toolbar.ComponentWillUnmountAsWritten | packages/react-core/src/components/Toolbar/Toolbar.tsx:77-81 | Removes the listener only if the current props are managed, so it survives when the mode changed since mount |
| Toolbar.Toolbar.ComponentWillUnmount | packages/react-core/src/components/Toolbar/Toolbar.tsx:77-81 | Removes the listener whenever mount added it; no listener outlives the toolbar |
| Toolbar.Toolbar.WindowResize | packages/react-core/src/components/Toolbar/Toolbar.tsx:68 | A resize closes the managed flag iff the listener is registered and the toolbar is not unmounted; on an unmounted toolbar the listener's state update is dropped and only counted |
| Toolbar.Toolbar.UpdateNumberFilters | packages/react-core/src/components/Toolbar/Toolbar.tsx:83-90 | The category maps to the new count, every other category is unchanged, a state update is issued iff the entry was missing or different, a same-value call changes nothing, and the total moves by new minus old |
| Toolbar.Toolbar.GetNumberOfFilters | packages/react-core/src/components/Toolbar/Toolbar.tsx:92 | 0 for the empty map; with non-negative counts, positive iff some category has a chip |
| Toolbar.Toolbar.View | packages/react-core/src/components/Toolbar/Toolbar.tsx:109-143 | Expanded value and toggle come from the toolbar's state when managed and from the props otherwise; the clear-all button shows iff the total is positive |
| Toolbar.ToggleTwice | packages/react-core/src/components/Toolbar/Toolbar.tsx:54-58 | Two toggles restore the managed flag |
| Toolbar.CloseTwice | packages/react-core/src/components/Toolbar/Toolbar.tsx:60-64 | Closing twice leaves the flag false, as closing once does |
| Toolbar.UpdateTwice | packages/react-core/src/components/Toolbar/Toolbar.tsx:83-90 | A repeated identical update yields the same map as one update and issues exactly the state updates of one update: one if the entry was missing or different, none otherwise |
| Toolbar.TwoCategories | packages/react-core/src/components/Toolbar/Toolbar.tsx:83-111 | After counts 2 for "a" and 1 for "b" on a fresh toolbar the total is 3 and the clear-all button shows |
| Toolbar.MountThenResize | packages/react-core/src/components/Toolbar/Toolbar.tsx:66-69 | In managed mode a resize after expanding closes the exposed value; in delegated mode the toolbar's own flag is untouched and the exposed value is the prop |
| Toolbar.ResizeListenerOutlivesToolbar | packages/react-core/src/components/Toolbar/Toolbar.tsx:66-81 | A toolbar mounted managed, re-rendered with isExpanded true and unmounted as written keeps its listener, so each later resize calls setState on an unmounted toolbar (dropped by React; the flag stays as it was) |
| Toolbar.ResizeAfterUnmountIsInert | packages/react-core/src/components/Toolbar/Toolbar.tsx:66-81 | With the corrected unmount, whatever props arrive before unmount, a later resize leaves the toolbar's flag alone and requests no state update |

## Left out

- Rendering: JSX markup, `css()` class composition, style modules and the caret icon are presentation over packages that are not part of this model; only the attribute values and the choice of layout are modelled.
- DOM calls: `parentRef.current.contains(target)` is an input boolean, `this.toggle.current.focus()` is the `FocusToggle` effect; `addEventListener`/`removeEventListener` are a mounted flag (Select toggle) and a `resizeListening` field (Toolbar).
- A `parentRef` whose `current` is null, and a `handleTypeaheadKeys` left undefined on a typeahead variant, throw at run time in the source; the model assumes both are present when they are used.
- The toggle ref's element type chosen in the constructor (`SelectToggle.tsx:65-70`) is typing only and has no behaviour.
- The order in which a key-down on the toggle reaches the toggle's own handler and the document listener is the framework's event dispatch; the model runs the toggle's handler first, and `ToggleKeyHandlersDisjoint` shows the other order gives the same effects.
- SelectToggle.Click: a click on a disabled button is modelled as delivered to nobody, including the surrounding typeahead area; browsers differ on whether an ancestor sees it.
- React `setState` batching: `staticFilterInfo` exists only to work around asynchronous state updates, so one map stands for both it and `state.filterInfo`, and every state update takes effect at once.
- Browser default actions other than the caret's activation click: Tab moving focus, Space and other keys typing into the typeahead's text input, Enter submitting a form. A key-down carries only whether the caret button has focus.
- Key-downs on a disabled plain button: such a button cannot take focus, so the event cannot occur, but `Run` does not exclude it and applies the key handlers as for an enabled one; no lemma relies on it.
- The beta-component console warning and the static `hasWarnBeta` flag are logging only.
- `React.Children.map`/`cloneElement` traversal: only the values passed to the children are modelled (`View`).
- Toolbar.Toolbar.UpdateNumberFilters: category names are ordinary map keys. The source stores them as properties of a plain JavaScript object, where two names misbehave and are not modelled: after a category named "hasOwnProperty" is stored, the next call's `hasOwnProperty` test throws; a category named "__proto__" is never stored, so every call for it issues a state update and its count is never summed.
- Number types: filter counts are unbounded integers; JavaScript numbers are floating point, which matters only beyond 2^53 chips.
- Toolbar.GetNumberOfFilters: the sum is stated as an order-independent total (`SumRemove`); the source folds in `Object.values` order, which gives the same total for integers.
- `PageSection.tsx` is purely presentational (variant to class-name lookup) and is not part of this model.
- The `KeyTypes` and `SelectVariant` constants are defined in `selectConstants`, which is not part of this model; keys and variants are distinct enumeration values.

## Findings

| source | as written | input that shows it | evidently intended | confidence | as-written member | corrected member |
|---|---|---|---|---|---|---|
| packages/react-core/src/components/Toolbar/Toolbar.tsx:77-81 | `componentWillUnmount` removes the resize listener only if `isToggleManaged()` holds for the props at unmount time, while `componentDidMount` added it according to the props at mount time | mount with no `isExpanded` and no `toggleIsExpanded` (managed, listener added), re-render with `isExpanded={true}`, unmount: the listener stays on `window` and a later resize calls `setState` on the unmounted toolbar | remove the listener whenever mount added it | medium; not executed | Toolbar.ResizeListenerOutlivesToolbar (with Toolbar.Toolbar.ComponentWillUnmountAsWritten) | Toolbar.Toolbar.ComponentWillUnmount (with Toolbar.ResizeAfterUnmountIsInert) |
