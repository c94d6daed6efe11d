/** `useTriggerState`: a boolean React state with a toggle. */
module TriggerStates {
  import opened Js
  import opened SetDefaults

  /** The optional `newState?: boolean` argument as a JavaScript value. */
  function Argument(newState: Option<bool>): (v: JsValue)
    ensures v.Undefined? <==> newState.None?
  {
    match newState
    case None => Undefined
    case Some(b) => Bool(b)
  }

  /** The state `triggerState(newState)` requests when the render saw `current`. */
  function Toggle(current: bool, newState: Option<bool>): (next: bool)
    ensures newState.None? ==> next == !current
    ensures newState.Some? ==> next == newState.value
  {
    SetDefault(Argument(newState), Bool(!current)).b
  }

  /** Two argument-less triggers in successive renders restore the value;
      an explicit value is idempotent. */
  lemma ToggleTwice(b: bool, v: bool)
    ensures Toggle(Toggle(b, None), None) == b
    ensures Toggle(Toggle(b, Some(v)), Some(v)) == v
  {
  }

  /** One hook instance. `isTriggered` is the value the current render (and
      its `triggerState` closure) sees; `pending` is the state React holds
      and shows at the next render. */
  class TriggerStateHook {
    var isTriggered: bool
    var pending: bool

    /** `useState(initialState)` on the first render. */
    constructor (initialState: bool)
      ensures isTriggered == initialState && pending == initialState
    {
      isTriggered := initialState;
      pending := initialState;
    }

    /** `triggerState(newState)`: the negation of the rendered value when no
        argument is given, otherwise the argument. */
    method TriggerState(newState: Option<bool>)
      modifies this
      ensures pending == Toggle(isTriggered, newState)
      ensures isTriggered == old(isTriggered)
    {
      var next := SetDefault(Argument(newState), Bool(!isTriggered));
      pending := next.b;
    }

    /** React renders again and the component sees the pending state. */
    method Rerender()
      modifies this
      ensures isTriggered == old(pending) && pending == old(pending)
    {
      isTriggered := pending;
    }
  }

  /** Two toggles in successive renders bring the hook back to where it was. */
  method ToggleAcrossRenders(h: TriggerStateHook)
    requires h.pending == h.isTriggered
    modifies h
    ensures h.isTriggered == old(h.isTriggered) && h.pending == old(h.pending)
  {
    h.TriggerState(None);
    h.Rerender();
    h.TriggerState(None);
    h.Rerender();
  }

  /** Two toggles in the same render both read the same stale value, so the
      second does not undo the first. */
  method ToggleTwiceInOneRender(h: TriggerStateHook)
    modifies h
    ensures h.pending == !old(h.isTriggered) && h.isTriggered == old(h.isTriggered)
  {
    h.TriggerState(None);
    h.TriggerState(None);
  }
}
