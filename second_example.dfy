/** The second screen: the state is replaced by a reducer after each push. */
module SecondExample {
  import opened Values
  import opened Collections

  /** A dispatched action `{ type: kind, payload }`. */
  datatype Action = Action(kind: string, payload: Value)

  /** `reducer(state, action)`: on `"add"` a new array holding `state`
      followed by the payload; on any other type the switch falls through and
      the reducer returns `undefined` (None), not the previous state. */
  function Reduce(state: seq<Value>, action: Action): (r: Option<seq<Value>>)
    ensures r.Some? <==> action.kind == "add"
    ensures r.Some? ==> |r.value| == |state| + 1
    ensures r.Some? ==> r.value[..|state|] == state && r.value[|state|] == action.payload
  {
    if action.kind == "add" then Some(state + [action.payload]) else None
  }

  /** The state `useReducer` reaches from `state` by dispatching `"add"` with
      each of `payloads` in order. */
  function Replay(state: seq<Value>, payloads: seq<Value>): (r: Option<seq<Value>>)
    decreases |payloads|
  {
    if payloads == [] then Some(state)
    else match Reduce(state, Action("add", payloads[0]))
      case None => None
      case Some(next) => Replay(next, payloads[1..])
  }

  /** A run of `"add"` dispatches never yields `undefined`, and appends the
      payloads in dispatch order. */
  lemma {:induction false} ReplayAppends(state: seq<Value>, payloads: seq<Value>)
    ensures Replay(state, payloads) == Some(state + payloads)
    decreases |payloads|
  {
    if payloads != [] {
      var next := state + [payloads[0]];
      assert Reduce(state, Action("add", payloads[0])) == Some(next);
      assert Replay(state, payloads) == Replay(next, payloads[1..]);
      ReplayAppends(next, payloads[1..]);
      assert next + payloads[1..] == state + payloads;
    } else {
      assert state + payloads == state;
    }
  }

  class SecondScreen {
    /** `const instance = new CollectionClass(1, 2, 3)` */
    const instance: Collection
    /** The reducer state; null stands for `undefined`. */
    var state: JsArray?
    /** The `input` state. */
    var input: Value

    /** The state shows the collection's contents in a separate array. */
    ghost predicate Mirrors()
      reads this, state, instance.list
    {
      state != null && state != instance.list && state.elems == instance.list.elems
    }

    /** Mounting as written: `useReducer(reducer, instance.collection)` seeds
        the state with the collection's own array, and the input starts `null`. */
    constructor Mount()
      ensures fresh(instance) && fresh(instance.list)
      ensures state == instance.list
      ensures instance.list.elems == Seed
      ensures input == Null
    {
      var c := new Collection(Seed);
      instance := c;
      state := c.GetCollection();
      input := Null;
    }

    /** Mounting with the state seeded by a copy, `[...instance.collection]`. */
    constructor MountWithCopy()
      ensures fresh(instance) && fresh(instance.list) && fresh(state)
      ensures instance.list.elems == Seed
      ensures Mirrors()
      ensures input == Null
    {
      var c := new Collection(Seed);
      instance := c;
      state := new JsArray(c.GetCollection().elems);
      input := Null;
    }

    /** The input's `onChange`: `setInput(parsed)`, where `parsed` is what
        `Number.parseInt` made of the field, possibly `NaN`. */
    method ChangeInput(parsed: Value)
      modifies this
      ensures input == parsed && state == old(state)
    {
      input := parsed;
    }

    /** `dispatch(action)`: the new state is what `reducer` returns for the
        current one. The reducer never writes to the array it is given. On an
        `undefined` state, `"add"` spreads `undefined` and throws a TypeError
        (`threw`), leaving the state as it was; any other type leaves it `undefined`. */
    method Dispatch(action: Action) returns (threw: bool)
      modifies this
      ensures input == old(input)
      ensures threw <==> old(state) == null && action.kind == "add"
      ensures old(state) == null ==> state == null
      ensures old(state) != null ==>
        var r := Reduce(old(state.elems), action);
        if r.Some? then state != null && fresh(state) && state.elems == r.value else state == null
    {
      if state == null {
        threw := action.kind == "add";
      } else {
        threw := false;
        match Reduce(state.elems, action)
        case None => state := null;
        case Some(next) => state := new JsArray(next);
      }
    }

    /** `addToState`: pushes the unvalidated input onto the collection, then
        dispatches `"add"` with the collection's last element, which is that
        input. When the state is still the collection's own array, the state
        the reducer spreads already holds the pushed input. */
    method AddToState() returns (payload: Value, threw: bool)
      modifies this, instance.list
      ensures payload == input && input == old(input)
      ensures instance.list.elems == old(instance.list.elems) + [input]
      ensures threw <==> old(state) == null
      ensures old(state) == null ==> state == null
      ensures old(state) == instance.list ==> state != null && fresh(state) && state.elems == old(state.elems) + [input, input]
      ensures old(state) != null && old(state) != instance.list ==>
        state != null && fresh(state) && state.elems == old(state.elems) + [input] && old(state).elems == old(state.elems)
      ensures old(Mirrors()) ==> Mirrors()
    {
      instance.SetCollection(input);
      payload := instance.GetCollection().At(-1);
      threw := Dispatch(Action("add", payload));
    }
  }

  /** As written, a submission made right after mounting, before anything is
      typed, shows the initial `null` input twice, while the collection holds
      it once. */
  method FirstSubmitAsWritten() returns (shown: seq<Value>, stored: seq<Value>)
    ensures stored == Seed + [Null]
    ensures shown == Seed + [Null, Null]
  {
    var screen := new SecondScreen.Mount();
    var _, _ := screen.AddToState();
    shown, stored := screen.state.elems, screen.instance.list.elems;
  }

  /** Seeded with a copy, submitting `x` and then `y` shows `1, 2, 3, x, y`,
      exactly what the collection holds. */
  method TwoSubmitsWithCopy(x: Value, y: Value) returns (shown: seq<Value>, stored: seq<Value>)
    ensures shown == Seed + [x, y]
    ensures stored == shown
  {
    var screen := new SecondScreen.MountWithCopy();
    screen.ChangeInput(x);
    var _, _ := screen.AddToState();
    screen.ChangeInput(y);
    var _, _ := screen.AddToState();
    shown, stored := screen.state.elems, screen.instance.list.elems;
  }

  /** Dispatching an unknown action type turns the state into `undefined`. */
  method UnknownActionAfterMount(kind: string, p: Value) returns (isUndefined: bool)
    requires kind != "add"
    ensures isUndefined
  {
    var screen := new SecondScreen.Mount();
    var _ := screen.Dispatch(Action(kind, p));
    isUndefined := screen.state == null;
  }
}
