/** The first screen: the list state is replaced through a `setList` updater after each push. */
module FirstExample {
  import opened Values
  import opened Collections

  /** The updater `(previous) => [...previous, last]`: a new list that is
      `previous` followed by `last`. */
  function Extend(previous: seq<Value>, last: Value): (next: seq<Value>)
    ensures |next| == |previous| + 1
    ensures next[..|previous|] == previous && next[|previous|] == last
  {
    previous + [last]
  }

  /** The list reached from `previous` when the updaters for `lasts` run in order. */
  function ApplyUpdates(previous: seq<Value>, lasts: seq<Value>): (next: seq<Value>)
    decreases |lasts|
  {
    if lasts == [] then previous else ApplyUpdates(Extend(previous, lasts[0]), lasts[1..])
  }

  /** Updates apply in submission order: each adds exactly its own value at the end. */
  lemma {:induction false} ApplyUpdatesAppends(previous: seq<Value>, lasts: seq<Value>)
    ensures ApplyUpdates(previous, lasts) == previous + lasts
    decreases |lasts|
  {
    if lasts != [] {
      ApplyUpdatesAppends(Extend(previous, lasts[0]), lasts[1..]);
      assert Extend(previous, lasts[0]) + lasts[1..] == previous + lasts;
    }
  }

  class FirstScreen {
    /** `const instance = new CollectionClass(1, 2, 3)` */
    const instance: Collection
    /** The `list` state. */
    var list: JsArray
    /** The `input` state. */
    var input: Value

    /** The list state shows the collection's contents in a separate array. */
    ghost predicate Mirrors()
      reads this, list, instance.list
    {
      list != instance.list && list.elems == instance.list.elems
    }

    /** Mounting as written: `useState(instance.collection)` seeds the list
        state with the collection's own array, and the input starts `undefined`. */
    constructor Mount()
      ensures fresh(instance) && fresh(instance.list)
      ensures list == instance.list
      ensures instance.list.elems == Seed
      ensures input == Undefined
    {
      var c := new Collection(Seed);
      instance := c;
      list := c.GetCollection();
      input := Undefined;
    }

    /** Mounting with the list state seeded by a copy, `[...instance.collection]`. */
    constructor MountWithCopy()
      ensures fresh(instance) && fresh(instance.list) && fresh(list)
      ensures instance.list.elems == Seed
      ensures Mirrors()
      ensures input == Undefined
    {
      var c := new Collection(Seed);
      instance := c;
      list := new JsArray(c.GetCollection().elems);
      input := Undefined;
    }

    /** The input's `onChange`: `setInput(parsed)`, where `parsed` is what
        `Number.parseInt` made of the field, possibly `NaN`. */
    method ChangeInput(parsed: Value)
      modifies this
      ensures input == parsed && list == old(list)
    {
      input := parsed;
    }

    /** `addToList`: pushes the unvalidated input onto the collection, then
        replaces the list with `previous` followed by the collection's last
        element, read after the push. When the list state is still the
        collection's own array, `previous` already holds the pushed input. */
    method AddToList()
      modifies this, instance.list
      ensures input == old(input)
      ensures instance.list.elems == old(instance.list.elems) + [input]
      ensures fresh(list)
      ensures old(list) == instance.list ==> list.elems == old(list.elems) + [input, input]
      ensures old(list) != instance.list ==> list.elems == old(list.elems) + [input]
      ensures old(list) != instance.list ==> old(list).elems == old(list.elems)
      ensures old(Mirrors()) ==> Mirrors()
    {
      instance.SetCollection(input);
      var last := instance.GetCollection().At(-1);
      list := new JsArray(Extend(list.elems, last));
    }
  }

  /** As written, a submission made right after mounting, before anything is
      typed, shows the initial `undefined` input twice, while the collection
      holds it once. */
  method FirstSubmitAsWritten() returns (shown: seq<Value>, stored: seq<Value>)
    ensures stored == Seed + [Undefined]
    ensures shown == Seed + [Undefined, Undefined]
  {
    var screen := new FirstScreen.Mount();
    screen.AddToList();
    shown, stored := screen.list.elems, screen.instance.list.elems;
  }

  /** As written, submitting without typing and then submitting a typed `y`
      shows `1, 2, 3, undefined, undefined, y`: after the first submission
      the list is a separate array, and the second adds `y` once. */
  method TwoSubmitsAsWritten(y: Value) returns (shown: seq<Value>)
    ensures shown == Seed + [Undefined, Undefined, y]
  {
    var screen := new FirstScreen.Mount();
    screen.AddToList();
    screen.ChangeInput(y);
    screen.AddToList();
    shown := screen.list.elems;
  }

  /** Seeded with a copy, submitting `x` and then `y` shows `1, 2, 3, x, y`,
      exactly what the collection holds. */
  method TwoSubmitsWithCopy(x: Value, y: Value) returns (shown: seq<Value>, stored: seq<Value>)
    ensures shown == Seed + [x, y]
    ensures stored == shown
  {
    var screen := new FirstScreen.MountWithCopy();
    screen.ChangeInput(x);
    screen.AddToList();
    screen.ChangeInput(y);
    screen.AddToList();
    shown, stored := screen.list.elems, screen.instance.list.elems;
  }
}
