/** `CollectionClass`: an append-only wrapper around a private array. */
module Collections {
  import opened Values

  class Collection {
    /** The private field `#list`. It is assigned once, by the constructor. */
    const list: JsArray

    /** `new CollectionClass(...initial)`: the rest parameter is a new array
        holding the arguments in order, duplicates included. */
    constructor (initial: seq<Value>)
      ensures fresh(list) && list.elems == initial
    {
      list := new JsArray(initial);
    }

    /** The setter `collection = v`: pushes `v` instead of replacing the list.
        Any value is accepted, `NaN` and `undefined` included. */
    method SetCollection(v: Value)
      modifies list
      ensures list.elems == old(list.elems) + [v]
    {
      list.Push(v);
    }

    /** The getter `collection`: the stored array itself, not a copy. */
    function GetCollection(): (a: JsArray)
      ensures a == list
    {
      list
    }
  }

  /** Appending to a new collection grows it by exactly one element, keeps the
      old contents in place as a prefix and puts `v` last, whatever `v` is. */
  method AppendOnce(initial: seq<Value>, v: Value) returns (before: seq<Value>, after: seq<Value>)
    ensures before == initial
    ensures |after| == |before| + 1
    ensures after[..|before|] == before && after[|before|] == v
  {
    var c := new Collection(initial);
    before := c.GetCollection().elems;
    c.SetCollection(v);
    after := c.GetCollection().elems;
  }

  /** Appending is not idempotent: the same value appended twice is stored twice. */
  method AppendTwice(initial: seq<Value>, v: Value) returns (after: seq<Value>)
    ensures after == initial + [v, v]
    ensures |after| == |initial| + 2
  {
    var c := new Collection(initial);
    c.SetCollection(v);
    c.SetCollection(v);
    after := c.GetCollection().elems;
  }

  /** Reading hands out the live array: a push made after the read is visible
      through the reference obtained by it, and the read itself changes nothing. */
  method ReadIsLive(initial: seq<Value>, v: Value) returns (atRead: seq<Value>, later: seq<Value>)
    ensures atRead == initial
    ensures later == initial + [v]
  {
    var c := new Collection(initial);
    var a := c.GetCollection();
    atRead := a.elems;
    c.SetCollection(v);
    later := a.elems;
  }

  /** Two collections have separate storage: appending to one leaves the
      other's contents as they were. */
  method Independent(xs: seq<Value>, ys: seq<Value>, v: Value) returns (first: seq<Value>, second: seq<Value>)
    ensures first == xs + [v]
    ensures second == ys
  {
    var c := new Collection(xs);
    var d := new Collection(ys);
    c.SetCollection(v);
    first, second := c.GetCollection().elems, d.GetCollection().elems;
  }
}
