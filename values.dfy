/** The values the two screens handle and the JavaScript array object that holds them. */
module Values {

  /** What the number input can hold: an integer from `Number.parseInt`, `NaN`
      when parsing fails, or the initial `undefined` / `null` of the input state. */
  datatype Value = Num(n: int) | NaN | Undefined | Null

  datatype Option<T> = None | Some(value: T)

  /** The numbers 1, 2, 3 both screens construct their collection with. */
  const Seed: seq<Value> := [Num(1), Num(2), Num(3)]

  /** A JavaScript array. It is a heap object, so two variables can denote the
      same array and a push through one is seen through the other. */
  class JsArray {
    var elems: seq<Value>

    /** An array literal, a spread `[...xs, x]` or a rest parameter: always a new object. */
    constructor (init: seq<Value>)
      ensures elems == init
    {
      elems := init;
    }

    /** `Array.prototype.push`, whose returned length no caller here uses. */
    method Push(v: Value)
      modifies this
      ensures elems == old(elems) + [v]
    {
      elems := elems + [v];
    }

    /** `Array.prototype.at`: a negative index counts from the end, and an
        index out of range gives `undefined`. */
    function At(k: int): (r: Value)
      reads this
      ensures 0 <= k < |elems| ==> r == elems[k]
      ensures -|elems| <= k < 0 ==> r == elems[|elems| + k]
      ensures k < -|elems| || |elems| <= k ==> r == Undefined
    {
      var i := if k < 0 then k + |elems| else k;
      if 0 <= i < |elems| then elems[i] else Undefined
    }
  }
}
