/** Single bits of 64-bit flag words. */
module Bits {
  function And(x: bv64, y: bv64): bv64 { x & y }

  function Or(x: bv64, y: bv64): bv64 { x | y }

  function AndNot(x: bv64, y: bv64): bv64 { x & !y }

  predicate IsBit(b: bv64) { b != 0 && b & (b - 1) == 0 }

  predicate Has(x: bv64, b: bv64) { And(x, b) != 0 }

  /** A single bit is either inside y or outside it. */
  lemma BitInOrOut(y: bv64, b: bv64)
    requires IsBit(b)
    ensures And(y, b) == 0 || And(y, b) == b
  {}

  lemma OrOutside(x: bv64, y: bv64, b: bv64)
    requires And(y, b) == 0
    ensures And(Or(x, y), b) == And(x, b)
  {}

  lemma OrInside(x: bv64, y: bv64, b: bv64)
    requires And(y, b) == b
    ensures And(Or(x, y), b) == b
  {}

  lemma HasOr(x: bv64, y: bv64, b: bv64)
    requires IsBit(b)
    ensures Has(Or(x, y), b) <==> Has(x, b) || Has(y, b)
  {
    BitInOrOut(y, b);
    hide And, Or;
    if And(y, b) == 0 {
      OrOutside(x, y, b);
    } else {
      OrInside(x, y, b);
      assert b != 0;
    }
  }

  lemma AndNotOutside(x: bv64, y: bv64, b: bv64)
    requires And(y, b) == 0
    ensures And(AndNot(x, y), b) == And(x, b)
  {}

  lemma AndNotInside(x: bv64, y: bv64, b: bv64)
    requires And(y, b) == b
    ensures And(AndNot(x, y), b) == 0
  {}

  lemma HasAndNot(x: bv64, y: bv64, b: bv64)
    requires IsBit(b)
    ensures Has(AndNot(x, y), b) <==> Has(x, b) && !Has(y, b)
  {
    BitInOrOut(y, b);
    hide And, AndNot;
    if And(y, b) == 0 {
      AndNotOutside(x, y, b);
    } else {
      AndNotInside(x, y, b);
      assert b != 0;
    }
  }

  lemma NoBits(b: bv64)
    ensures !Has(0, b)
  {}
}
