/** Bitwise and on numbers of any width. */
module Bitwise {

  function And(x: nat, y: nat): (z: nat)
    ensures z <= x && z <= y
  {
    if x == 0 || y == 0 then 0 else (if x % 2 == 1 && y % 2 == 1 then 1 else 0) + 2 * And(x / 2, y / 2)
  }

  lemma {:induction false} AndSame(x: nat)
    ensures And(x, x) == x
  {
    if x > 0 { AndSame(x / 2); }
  }

  function Ones(width: nat): nat {
    if width == 0 then 0 else 1 + 2 * Ones(width - 1)
  }

  lemma {:induction false} AndOnes(x: nat, width: nat)
    requires x <= Ones(width)
    ensures And(x, Ones(width)) == x
    decreases width
  {
    if width > 0 {
      AndOnes(x / 2, width - 1);
      assert Ones(width) / 2 == Ones(width - 1);
    }
  }

  lemma AndWord(x: nat)
    requires x <= 0xffff
    ensures And(x, 0xffff) == x
  {
    assert Ones(4) == 15 && Ones(8) == 255;
    assert Ones(12) == 4095;
    assert Ones(16) == 0xffff;
    AndOnes(x, 16);
  }

  lemma AndBit(x: nat)
    ensures And(x, 1) == x % 2
  {
    assert And(x / 2, 0) == 0;
  }

  lemma AndEven(x: nat)
    requires x % 2 == 1
    ensures And(x - 1, x) == x - 1
  {
    AndSame(x / 2);
    assert (x - 1) / 2 == x / 2;
  }
}
