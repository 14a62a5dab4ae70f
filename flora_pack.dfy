/**
 * FloraPack: an immutable holder of the trunk, leaf and fruit lists that a
 * flora range produced. Its fields are final; the constructor keeps the
 * caller's lists themselves (no copy), and every getter hands out a new copy.
 * The lists are arrays here: an ArrayList that is never resized after it is
 * handed over behaves as an array, and arrays keep the aliasing visible.
 */
module Pack {
  import opened Grid

  class FloraPack {
    const trunks: array<Obj>
    const leaves: array<Obj>
    const fruits: array<Obj>

    /** Stores the three lists by reference: the pack aliases the caller's lists. */
    constructor (trunks: array<Obj>, leaves: array<Obj>, fruits: array<Obj>)
      ensures this.trunks == trunks && this.leaves == leaves && this.fruits == fruits
    {
      this.trunks := trunks;
      this.leaves := leaves;
      this.fruits := fruits;
    }

    /** A new list with the trunks, in order; writing to it leaves the pack as it was. */
    method GetTrunks() returns (copy: array<Obj>)
      ensures fresh(copy)
      ensures copy[..] == trunks[..]
    {
      copy := new Obj[trunks.Length](i reads trunks => if 0 <= i < trunks.Length then trunks[i] else Plant(0));
    }

    /** A new list with the leaves, in order; writing to it leaves the pack as it was. */
    method GetLeaves() returns (copy: array<Obj>)
      ensures fresh(copy)
      ensures copy[..] == leaves[..]
    {
      copy := new Obj[leaves.Length](i reads leaves => if 0 <= i < leaves.Length then leaves[i] else Plant(0));
    }

    /** A new list with the fruits, in order; writing to it leaves the pack as it was. */
    method GetFruits() returns (copy: array<Obj>)
      ensures fresh(copy)
      ensures copy[..] == fruits[..]
    {
      copy := new Obj[fruits.Length](i reads fruits => if 0 <= i < fruits.Length then fruits[i] else Plant(0));
    }
  }

  /**
   * What the copying getters guarantee a caller: after writing into a copy,
   * the pack's lists are unchanged and a second getter call returns the
   * original contents again.
   */
  method CopiesAreIndependent(pack: FloraPack, o: Obj) returns (again: array<Obj>)
    requires pack.trunks.Length > 0
    ensures again[..] == old(pack.trunks[..])
    ensures pack.trunks[..] == old(pack.trunks[..])
  {
    var copy := pack.GetTrunks();
    copy[0] := o;
    again := pack.GetTrunks();
  }
}
