/**
 * The fixed-shape table writer the dumper hands its rows to. The library that
 * implements it is not part of this model; this class states what the dumper
 * relies on, as an assumption:
 *   - a fill appends one row block of `shape[0]` rows (which rows they are is
 *     the caller's assumption, stated where the writer fills);
 *   - blocks reach the file in order, some of them early (batching), all of them
 *     by the next flush;
 *   - a writer is released only after everything it was given has been flushed.
 */
module Hdf5Tables {

  class Table<R> {
    const name: string
    /** The inner shape of one row block (one entry: slots per event). */
    const shape: seq<nat>
    /** Every row block handed over, one per fill, in call order. */
    var blocks: seq<seq<R>>
    /** How many of the leading blocks are in the file. */
    var persisted: nat
    var open: bool

    ghost predicate Valid()
      reads this
    {
      && |shape| == 1
      && persisted <= |blocks|
      && forall i | 0 <= i < |blocks| :: |blocks[i]| == shape[0]
    }

    constructor (name: string, shape: seq<nat>)
      requires |shape| == 1
      ensures Valid() && open
      ensures this.name == name && this.shape == shape
      ensures blocks == [] && persisted == 0
    {
      this.name := name;
      this.shape := shape;
      blocks := [];
      persisted := 0;
      open := true;
    }

    method FillWhileIncrementing(block: seq<R>)
      requires Valid() && open && |block| == shape[0]
      modifies this
      ensures Valid() && open
      ensures blocks == old(blocks) + [block]
      ensures old(persisted) <= persisted
    {
      blocks := blocks + [block];
    }

    method Flush()
      requires Valid()
      modifies this
      ensures Valid() && open == old(open)
      ensures blocks == old(blocks) && persisted == |blocks|
    {
      persisted := |blocks|;
    }

    method Release()
      requires Valid() && open && persisted == |blocks|
      modifies this
      ensures Valid() && !open
      ensures blocks == old(blocks) && persisted == old(persisted)
    {
      open := false;
    }
  }
}
