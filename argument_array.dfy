/**
 * ArgumentArray: the ledger of values bound while a statement is rendered.
 *
 * It keeps every Bind it is given, in order (`bindings`), and an ordered map
 * from mark to value (`args`) in which a mark added again keeps its place and
 * takes the new value.
 */
module ArgumentArrays {
  import opened Php
  import opened PhpArrays

  /** A bound value and the placeholder mark it answers to. */
  datatype Bind = Bind(mark: Key, value: Scalar)

  /** The marks of `bs`, in order. */
  function Marks(bs: seq<Bind>): seq<Key> {
    seq(|bs|, i requires 0 <= i < |bs| => bs[i].mark)
  }

  /** No mark is bound twice. */
  ghost predicate DistinctMarks(bs: seq<Bind>) {
    forall i, j :: 0 <= i < j < |bs| ==> bs[i].mark != bs[j].mark
  }

  /** The `args` map left by adding `bs`, one Bind after the other, to an empty ledger. */
  function ArgsOf(bs: seq<Bind>): PhpArray<Scalar> {
    if bs == [] then []
    else Put(ArgsOf(bs[..|bs| - 1]), bs[|bs| - 1].mark, bs[|bs| - 1].value)
  }

  /** The keys of the map are exactly the marks that were added. */
  lemma {:induction false} ArgsOfKeys(bs: seq<Bind>)
    ensures forall k :: k in Keys(ArgsOf(bs)) <==> k in Marks(bs)
  {
    if bs != [] {
      var p, b := bs[..|bs| - 1], bs[|bs| - 1];
      ArgsOfKeys(p);
      assert Marks(bs) == Marks(p) + [b.mark];
      var a := ArgsOf(p);
      if b.mark !in Keys(a) {
        assert Keys(Put(a, b.mark, b.value)) == Keys(a) + [b.mark];
      }
    }
  }

  /**
   * The map never holds more entries than there are bindings, and holds
   * exactly as many if and only if no mark was added twice.
   */
  lemma {:induction false} ArgsOfSize(bs: seq<Bind>)
    ensures |ArgsOf(bs)| <= |bs|
    ensures |ArgsOf(bs)| == |bs| <==> DistinctMarks(bs)
  {
    if bs != [] {
      var p, b := bs[..|bs| - 1], bs[|bs| - 1];
      ArgsOfSize(p);
      ArgsOfKeys(p);
      var a := ArgsOf(p);
      assert |Keys(a)| == |a|;
      if b.mark in Keys(a) {
        assert |ArgsOf(bs)| == |a|;
        var i :| 0 <= i < |p| && Marks(p)[i] == b.mark;
        assert bs[i].mark == bs[|bs| - 1].mark;
      } else {
        assert |ArgsOf(bs)| == |a| + 1;
        assert forall i :: 0 <= i < |p| ==> p[i].mark != b.mark by {
          forall i | 0 <= i < |p| ensures p[i].mark != b.mark {
            assert Marks(p)[i] == p[i].mark;
          }
        }
        assert DistinctMarks(bs) <==> DistinctMarks(p) by {
          if DistinctMarks(p) {
            forall i, j | 0 <= i < j < |bs| ensures bs[i].mark != bs[j].mark {
              assert bs[i] == p[i];
              if j < |bs| - 1 {
                assert bs[j] == p[j];
              }
            }
          }
          if DistinctMarks(bs) {
            forall i, j | 0 <= i < j < |p| ensures p[i].mark != p[j].mark {
              assert bs[i] == p[i] && bs[j] == p[j];
            }
          }
        }
      }
    }
  }

  /** A mark added a second time keeps the place it got first and takes the later value. */
  lemma ReAddKeepsPlace(a: PhpArray<Scalar>, k: Key, v1: Scalar, v2: Scalar)
    ensures Keys(Put(Put(a, k, v1), k, v2)) == Keys(Put(a, k, v1))
    ensures Lookup(Put(Put(a, k, v1), k, v2), k) == Some(v2)
  {
    PutLookup(a, k, v1, k);
    PutLookup(Put(a, k, v1), k, v2, k);
  }

  class ArgumentArray {
    /** `$args`: mark => value, in insertion order */
    var args: PhpArray<Scalar>
    /** `$bindings`: every Bind added, in order */
    var bindings: seq<Bind>

    ghost predicate Valid()
      reads this
    {
      UniqueKeys(args)
    }

    constructor()
      ensures Valid() && args == [] && bindings == []
    {
      args := [];
      bindings := [];
    }

    /** `getIterator()`: iterates over `args` in insertion order. */
    method GetIterator() returns (it: PhpArray<Scalar>)
      ensures it == args
    {
      it := args;
    }

    /** `add($bind)`: records the Bind and sets `args[mark]` to its value. */
    method Add(b: Bind)
      requires Valid()
      modifies this
      ensures Valid()
      ensures bindings == old(bindings) + [b]
      ensures args == Put(old(args), b.mark, b.value)
      ensures old(args) == ArgsOf(old(bindings)) ==> args == ArgsOf(bindings)
    {
      PutUnique(args, b.mark, b.value);
      assert (bindings + [b])[..|bindings|] == bindings;
      bindings := bindings + [b];
      args := Put(args, b.mark, b.value);
    }

    /** `getBindings()`. */
    method GetBindings() returns (bs: seq<Bind>)
      ensures bs == bindings
    {
      bs := bindings;
    }

    /** `$a[$name] = $value`: changes `args` only. */
    method OffsetSet(name: Key, value: Scalar)
      requires Valid()
      modifies this
      ensures Valid()
      ensures args == Put(old(args), name, value)
      ensures bindings == old(bindings)
    {
      PutUnique(args, name, value);
      args := Put(args, name, value);
    }

    /** `isset($a[$name])`: the key is present and its value is not null. */
    method OffsetExists(name: Key) returns (b: bool)
      ensures b <==> name in Keys(args) && Lookup(args, name) != Some(Null)
    {
      var v := Lookup(args, name);
      b := v.Some? && v.value != Null;
    }

    /** `$a[$name]`: the stored value, or null (with PHP's notice) when the key is absent. */
    method OffsetGet(name: Key) returns (v: Scalar)
      ensures name in Keys(args) ==> Lookup(args, name) == Some(v)
      ensures name !in Keys(args) ==> v == Null
    {
      v := Lookup(args, name).GetOr(Null);
    }

    /** `unset($a[$name])`: changes `args` only. */
    method OffsetUnset(name: Key)
      requires Valid()
      modifies this
      ensures Valid()
      ensures args == Remove(old(args), name)
      ensures bindings == old(bindings)
    {
      RemoveUnique(args, name);
      args := Remove(args, name);
    }

    /** `getArgs()`. */
    method GetArgs() returns (a: PhpArray<Scalar>)
      ensures a == args
    {
      a := args;
    }

    /** `toArray()`. */
    method ToArray() returns (a: PhpArray<Scalar>)
      ensures a == args
    {
      a := args;
    }
  }
}
