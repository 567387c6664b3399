/**
 * A growable array: a backing array whose first `size` slots hold the
 * elements, doubled in capacity whenever an append finds it full. The
 * element type is generic (the mesher stores coordinates and colours in it).
 */
module FloatArrays {

  class FloatArray<T(0)> {
    var data: array<T>
    var size: nat
    ghost var Repr: set<object>

    /** Object invariant: the elements fit in the backing array, which is never empty. */
    ghost predicate Valid()
      reads this, Repr
    {
      && Repr == {this, data}
      && 0 < data.Length
      && size <= data.Length
    }

    /** The elements, in order. */
    ghost function Contents(): seq<T>
      reads this, Repr
      requires Valid()
    {
      data[..size]
    }

    ghost function Capacity(): nat
      reads this
    {
      data.Length
    }

    constructor (initialCapacity: nat)
      requires initialCapacity > 0
      ensures Valid() && fresh(Repr)
      ensures Contents() == [] && Capacity() == initialCapacity
    {
      data := new T[initialCapacity];
      size := 0;
      Repr := {this, data};
    }

    /** Appends one value, first doubling the capacity when the array is full. */
    method Add(value: T)
      requires Valid()
      modifies Repr
      ensures Valid() && (data == old(data) || fresh(data))
      ensures Contents() == old(Contents()) + [value]
      ensures Capacity() == if old(size) == old(Capacity()) then 2 * old(Capacity()) else old(Capacity())
    {
      if size == data.Length {
        Grow();
      }
      data[size] := value;
      size := size + 1;
    }

    /** Replaces the backing array with one of twice the length holding the same leading values. */
    method Grow()
      requires Valid()
      modifies this
      ensures Valid() && fresh(data) && Repr == old(Repr) - {old(data)} + {data}
      ensures size == old(size)
      ensures data.Length == 2 * old(data.Length)
      ensures data[..old(data.Length)] == old(data[..])
      ensures Contents() == old(Contents())
    {
      var oldData := data;
      var newData := new T[oldData.Length * 2];
      var i := 0;
      while i < oldData.Length
        invariant 0 <= i <= oldData.Length
        invariant newData[..i] == oldData[..i]
        modifies newData
      {
        newData[i] := oldData[i];
        i := i + 1;
      }
      assert newData[..oldData.Length] == oldData[..];
      Repr := Repr - {oldData} + {newData};
      data := newData;
    }

    /** Reads a slot; the bound is the capacity, not the size, so stale slots past the end are readable. */
    method Get(index: nat) returns (v: T)
      requires Valid() && index < data.Length
      ensures v == data[index]
      ensures index < size ==> v == Contents()[index]
    {
      v := data[index];
    }

    /** A fresh array holding exactly the elements. */
    method Elements() returns (copy: array<T>)
      requires Valid()
      ensures fresh(copy) && copy[..] == Contents()
    {
      copy := new T[size];
      var i := 0;
      while i < size
        invariant 0 <= i <= size
        invariant copy[..i] == data[..i]
      {
        copy[i] := data[i];
        i := i + 1;
      }
    }

    method Size() returns (n: nat)
      requires Valid()
      ensures n == |Contents()|
    {
      n := size;
    }

    /** Forgets the elements but keeps the backing array and its capacity. */
    method Clear()
      requires Valid()
      modifies this
      ensures Valid() && Repr == old(Repr) && data == old(data)
      ensures Contents() == [] && Capacity() == old(Capacity())
    {
      size := 0;
    }
  }
}
