/** Model of include/renderer/vector/vector.hpp: a fixed-dimension vector
    whose `X`/`Y`/`Z`/`W` accessors hand out mutable references into the
    element array. Reading through a reference is a query method; writing
    through it is a setter that changes that one element. */
module Vectors {

  class Vector<T> {
    /** `m_Values`; its length is the template's `Dimension`. */
    const values: array<T>

    function Dimension(): nat
    {
      values.Length
    }

    /** `Vector<T, Dimension>{}`: every element starts as `init` (the
        value-initialised `T`). */
    constructor (dimension: nat, init: T)
      ensures Dimension() == dimension
      ensures forall i :: 0 <= i < dimension ==> values[i] == init
      ensures fresh(values)
    {
      values := new T[dimension](_ => init);
    }

    /** `Vector1<T>` ... `Vector4<T>`: the aliases for dimensions 1 to 4. */
    static method Vector1(init: T) returns (v: Vector<T>)
      ensures fresh(v) && fresh(v.values) && v.Dimension() == 1 && v.values[0] == init
    {
      v := new Vector(1, init);
    }

    static method Vector2(init: T) returns (v: Vector<T>)
      ensures fresh(v) && fresh(v.values) && v.Dimension() == 2
      ensures forall i :: 0 <= i < 2 ==> v.values[i] == init
    {
      v := new Vector(2, init);
    }

    static method Vector3(init: T) returns (v: Vector<T>)
      ensures fresh(v) && fresh(v.values) && v.Dimension() == 3
      ensures forall i :: 0 <= i < 3 ==> v.values[i] == init
    {
      v := new Vector(3, init);
    }

    static method Vector4(init: T) returns (v: Vector<T>)
      ensures fresh(v) && fresh(v.values) && v.Dimension() == 4
      ensures forall i :: 0 <= i < 4 ==> v.values[i] == init
    {
      v := new Vector(4, init);
    }

    /** Reading through `X()`: only available when `Dimension > 0`. */
    method X() returns (r: T)
      requires Dimension() > 0
      ensures r == values[0]
    {
      r := values[0];
    }

    method Y() returns (r: T)
      requires Dimension() > 1
      ensures r == values[1]
    {
      r := values[1];
    }

    method Z() returns (r: T)
      requires Dimension() > 2
      ensures r == values[2]
    {
      r := values[2];
    }

    method W() returns (r: T)
      requires Dimension() > 3
      ensures r == values[3]
    {
      r := values[3];
    }

    /** Writing through `X()`: element 0 becomes `v`, every other element
        keeps its value. */
    method SetX(v: T)
      requires Dimension() > 0
      modifies values
      ensures values[..] == old(values[..])[0 := v]
    {
      values[0] := v;
    }

    method SetY(v: T)
      requires Dimension() > 1
      modifies values
      ensures values[..] == old(values[..])[1 := v]
    {
      values[1] := v;
    }

    method SetZ(v: T)
      requires Dimension() > 2
      modifies values
      ensures values[..] == old(values[..])[2 := v]
    {
      values[2] := v;
    }

    method SetW(v: T)
      requires Dimension() > 3
      modifies values
      ensures values[..] == old(values[..])[3 := v]
    {
      values[3] := v;
    }
  }

  /** The four accessors address four different elements: after writing
      through each of them in turn, each reads back its own value. */
  method AccessorsAreDistinct(a: int, b: int, c: int, d: int) returns (x: int, y: int, z: int, w: int)
    ensures x == a && y == b && z == c && w == d
  {
    var v := Vector.Vector4(0);
    v.SetX(a);
    v.SetY(b);
    v.SetZ(c);
    v.SetW(d);
    x := v.X();
    y := v.Y();
    z := v.Z();
    w := v.W();
  }
}
