/**
 * A model of the `Vec<u16>` buffers the core mutates in place: the wide
 * string constructor pushes the terminator onto one, and the full-path
 * resolver lets the foreign call write into one, then fixes its length with
 * `set_len` or grows it with `reserve`.
 */
module WideVecs {

  /** Smallest non-zero capacity the standard library allocates for 2-byte elements. */
  const MIN_NON_ZERO_CAP: nat := 4

  function Max(a: nat, b: nat): nat { if a < b then b else a }

  /**
   * Capacity after `reserve(additional)` on a vector of `len` elements and
   * capacity `cap`: unchanged when the spare room suffices, otherwise the
   * standard library's amortised growth (at least double, at least the
   * requested room).
   */
  function GrowCapacity(len: nat, cap: nat, additional: nat): (c: nat)
    requires len <= cap
    ensures c >= len + additional
    ensures c >= cap
    ensures cap - len >= additional <==> c == cap
  {
    if cap - len >= additional then cap
    else Max(MIN_NON_ZERO_CAP, Max(2 * cap, len + additional))
  }

  /** Spare memory gained by an allocation; its contents are unspecified in the source and 0 here. */
  function Zeros(n: nat): (z: seq<bv16>)
    ensures |z| == n
    ensures forall i :: 0 <= i < n ==> z[i] == 0
  {
    seq(n, _ => 0)
  }

  /**
   * The allocation after a foreign call wrote `w` through the raw pointer
   * while being told the buffer holds `limit` units: it writes at most
   * `limit` units, all at the start of the allocation.
   */
  function Stored(mem: seq<bv16>, w: seq<bv16>, limit: nat): (m: seq<bv16>)
    requires limit <= |mem|
    ensures |m| == |mem|
    ensures forall i :: 0 <= i < |m| ==> m[i] == if i < |w| && i < limit then w[i] else mem[i]
    ensures |w| <= limit ==> m[..|w|] == w
  {
    var k := if |w| < limit then |w| else limit;
    w[..k] + mem[k..]
  }

  /** The allocation after `reserve(additional)` on a vector of `len` elements held in `mem`. */
  function Grown(mem: seq<bv16>, len: nat, additional: nat): (m: seq<bv16>)
    requires len <= |mem|
    ensures |m| == GrowCapacity(len, |mem|, additional)
    ensures m[..|mem|] == mem
  {
    mem + Zeros(GrowCapacity(len, |mem|, additional) - |mem|)
  }

  class WideVec {
    /** The allocation: `|mem|` is the capacity, units from `len` on are spare. */
    var mem: seq<bv16>
    var len: nat

    ghost predicate Valid()
      reads this
    {
      len <= |mem|
    }

    function Capacity(): nat
      reads this
    {
      |mem|
    }

    /** The initialised elements, `&vec[..]`. */
    function Contents(): (s: seq<bv16>)
      reads this
      requires Valid()
      ensures |s| == len
    {
      mem[..len]
    }

    /** `Vec::with_capacity(cap)`. */
    constructor WithCapacity(cap: nat)
      ensures Valid() && Contents() == [] && Capacity() == cap
      ensures mem == Zeros(cap)
    {
      mem := Zeros(cap);
      len := 0;
    }

    /** A vector handed over by value, holding `units` in an allocation of `cap` units. */
    constructor FromUnits(units: seq<bv16>, cap: nat)
      requires |units| <= cap
      ensures Valid() && Contents() == units && Capacity() == cap
    {
      mem := units + Zeros(cap - |units|);
      len := |units|;
    }

    /** `reserve(additional)`: room for `additional` more elements; reallocation keeps the old units. */
    method Reserve(additional: nat)
      requires Valid()
      modifies this
      ensures Valid() && len == old(len) && Contents() == old(Contents())
      ensures Capacity() == GrowCapacity(old(len), old(Capacity()), additional)
      ensures mem == Grown(old(mem), old(len), additional)
    {
      mem := Grown(mem, len, additional);
    }

    /** `push(x)`: appends `x`, reallocating only when the vector is full. */
    method Push(x: bv16)
      requires Valid()
      modifies this
      ensures Valid() && Contents() == old(Contents()) + [x]
      ensures Capacity() == GrowCapacity(old(len), old(Capacity()), 1)
    {
      Reserve(1);
      mem := mem[len := x];
      len := len + 1;
    }

    /** `extend(xs)`: reserves room for all of `xs`, then appends them. */
    method Extend(xs: seq<bv16>)
      requires Valid()
      modifies this
      ensures Valid() && Contents() == old(Contents()) + xs
      ensures Capacity() == GrowCapacity(old(len), old(Capacity()), |xs|)
    {
      Reserve(|xs|);
      mem := mem[..len] + xs + mem[len + |xs|..];
      len := len + |xs|;
    }

    /** The unsafe `set_len(n)`; its safety contract is that `n` is within the capacity. */
    method SetLen(n: nat)
      requires Valid() && n <= Capacity()
      modifies this`len
      ensures Valid() && len == n && Contents() == mem[..n]
    {
      len := n;
    }

    /** A foreign call writing `w` through `as_mut_ptr()` while told the buffer holds `limit` units. */
    method WriteRaw(w: seq<bv16>, limit: nat)
      requires Valid() && limit <= Capacity()
      modifies this`mem
      ensures Valid() && mem == Stored(old(mem), w, limit)
    {
      mem := Stored(mem, w, limit);
    }
  }
}
