/**
 * The nul-terminated wide string family: the owned `CWideString`, the
 * borrowed `CWideStr`, their validated and unchecked constructors, accessors,
 * suffix indexing and the `IntoWide` conversions that feed `new`.
 */
module CWideStrings {
  import opened Wrappers
  import opened WideVecs

  /** The invariant of every wide string: the last unit is 0 and no other unit is 0. */
  predicate ValidCW(s: seq<bv16>) {
    |s| > 0 && s[|s| - 1] == 0 && forall i :: 0 <= i < |s| - 1 ==> s[i] != 0
  }

  /** `CWideStr`: the units of a wide string, terminator included. */
  type CWideStr = s: seq<bv16> | ValidCW(s) witness [0]

  /** `CWideString`: the owned boxed buffer; it dereferences to a `CWideStr`. */
  datatype CWideString = CWideString(boxed: CWideStr)

  /** `NulError`: the position of the first nul (`nul_position`) and the rejected data (`into_vec`). */
  datatype NulError = NulError(nulPosition: nat, data: seq<bv16>)

  datatype FromWideWithNulErrorKind = InteriorNul(pos: nat) | NotNulTerminated

  /** The error of `from_vec_with_nul`; it hands the data back unchanged. */
  datatype FromVecWithNulError = FromVecWithNulError(errorKind: FromWideWithNulErrorKind, data: seq<bv16>)

  /** `iter().position(|el| el == 0)`: the index of the first zero unit, if any. */
  function FirstNul(s: seq<bv16>): (r: Option<nat>)
    ensures r.None? <==> 0 !in s
    ensures r.Some? ==> r.value < |s| && s[r.value] == 0 && 0 !in s[..r.value]
  {
    if |s| == 0 then None
    else if s[0] == 0 then Some(0)
    else
      match FirstNul(s[1..])
      case None => None
      case Some(k) =>
        assert s[..k + 1] == [s[0]] + s[1..][..k];
        Some(k + 1)
  }

  /** `CWideString::from_vec_with_nul`: accepts exactly the data whose only zero is its last unit. */
  function FromVecWithNul(data: seq<bv16>): (r: Result<CWideString, FromVecWithNulError>)
    ensures r.Ok? <==> ValidCW(data)
    ensures r.Ok? ==> AsSliceWithNul(r.value.boxed) == data
    ensures r.Err? ==> r.error.data == data
    ensures r.Err? ==> (r.error.errorKind == NotNulTerminated <==> 0 !in data)
    ensures r.Err? && r.error.errorKind.InteriorNul? ==>
              var p := r.error.errorKind.pos;
              p < |data| - 1 && data[p] == 0 && 0 !in data[..p]
  {
    match FirstNul(data)
    case Some(p) =>
      if p == |data| - 1 then
        assert forall i :: 0 <= i < |data| - 1 ==> data[i] == data[..p][i];
        Ok(CWideString(data))
      else
        Err(FromVecWithNulError(InteriorNul(p), data))
    case None =>
      Err(FromVecWithNulError(NotNulTerminated, data))
  }

  /** `from_vec_with_nul_unchecked`: its safety contract is the invariant; it agrees with the checked form. */
  function FromVecWithNulUnchecked(data: seq<bv16>): (r: CWideString)
    requires ValidCW(data)
    ensures FromVecWithNul(data) == Ok(r)
  {
    CWideString(data)
  }

  /** `as_c_wide_str` (also `Deref` and `Borrow`): the view over the owned buffer, which re-validates to it. */
  function AsCWideStr(o: CWideString): (r: CWideStr)
    ensures FromVecWithNul(AsSliceWithNul(r)) == Ok(o)
  {
    o.boxed
  }

  /** `as_slice`: the content without the terminator; it holds no zero. */
  function AsSlice(s: CWideStr): (r: seq<bv16>)
    ensures r + [0] == s
    ensures 0 !in r
  {
    s[..|s| - 1]
  }

  /** `as_slice_with_nul`: the content with the terminator; dropping its last unit gives `as_slice`. */
  function AsSliceWithNul(s: CWideStr): (r: seq<bv16>)
    ensures ValidCW(r)
    ensures r[..|r| - 1] == AsSlice(s)
  {
    s[..|s|]
  }

  /** `Index<RangeFrom<usize>>`: the suffix from `k`, still a wide string; panics unless `k` is below the terminated length. */
  function IndexFrom(s: CWideStr, k: nat): (r: Outcome<CWideStr>)
    ensures r.Returned? <==> k < |s|
    ensures r.Returned? ==> AsSliceWithNul(r.value) == AsSliceWithNul(s)[k..]
    ensures r.Returned? ==> AsSlice(r.value) == AsSlice(s)[k..]
    ensures r.Panicked? ==> r.reason == IndexOutOfBounds
  {
    var slice := AsSliceWithNul(s);
    if k < |slice| then
      assert ValidCW(slice[k..]) by {
        assert forall i :: 0 <= i < |slice| - k - 1 ==> slice[k..][i] == slice[k + i];
      }
      Returned(slice[k..])
    else
      Panicked(IndexOutOfBounds)
  }

  /** The inputs `IntoWide` is implemented for. */
  datatype WideSource =
    | VecSource(units: seq<bv16>, capacity: nat)  // `Vec<u16>`, moved in with its allocation
    | WideStrSource(str: CWideStr)                 // `&CWideStr`
    | EncodedSource(encoded: seq<bv16>)            // `&OsStr`, `&Path`, `&str`: the units `encode_wide` yields

  /** A moved-in vector's length never exceeds its capacity. */
  predicate WellFormedSource(src: WideSource) {
    src.VecSource? ==> |src.units| <= src.capacity
  }

  /** The code units `into_wide` produces for a source. */
  function SourceUnits(src: WideSource): seq<bv16> {
    match src
    case VecSource(units, _) => units
    case WideStrSource(s) => AsSlice(s)
    case EncodedSource(e) => e
  }

  /**
   * `into_wide`: the source's units in a vector with room reserved for one
   * more unit, the terminator `new` pushes.
   */
  method IntoWide(src: WideSource) returns (v: WideVec)
    requires WellFormedSource(src)
    ensures fresh(v) && v.Valid()
    ensures v.Contents() == SourceUnits(src)
    ensures v.Capacity() >= |SourceUnits(src)| + 1
  {
    if src.VecSource? {
      v := new WideVec.FromUnits(src.units, src.capacity);
      v.Reserve(1);
    } else {
      // `Vec::with_capacity(len + 1)` followed by `extend`
      var units := if src.WideStrSource? then AsSlice(src.str) else src.encoded;
      v := new WideVec.WithCapacity(|units| + 1);
      v.Extend(units);
    }
  }

  /**
   * `CWideString::new`: converts the input, scans it for a zero unit and
   * either rejects it with the first zero's index and the unconverted units
   * (no terminator appended), or pushes the terminator.
   */
  method New(src: WideSource) returns (r: Result<CWideString, NulError>)
    requires WellFormedSource(src)
    ensures r.Ok? <==> 0 !in SourceUnits(src)
    ensures r.Ok? ==> AsSlice(r.value.boxed) == SourceUnits(src)
    ensures r.Err? ==> r.error.data == SourceUnits(src)
    ensures r.Err? ==>
              var p := r.error.nulPosition;
              p < |SourceUnits(src)| && SourceUnits(src)[p] == 0 && 0 !in SourceUnits(src)[..p]
  {
    var data := IntoWide(src);
    var i := 0;
    while i < data.len
      invariant data.Valid() && data.Contents() == SourceUnits(src)
      invariant 0 <= i <= data.len
      invariant 0 !in data.Contents()[..i]
    {
      if data.mem[i] == 0 {
        assert data.Contents()[i] == 0;
        return Err(NulError(i, data.Contents()));
      }
      assert data.Contents()[..i + 1] == data.Contents()[..i] + [data.mem[i]];
      i := i + 1;
    }
    assert data.Contents()[..i] == data.Contents();
    data.Push(0);
    r := Ok(FromVecWithNulUnchecked(data.Contents()));
  }

  /** `to_owned`: a fresh owned copy through `new`, whose `expect` can never fire. */
  method ToOwned(s: CWideStr) returns (o: CWideString)
    ensures AsSlice(o.boxed) == AsSlice(s)
    ensures o.boxed == s
  {
    var r := New(WideStrSource(s));
    assert r.Ok?;
    o := r.value;
  }

  /** The first zero is the only index with a zero there and none before it. */
  lemma {:induction false} FirstNulUnique(s: seq<bv16>, p: nat)
    requires p < |s| && s[p] == 0 && 0 !in s[..p]
    ensures FirstNul(s) == Some(p)
  {
    if p > 0 {
      assert s[0] == s[..p][0];
      assert s[1..][..p - 1] == s[1..p];
      assert forall i :: 0 <= i < p - 1 ==> s[1..p][i] == s[..p][i + 1];
      FirstNulUnique(s[1..], p - 1);
    }
  }

  /** A wide string is determined by its content without the terminator. */
  lemma AsSliceDetermines(a: CWideStr, b: CWideStr)
    requires AsSlice(a) == AsSlice(b)
    ensures a == b
  {
    assert a == AsSlice(a) + [0];
  }

  /**
   * `new` and `from_vec_with_nul` agree: `data` plus a terminator validates
   * exactly when `data` has no zero, and otherwise fails at `data`'s first zero.
   */
  lemma {:induction false} TerminatedValidates(data: seq<bv16>)
    ensures FromVecWithNul(data + [0]).Ok? <==> 0 !in data
    ensures 0 !in data ==> AsSlice(FromVecWithNul(data + [0]).value.boxed) == data
    ensures 0 in data ==>
              FromVecWithNul(data + [0]) == Err(FromVecWithNulError(InteriorNul(FirstNul(data).value), data + [0]))
  {
    var t := data + [0];
    if 0 in data {
      var p := FirstNul(data).value;
      assert t[..p] == data[..p];
      FirstNulUnique(t, p);
    } else {
      assert forall i :: 0 <= i < |t| - 1 ==> t[i] == data[i];
      assert ValidCW(t);
      AsSliceDetermines(FromVecWithNul(t).value.boxed, t);
    }
  }

  /** Indexing twice is indexing once by the summed offset. */
  lemma IndexFromTwice(s: CWideStr, i: nat, j: nat)
    requires i < |s|
    ensures IndexFrom(s, i).Returned?
    ensures IndexFrom(IndexFrom(s, i).value, j) == IndexFrom(s, i + j)
  {
    var t := IndexFrom(s, i).value;
    assert t == s[i..];
    if i + j < |s| {
      assert t[j..] == s[i + j..];
    }
  }

  /** The largest valid offset lands on the terminator: the empty string. */
  lemma IndexAtTerminator(s: CWideStr)
    ensures IndexFrom(s, |s| - 1) == Returned([0])
    ensures AsSlice(IndexFrom(s, |s| - 1).value) == []
  {
  }
}
