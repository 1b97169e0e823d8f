/**
 * `get_full_path_name`: the growable-buffer retry loop around
 * `GetFullPathNameW`, the filename-offset computation and the final
 * validation of the buffer.  The foreign call is an oracle that sees the
 * input, the index of the call and the buffer length it is told, and says
 * what it returned, what it wrote and where `lpFilePart` points.
 */
module FileApi {
  import opened Wrappers
  import opened CWideStrings
  import opened WideVecs

  /** `MAX_PATH` of the Windows headers. */
  const MAX_PATH: nat := 260

  /** What one `GetFullPathNameW` call did. */
  datatype Reply = Reply(
    ret: nat,               // the return value
    written: seq<bv16>,     // the units it stores at the start of the buffer
    filePart: Option<int>,  // `file_part` afterwards, in bytes from the buffer start; `None` is null
    lastError: int)         // what `GetLastError` reports afterwards

  /** The oracle: (`lpFileName` units, index of the call, `nBufferLength`) to what the call did. */
  type Resolver = (seq<bv16>, nat, nat) -> Reply

  /** How a bounded run of the loop ends. */
  datatype Resolution =
    | Resolved(path: CWideString, filenameIndex: Option<nat>)  // `Ok((ret, filename_offset))`
    | OsError(code: int)                                       // `Err(HResult::get_last_error())`
    | Panic(reason: PanicReason)
    | Unfinished                                               // the call budget ran out; the loop goes on

  /** The resolution and the number of calls made to the resolver. */
  datatype Trace = Trace(resolution: Resolution, calls: nat)

  /** The loop variables at the head of an iteration: calls so far, `size`, and the buffer's allocation. */
  datatype LoopState = LoopState(calls: nat, size: nat, mem: seq<bv16>)

  /** The buffer length told to the resolver never exceeds the allocation, which never drops below `MAX_PATH`. */
  predicate BufferOk(st: LoopState) {
    st.size <= |st.mem| && MAX_PATH <= |st.mem|
  }

  /** `Vec::with_capacity(MAX_PATH)` and `size = MAX_PATH`, before the first call. */
  function Initial(): (st: LoopState)
    ensures BufferOk(st)
    ensures st.calls == 0 && st.size == MAX_PATH && |st.mem| == MAX_PATH
  {
    LoopState(0, MAX_PATH, Zeros(MAX_PATH))
  }

  /** Which test ends the loop on a non-zero return. */
  datatype AcceptTest =
    | AsWritten  // `size_usize < MAX_PATH`, as the source has it
    | Corrected  // the return is below the buffer length the call was told

  predicate Accepts(test: AcceptTest, ret: nat, passed: nat) {
    match test
    case AsWritten => ret < MAX_PATH
    case Corrected => ret < passed
  }

  /** An accepted return always leaves room for `set_len(ret + 1)` inside the allocation. */
  lemma AcceptedFits(test: AcceptTest, ret: nat, st: LoopState)
    requires BufferOk(st) && Accepts(test, ret, st.size)
    ensures ret + 1 <= |st.mem|
  {
  }

  /**
   * The accepting branch: the filename index is the byte offset of
   * `file_part` halved (an offset before the buffer underflows and panics),
   * and the first `ret + 1` units must pass `from_vec_with_nul`, else panic.
   */
  function Finish(reply: Reply, mem: seq<bv16>): (r: Resolution)
    requires reply.ret + 1 <= |mem|
    ensures r.Resolved? || r.Panic?
    ensures r.Resolved? <==>
              (reply.filePart.None? || reply.filePart.value >= 0) && ValidCW(mem[..reply.ret + 1])
    ensures r.Resolved? ==> AsSliceWithNul(r.path.boxed) == mem[..reply.ret + 1]
    ensures r.Resolved? ==>
              r.filenameIndex == if reply.filePart.Some? then Some(reply.filePart.value / 2) else None
    ensures r.Panic? && reply.filePart.Some? && reply.filePart.value < 0 ==> r.reason == FilePartBeforeBuffer
    ensures r.Panic? && (reply.filePart.None? || reply.filePart.value >= 0) ==> r.reason == InteriorNulInPath
  {
    if reply.filePart.Some? && reply.filePart.value < 0 then
      Panic(FilePartBeforeBuffer)
    else
      var index := if reply.filePart.Some? then Some(reply.filePart.value / 2) else None;
      match FromVecWithNul(mem[..reply.ret + 1])
      case Ok(s) => Resolved(s, index)
      case Err(_) => Panic(InteriorNulInPath)
  }

  /**
   * The loop, iteration by iteration, with at most `maxCalls` calls: call
   * the resolver with `size`, stop on 0 or on an accepted return, otherwise
   * `reserve(ret)` (the vector's length is 0 throughout) and retry with
   * `ret` as the new `size`.
   */
  function Run(test: AcceptTest, resolver: Resolver, input: seq<bv16>, maxCalls: nat, st: LoopState): (t: Trace)
    requires BufferOk(st)
    ensures st.calls <= maxCalls ==> st.calls <= t.calls <= maxCalls
    decreases maxCalls - st.calls
  {
    if st.calls >= maxCalls then Trace(Unfinished, st.calls)
    else
      var reply := resolver(input, st.calls, st.size);
      var mem := Stored(st.mem, reply.written, st.size);
      if reply.ret == 0 then Trace(OsError(reply.lastError), st.calls + 1)
      else if Accepts(test, reply.ret, st.size) then Trace(Finish(reply, mem), st.calls + 1)
      else Run(test, resolver, input, maxCalls, NextState(st, reply))
  }

  /** The loop variables after a "too small" reply: `reserve(ret)` and `size = ret`. */
  function NextState(st: LoopState, reply: Reply): (next: LoopState)
    requires st.size <= |st.mem|
    ensures next.calls == st.calls + 1 && next.size == reply.ret
  {
    LoopState(st.calls + 1, reply.ret, Grown(Stored(st.mem, reply.written, st.size), 0, reply.ret))
  }

  /** One iteration of `Run`. */
  lemma RunUnfold(test: AcceptTest, resolver: Resolver, input: seq<bv16>, maxCalls: nat, st: LoopState)
    requires BufferOk(st) && st.calls < maxCalls
    ensures var reply := resolver(input, st.calls, st.size);
            var mem := Stored(st.mem, reply.written, st.size);
            Run(test, resolver, input, maxCalls, st) ==
              if reply.ret == 0 then Trace(OsError(reply.lastError), st.calls + 1)
              else if Accepts(test, reply.ret, st.size) then Trace(Finish(reply, mem), st.calls + 1)
              else Run(test, resolver, input, maxCalls, NextState(st, reply))
  {
  }

  /**
   * The accepting branch of the loop: `set_len(size + 1)`, the filename
   * offset from `file_part`, and `from_vec_with_nul` with its `expect`.
   */
  method AcceptPath(path: WideVec, reply: Reply) returns (r: Resolution)
    requires path.Valid() && path.len == 0 && reply.ret + 1 <= path.Capacity()
    modifies path
    ensures r == Finish(reply, old(path.mem))
  {
    path.SetLen(reply.ret + 1);
    var filenameOffset: Option<nat> := None;
    if reply.filePart.Some? {
      // `file_part as usize - path.as_ptr() as usize`
      var diff := reply.filePart.value;
      if diff < 0 {
        return Panic(FilePartBeforeBuffer);
      }
      // two bytes per wide char
      filenameOffset := Some(diff / 2);
    }
    var ret := FromVecWithNul(path.Contents());
    if ret.Err? {
      return Panic(InteriorNulInPath);
    }
    r := Resolved(ret.value, filenameOffset);
  }

  /**
   * `get_full_path_name`, as written, given at most `maxCalls` calls to the
   * resolver.
   */
  method GetFullPathName(inputPath: CWideStr, resolver: Resolver, maxCalls: nat) returns (t: Trace)
    ensures t == Run(AsWritten, resolver, AsSliceWithNul(inputPath), maxCalls, Initial())
  {
    var input := AsSliceWithNul(inputPath);
    ghost var goal := Run(AsWritten, resolver, input, maxCalls, Initial());
    var path := new WideVec.WithCapacity(MAX_PATH);
    var size: nat := MAX_PATH;
    var calls: nat := 0;
    assert LoopState(calls, size, path.mem) == Initial();
    while calls < maxCalls
      invariant path.Valid() && path.len == 0
      invariant BufferOk(LoopState(calls, size, path.mem))
      invariant Run(AsWritten, resolver, input, maxCalls, LoopState(calls, size, path.mem)) == goal
      decreases maxCalls - calls
    {
      ghost var st := LoopState(calls, size, path.mem);
      var reply := resolver(input, calls, size);
      RunUnfold(AsWritten, resolver, input, maxCalls, st);
      path.WriteRaw(reply.written, size);
      ghost var mem := path.mem;
      assert mem == Stored(st.mem, reply.written, st.size);
      calls := calls + 1;
      size := reply.ret;
      if size == 0 {
        assert goal == Trace(OsError(reply.lastError), calls);
        return Trace(OsError(reply.lastError), calls);
      }
      if size < MAX_PATH {
        assert goal == Trace(Finish(reply, mem), calls);
        var resolution := AcceptPath(path, reply);
        return Trace(resolution, calls);
      }
      // the buffer was too small
      assert goal == Run(AsWritten, resolver, input, maxCalls, NextState(st, reply));
      path.Reserve(size);
      assert LoopState(calls, size, path.mem) == NextState(st, reply);
    }
    t := Trace(Unfinished, calls);
  }

  /** A resolver that reports "too small" (a return of at least `MAX_PATH`) for calls before `n` and a usable length at call `n`. */
  ghost predicate TooSmallThenFits(resolver: Resolver, input: seq<bv16>, n: nat) {
    (forall c: nat, len: nat :: c < n ==> resolver(input, c, len).ret >= MAX_PATH) &&
    (forall len: nat :: 0 < resolver(input, n, len).ret < MAX_PATH)
  }

  lemma {:induction false} CallsFrom(resolver: Resolver, input: seq<bv16>, n: nat, maxCalls: nat, st: LoopState)
    requires TooSmallThenFits(resolver, input, n) && n < maxCalls
    requires BufferOk(st) && st.calls <= n
    ensures var t := Run(AsWritten, resolver, input, maxCalls, st);
            t.calls == n + 1 && (t.resolution.Resolved? || t.resolution.Panic?)
    decreases n - st.calls
  {
    var reply := resolver(input, st.calls, st.size);
    var mem := Stored(st.mem, reply.written, st.size);
    if st.calls < n {
      assert reply.ret >= MAX_PATH;
      RunUnfold(AsWritten, resolver, input, maxCalls, st);
      CallsFrom(resolver, input, n, maxCalls, NextState(st, reply));
    } else {
      assert 0 < reply.ret < MAX_PATH;
      RunUnfold(AsWritten, resolver, input, maxCalls, st);
    }
  }

  /** Under a resolver that is "too small" `n` times and then fits, the loop makes exactly `n + 1` calls and stops. */
  lemma ExactlyNPlusOneCalls(resolver: Resolver, input: seq<bv16>, n: nat, maxCalls: nat)
    requires TooSmallThenFits(resolver, input, n) && n < maxCalls
    ensures Run(AsWritten, resolver, input, maxCalls, Initial()).calls == n + 1
    ensures Run(AsWritten, resolver, input, maxCalls, Initial()).resolution.Resolved? ||
            Run(AsWritten, resolver, input, maxCalls, Initial()).resolution.Panic?
  {
    CallsFrom(resolver, input, n, maxCalls, Initial());
  }

  /** A return of 0 ends the loop with the last error and no string. */
  lemma ZeroIsError(test: AcceptTest, resolver: Resolver, input: seq<bv16>, maxCalls: nat, st: LoopState)
    requires BufferOk(st) && st.calls < maxCalls
    requires resolver(input, st.calls, st.size).ret == 0
    ensures Run(test, resolver, input, maxCalls, st)
            == Trace(OsError(resolver(input, st.calls, st.size).lastError), st.calls + 1)
  {
  }

  /** On "too small" the next call gets the returned size as its buffer length, and the allocation has room for it. */
  lemma TooSmallRetries(test: AcceptTest, resolver: Resolver, input: seq<bv16>, maxCalls: nat, st: LoopState)
    requires BufferOk(st) && st.calls < maxCalls
    requires var reply := resolver(input, st.calls, st.size);
             reply.ret != 0 && !Accepts(test, reply.ret, st.size)
    ensures var reply := resolver(input, st.calls, st.size);
            var next := NextState(st, reply);
            BufferOk(next) && |next.mem| >= reply.ret && |next.mem| >= |st.mem| &&
            Run(test, resolver, input, maxCalls, st) == Run(test, resolver, input, maxCalls, next)
  {
  }

  // ----- The documented behaviour of GetFullPathNameW -----

  /**
   * What `GetFullPathNameW` documents for an input whose full path is
   * `full` with the filename starting at unit `fileStart`: when the buffer
   * holds the path and its terminator it writes both and returns the length
   * without the terminator, otherwise it returns the length the buffer needs,
   * terminator included.
   */
  function DocumentedReply(full: seq<bv16>, fileStart: Option<nat>, nBufferLength: nat): Reply {
    if |full| + 1 <= nBufferLength then
      Reply(|full|, full + [0], if fileStart.Some? then Some(2 * fileStart.value) else None, 0)
    else
      Reply(|full| + 1, [], None, 0)
  }

  function Documented(full: seq<bv16>, fileStart: Option<nat>): Resolver {
    (input: seq<bv16>, call: nat, nBufferLength: nat) => DocumentedReply(full, fileStart, nBufferLength)
  }

  /**
   * As written, a full path of `MAX_PATH` units or more never resolves: the
   * successful call returns the length, still at least `MAX_PATH`, the loop
   * retries with that one-unit-short length, and the two calls alternate.
   */
  lemma {:induction false} AsWrittenNeverEndsOnLongPath(full: seq<bv16>, fileStart: Option<nat>, input: seq<bv16>, maxCalls: nat, st: LoopState)
    requires |full| >= MAX_PATH
    requires BufferOk(st) && st.calls <= maxCalls
    ensures Run(AsWritten, Documented(full, fileStart), input, maxCalls, st) == Trace(Unfinished, maxCalls)
    decreases maxCalls - st.calls
  {
    if st.calls < maxCalls {
      var reply := Documented(full, fileStart)(input, st.calls, st.size);
      assert reply.ret >= MAX_PATH;
      RunUnfold(AsWritten, Documented(full, fileStart), input, maxCalls, st);
      AsWrittenNeverEndsOnLongPath(full, fileStart, input, maxCalls, NextState(st, reply));
    }
  }

  /** The string the documented resolver leaves in the buffer validates to `full` plus its terminator. */
  lemma DocumentedPathValidates(full: seq<bv16>, mem: seq<bv16>)
    requires 0 !in full && |full| + 1 <= |mem| && mem[..|full| + 1] == full + [0]
    ensures FromVecWithNul(mem[..|full| + 1]).Ok?
    ensures FromVecWithNul(mem[..|full| + 1]).value.boxed == full + [0]
  {
    TerminatedValidates(full);
  }

  /** Accepting the documented reply yields `full` with its terminator and the filename's unit index. */
  lemma FinishDocumented(full: seq<bv16>, fileStart: Option<nat>, nBufferLength: nat, mem: seq<bv16>)
    requires 0 !in full && |full| + 1 <= nBufferLength && |full| + 1 <= |mem|
    requires mem[..|full| + 1] == full + [0]
    ensures Finish(DocumentedReply(full, fileStart, nBufferLength), mem) == Resolved(CWideString(full + [0]), fileStart)
  {
    DocumentedPathValidates(full, mem);
  }

  /** Under either test a full path shorter than `MAX_PATH` resolves in one call. */
  lemma ShortPathResolvesInOneCall(test: AcceptTest, full: seq<bv16>, fileStart: Option<nat>, input: seq<bv16>, maxCalls: nat)
    requires 0 < |full| < MAX_PATH && 0 !in full && maxCalls >= 1
    ensures Run(test, Documented(full, fileStart), input, maxCalls, Initial())
            == Trace(Resolved(CWideString(full + [0]), fileStart), 1)
  {
    var st := Initial();
    var reply := Documented(full, fileStart)(input, 0, st.size);
    assert reply == DocumentedReply(full, fileStart, MAX_PATH);
    var mem := Stored(st.mem, reply.written, st.size);
    FinishDocumented(full, fileStart, MAX_PATH, mem);
    RunUnfold(test, Documented(full, fileStart), input, maxCalls, st);
  }

  /**
   * With the corrected test a full path of `MAX_PATH` units or more
   * resolves in two calls, the second told exactly the length the first
   * asked for.
   */
  lemma CorrectedResolvesLongPath(full: seq<bv16>, fileStart: Option<nat>, input: seq<bv16>, maxCalls: nat)
    requires |full| >= MAX_PATH && 0 !in full && maxCalls >= 2
    ensures Run(Corrected, Documented(full, fileStart), input, maxCalls, Initial())
            == Trace(Resolved(CWideString(full + [0]), fileStart), 2)
  {
    var resolver := Documented(full, fileStart);
    var st := Initial();
    var reply := resolver(input, 0, st.size);
    assert reply.ret == |full| + 1;
    RunUnfold(Corrected, resolver, input, maxCalls, st);
    var next := NextState(st, reply);
    var reply2 := resolver(input, 1, next.size);
    assert reply2 == DocumentedReply(full, fileStart, |full| + 1);
    var mem2 := Stored(next.mem, reply2.written, next.size);
    FinishDocumented(full, fileStart, |full| + 1, mem2);
    RunUnfold(Corrected, resolver, input, maxCalls, next);
  }
}
