# win-nfd-rs core in Dafny

This project models the safety core of `win-nfd-rs`, a Rust wrapper around the Windows file dialogs. The core has three parts:

- **Nul-terminated wide strings** (`CWideString` / `CWideStr`). A wide string is a sequence of 16-bit code units. Its last unit is 0 and no other unit is 0. The model covers the validated constructors and their typed errors, the unchecked constructor, the two slice accessors, suffix indexing and `to_owned`. It also covers the `IntoWide` conversions that feed `new`.
- **COM handle ownership and the file-filter list.** Every wrapper around a COM pointer releases its reference exactly once. `set_default_folder` and `set_folder` instead hand the shell item's reference to COM, so it is never released locally. `FileFilters` grows a descriptor array and the storage it points into in lock-step. `DisplayNameType` translates to `SIGDN` codes.
- **Full-path resolution.** This is the growable-buffer retry loop around `GetFullPathNameW`. It covers the filename offset and the final validation of the buffer.

Modules and files:

- `wrappers.dfy` (`Wrappers`): `Option`, `Result`, and `Outcome`, which is a value or a panic with its reason.
- `wide_vec.dfy` (`WideVecs`): a class modelling the `Vec<u16>` buffers that the core mutates in place. It has `reserve` with the standard library's amortised growth, `push`, `extend`, the unsafe `set_len`, and a foreign write through `as_mut_ptr`.
- `c_wide_string.dfy` (`CWideStrings`): the wide strings. `CWideStr` is the subset type of unit sequences that satisfy the invariant. `CWideString` owns one. `new` is a method with the scan loop. `from_vec_with_nul` is a function.
- `shobjidl.dfy` (`ShellObjects`): the handle state machine (`Unreleased` → `Released` or `Unreleased` → `Disarmed`) with a ghost release counter. `ComObject` stands for the foreign object and counts the `Release` calls it gets. The file also has the dialog operations, `FileFilters` and the `SIGDN` table.
- `fileapi.dfy` (`FileApi`): the retry loop. `GetFullPathName` is the imperative method. `Run` is the recursive function that specifies it. The lemmas are stated about `Run`.

Foreign calls are oracles. A COM call's status code and out-pointer are parameters. `GetFullPathNameW` is a function value `Resolver` from (input units, index of the call, `nBufferLength`) to a `Reply`. A reply holds the return value, the units written, the `lpFilePart` byte offset and the last error. `Documented` is the resolver that behaves as the Windows documentation describes.

Three points about the source that shape the model:

- `add_filter` takes `CWideStr` values that are already valid. The interior-nul check is in the builder (`src/lib.rs:88-91`), which calls `CWideString::new(..).expect(..)`.
- Suffix indexing panics for `k >= len_with_nul`.
- The loop calls `reserve(size)` on a vector whose length is 0. So the capacity becomes at least `size`.

## Model

| member | source | states |
|---|---|---|
| `CWideStrings.FirstNul` | src/c_wide_string.rs:75 | `None` exactly when no unit is 0. Otherwise the index of a zero unit with no zero before it. |
| `CWideStrings.FirstNulUnique` | src/c_wide_string.rs:62 | Any index holding a zero with no zero before it is the one `position` finds. |
| `CWideStrings.FromVecWithNul` | src/c_wide_string.rs:74-95 | Succeeds exactly when the data satisfies the invariant, and then `as_slice_with_nul` is the data. `NotNulTerminated` exactly when there is no zero. `InteriorNul(p)` carries the first zero, which comes before the last index. Every error hands the data back unchanged. |
| `CWideStrings.FromVecWithNulUnchecked` | src/c_wide_string.rs:102-104 | For data meeting its safety contract, the result is what the checked constructor returns. |
| `CWideStrings.AsCWideStr` | src/c_wide_string.rs:107-109 | The borrowed view of an owned string re-validates to that same owned string. |
| `CWideStrings.AsSlice` | src/c_wide_string.rs:212-214 | Appending a terminator to the result gives the string back, and the result contains no zero. |
| `CWideStrings.AsSliceWithNul` | src/c_wide_string.rs:219-221 | The result satisfies the invariant, and dropping its last unit gives `as_slice`. |
| `CWideStrings.IndexFrom` | src/c_wide_string.rs:250-261 | Returns exactly when `k` is below the terminated length. The result is the suffix from `k`, which is still a valid wide string, and its content is `as_slice` from `k`. Otherwise it panics with an out-of-bounds error. |
| `CWideStrings.IntoWide` | src/c_wide_string.rs:16-50 | Produces the source's units (for `&CWideStr`, its `as_slice`) with room for one more unit. |
| `CWideStrings.New` | src/c_wide_string.rs:57-68 | Succeeds exactly when the input has no zero, and then `as_slice` is the input. Otherwise it fails with the first zero's index and the unconverted input, with no terminator appended. |
| `CWideStrings.ToOwned` | src/c_wide_string.rs:267-269 | Never panics. The copy has the same `as_slice` and is equal to the source. |
| `CWideStrings.AsSliceDetermines` | src/c_wide_string.rs:212-214 | Two wide strings with the same `as_slice` are equal. |
| `CWideStrings.TerminatedValidates` | src/c_wide_string.rs:57-95 | `new` and `from_vec_with_nul` agree. `data` plus a terminator validates exactly when `data` has no zero, and then `as_slice` gives `data` back. Otherwise it fails with `InteriorNul` at `data`'s first zero. |
| `CWideStrings.IndexFromTwice` | src/c_wide_string.rs:250-261 | Indexing at `i` and then at `j` is indexing at `i + j`, panic included. |
| `CWideStrings.IndexAtTerminator` | src/c_wide_string.rs:250-261 | Indexing at the terminator's position yields the empty string. |
| `WideVecs.GrowCapacity` | src/fileapi.rs:44 | After `reserve` the capacity holds at least `len + additional` and never shrinks. It is unchanged exactly when the spare room already sufficed. |
| `WideVecs.Stored` | src/fileapi.rs:18-20 | The foreign call writes at most `nBufferLength` units, all at the start of the buffer. Everything else is unchanged. |
| `WideVecs.Grown` | src/fileapi.rs:44 | The reallocated buffer keeps every old unit. |
| `WideVecs.WideVec.WithCapacity` | src/fileapi.rs:13 | An empty vector with exactly the requested capacity. |
| `WideVecs.WideVec.Reserve` | src/fileapi.rs:44 | The contents are unchanged and the capacity follows `GrowCapacity`. |
| `WideVecs.WideVec.Push` | src/c_wide_string.rs:65 | Appends one unit. The capacity changes only when the vector was full. |
| `WideVecs.WideVec.Extend` | src/c_wide_string.rs:46-47 | Appends all units after reserving room for them. |
| `WideVecs.WideVec.SetLen` | src/fileapi.rs:28-30 | Requires the new length to be within the capacity. The contents become the first `n` units of the allocation. |
| `WideVecs.WideVec.WriteRaw` | src/fileapi.rs:18-20 | The allocation is updated as `Stored` describes. |
| `ShellObjects.CheckHr` | src/shobjidl.rs:77-81 | `Ok` exactly when the status is not `FAILED`. Otherwise the error carries that status. |
| `ShellObjects.WrapOutPointer` | src/shobjidl.rs:151-155 | Returns the status's error exactly when it failed. Panics exactly when it succeeded with a null pointer. Otherwise wraps the non-null pointer. |
| `ShellObjects.ComPtr.constructor` | src/shobjidl.rs:196-197 | A new wrapper starts `Unreleased` with no local release. |
| `ShellObjects.ComPtr.Drop` | src/shobjidl.rs:59-65 | Releases exactly once and ends `Released`. On a disarmed wrapper, whose destructor never runs in the source, it releases nothing. |
| `ShellObjects.ComPtr.Forget` | src/shobjidl.rs:75 | `Unreleased` becomes `Disarmed` with zero local releases. |
| `ShellObjects.Wrap` | src/shobjidl.rs:354-360 | A successful non-null out-pointer becomes a fresh `Unreleased` wrapper of the requested interface. A null pointer after success panics, and a failure returns its status. |
| `ShellObjects.DialogInterface` | src/shobjidl.rs:195-226 | The open dialog is created as `IFileOpenDialog` and the save dialog as `IFileSaveDialog`, each exactly for its kind. Both have the file-dialog and modal-window capabilities. |
| `ShellObjects.NewDialog` | src/shobjidl.rs:194-198 | `FileOpenDialog::new` / `FileSaveDialog::new`. It errors on a failed `create_instance` and panics on a null pointer. Otherwise it returns a fresh dialog handle of the requested kind. |
| `ShellObjects.GetResult` | src/shobjidl.rs:147-156 | It errors on a failed call and panics on a null pointer after success. Otherwise it returns a fresh, unreleased shell item. |
| `ShellObjects.HandOverItem` | src/shobjidl.rs:72-82 | Whatever the status, the item ends `Disarmed` with no local release. The result is the status check. |
| `ShellObjects.SetDefaultFolder` | src/shobjidl.rs:72-82 | Consumes the shell item without a local `Release`, on success and on failure. |
| `ShellObjects.SetFolder` | src/shobjidl.rs:85-95 | Consumes the shell item without a local `Release`, on success and on failure. |
| `ShellObjects.ShellItemLifetime` | src/shobjidl.rs:394-400 | A shell item that goes out of scope receives one `Release`. If it was first handed to `set_default_folder` it receives none. |
| `ShellObjects.FileFilters.New` | src/shobjidl.rs:259-264 | An empty list: `len() == 0`, `is_empty()` holds, and the invariant holds. |
| `ShellObjects.FileFilters.WithCapacity` | src/shobjidl.rs:267-272 | An empty list: `len() == 0`, `is_empty()` holds, and the invariant holds. |
| `ShellObjects.FileFilters.Len` | src/shobjidl.rs:275-277 | The descriptor count equals the number of stored pairs. |
| `ShellObjects.FileFilters.IsEmpty` | src/shobjidl.rs:280-282 | Holds exactly when nothing is stored. |
| `ShellObjects.FileFilters.AsPtr` | src/shobjidl.rs:285-287 | One descriptor per stored pair. The name and spec pointers of descriptor `i` lead to the valid wide strings of storage pair `i`. |
| `ShellObjects.FileFilters.AddFilter` | src/shobjidl.rs:290-302 | Appends exactly one descriptor and one storage pair. Earlier entries are unchanged, `len` grows by one, and the lock-step invariant is kept. |
| `ShellObjects.SetFiletypes` | src/shobjidl.rs:101-133 | Panics when the count does not fit in a `u32`. Otherwise it passes exactly `len()` and the descriptor array, and returns the status check. |
| `ShellObjects.TomlFilter` | src/lib.rs:88-91 | Adding `"toml"` / `"*.toml"` once gives `len() == 1`, and descriptor 0 leads back to both strings. |
| `ShellObjects.ToSigdn` | src/shobjidl.rs:443-458 | Total over the ten variants. Each code decodes back to its variant through the reverse table. |
| `ShellObjects.SigdnInjective` | src/shobjidl.rs:443-458 | Distinct display-name types get distinct `SIGDN` codes. |
| `ShellObjects.SigdnOnto` | src/shobjidl.rs:443-458 | Every code in the reverse table is the translation of its variant. |
| `ShellObjects.GetDisplayName` | src/shobjidl.rs:377-391 | Requests the translated `SIGDN`. It errors on failure and panics on a null pointer after success. It returns the pointer exactly when the call succeeded with a non-null pointer. |
| `FileApi.Initial` | src/fileapi.rs:13-16 | No call has been made yet. The first call is told `MAX_PATH` units, and the allocation holds exactly `MAX_PATH` units. |
| `FileApi.AcceptedFits` | src/fileapi.rs:27-29 | An accepted return always leaves room for `set_len(size + 1)` inside the allocation. |
| `FileApi.Finish` | src/fileapi.rs:27-40 | Resolves exactly when `file_part` is null or not before the buffer and the first `size + 1` units validate. The path is those units. The filename index is the byte offset halved, or `None` for a null `file_part`. Every other case panics: an offset before the buffer with the underflow reason, and a failed validation with the interior-nul reason. |
| `FileApi.Run` | src/fileapi.rs:17-45 | Never makes more calls than the budget allows. |
| `FileApi.NextState` | src/fileapi.rs:43-44 | After "too small", the next call is told the returned size. |
| `FileApi.AcceptPath` | src/fileapi.rs:28-40 | The accepting branch computes exactly `Finish` on the buffer the resolver wrote. |
| `FileApi.GetFullPathName` | src/fileapi.rs:12-46 | The imperative loop, as written, computes exactly `Run` with the `size < MAX_PATH` test from the initial buffer. |
| `FileApi.CallsFrom` | src/fileapi.rs:17-45 | Induction step of the call count: from any reachable state before call `n`, the loop finishes after call `n`. |
| `FileApi.ExactlyNPlusOneCalls` | src/fileapi.rs:17-45 | A resolver that is "too small" `n` times and then returns a usable length leads to exactly `n + 1` calls. The loop ends resolved or with one of its panics, never with an OS error. |
| `FileApi.ZeroIsError` | src/fileapi.rs:22-24 | A return of 0 ends the loop with the last error and no string. |
| `FileApi.TooSmallRetries` | src/fileapi.rs:43-44 | On "too small" the next call is told the returned size, and the allocation has grown to hold at least that many units. |
| `FileApi.DocumentedPathValidates` | src/fileapi.rs:39 | The buffer the documented resolver fills passes `from_vec_with_nul` as the full path plus its terminator. |
| `FileApi.FinishDocumented` | src/fileapi.rs:27-40 | Accepting the documented reply yields the full path and the filename's unit index. |
| `FileApi.ShortPathResolvesInOneCall` | src/fileapi.rs:17-41 | Under either test, a full path shorter than `MAX_PATH` resolves in one call. |
| `FileApi.AsWrittenNeverEndsOnLongPath` | src/fileapi.rs:27 | As written, a full path of `MAX_PATH` units or more never resolves under the documented behaviour. Every call budget runs out. |
| `FileApi.CorrectedResolvesLongPath` | src/fileapi.rs:27 | With the return compared against the buffer length it was told, such a path resolves in exactly two calls. |

## Left out

- The COM and Win32 calls themselves are not modelled. These are `Show`, `SetFileTypes`, `SetFileName`, `GetResult`, `create_instance`, `SHCreateItemFromParsingName`, `SHCreateItemFromIDList`, `GetDisplayName`, `GetFullPathNameW`, `ILCreateFromPathW` and `ILFree`. Each is an oracle: its status, out-pointer or reply is a parameter.
- `show` and `set_filename` are not modelled as separate operations. They only forward a status, and `CheckHr` is exactly that forwarding.
- `ShellItem::from_path`, `from_parsing_name` and `from_id_list` are not modelled as separate operations. Their null check is the one `Wrap` models. `ItemIdList` and `CoTaskMemWideString` are foreign allocators from another crate.
- The `transmute`-based `Deref` between dialog types is memory-layout reinterpretation. The model uses one `ComPtr` class whose `iface` field selects the capability.
- The foreign side's own reference handling after a hand-off is not modelled. The model only shows that the wrapper never releases the handed-over item.
- `CWideStr::as_ptr` and `from_wide_with_nul_unchecked` are not modelled: pointer identity is not represented. The `CWideStr` subset type plays the role of the unchecked view.
- `chars`, the `Debug` impls and the `Display` impls wrap `decode_utf16`, `escape_debug` and formatting. They are not modelled.
- The `OsStr`, `Path` and `&str` inputs depend on `encode_wide`. The units it yields are an arbitrary input (`EncodedSource`).
- The `src/lib.rs` builders and the DPI `Once` helper are UI plumbing and process-global initialisation.
- Raw pointers are not addresses. A descriptor's pointer is the storage entry it points into (`BufferRef`). `file_part` is a byte offset from the buffer start.
- `FileApi.GetFullPathName` takes a call budget `maxCalls`, because the source loop has no bound. Running out of the budget gives `Unfinished`, which stands for "the loop goes on".
- The `u32` to `usize` `try_into` at `src/fileapi.rs:26` cannot fail on Windows targets. The resolver's return may be any natural number.
- The `file_part - path.as_ptr()` subtraction is modelled as a panic when it would underflow, which is what a debug build does. A release build would wrap instead.
- Spare, uninitialised vector memory is modelled as zeros. A new allocation keeps the old units.
- `FileFilters::with_capacity`'s capacity only affects allocation. The model does not record it.
- Thread confinement and the once-only COM initialisation are concurrency concerns. They are not modelled.

## Findings

| source | as written | input that shows it | evidently intended | confidence | as-written member | corrected member |
|---|---|---|---|---|---|---|
| src/fileapi.rs:27 | A call's return ends the loop only when it is below the constant `MAX_PATH` (260). | Any input whose full path has 260 or more units, e.g. a `\\?\C:\` path of 300 units. Under the documented behaviour of `GetFullPathNameW` the calls return 301 (too small), then 300 (success, but still at least 260), then 301 again, alternating forever. | Accept a return below the buffer length passed to that call. Such a return is the length of a path that was copied in full. | medium (not executed; relies on the documented return convention of `GetFullPathNameW`) | `FileApi.AsWrittenNeverEndsOnLongPath` | `FileApi.CorrectedResolvesLongPath` |
