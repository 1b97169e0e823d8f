/**
 * The shell-object wrappers: reference-counted COM handles that release
 * exactly once or are disarmed when their reference is handed to the
 * dialog, the capability layers of the dialogs, the file-filter list whose
 * descriptor array points into its own storage, and the display-name
 * translation.  Every foreign call is an oracle: its status code and
 * out-pointer are parameters.
 */
module ShellObjects {
  import opened Wrappers
  import opened CWideStrings

  // ----- Status codes and out-pointers -----

  /** `FAILED(hr)`: an `HRESULT` reports failure when it is negative. */
  predicate Failed(hr: int) {
    hr < 0
  }

  /** The tail shared by every capability call: a failed status becomes `Err(HResult::from(hr))`. */
  function CheckHr(hr: int): (r: Result<(), int>)
    ensures r.Ok? <==> !Failed(hr)
    ensures r.Err? ==> r.error == hr
  {
    if Failed(hr) then Err(hr) else Ok(())
  }

  /**
   * A foreign call that returns a status and fills an out-pointer (`ptr`, 0
   * for null): a failure is an error, a null pointer after success panics,
   * and otherwise the pointer is wrapped.
   */
  function WrapOutPointer(hr: int, ptr: nat): (r: Outcome<Result<nat, int>>)
    ensures r == Returned(Err(hr)) <==> Failed(hr)
    ensures r == Panicked(NullPointer) <==> !Failed(hr) && ptr == 0
    ensures r.Returned? && r.value.Ok? <==> !Failed(hr) && ptr != 0
    ensures r.Returned? && r.value.Ok? ==> r.value.value == ptr
  {
    if Failed(hr) then Returned(Err(hr))
    else if ptr == 0 then Panicked(NullPointer)
    else Returned(Ok(ptr))
  }

  // ----- Handles -----

  /** The COM interface a wrapper's pointer has. */
  datatype Interface = IModalWindow | IFileDialog | IFileOpenDialog | IFileSaveDialog | IShellItem

  /** The file-dialog capability: `set_default_folder`, `set_folder`, `set_filetypes`, `get_result`. */
  predicate IsFileDialog(i: Interface) {
    i == IFileDialog || i == IFileOpenDialog || i == IFileSaveDialog
  }

  /** The modal-window capability, `show`: every dialog has it, a shell item does not. */
  predicate IsModalWindow(i: Interface) {
    i == IModalWindow || IsFileDialog(i)
  }

  /** The foreign object a pointer refers to; it counts the `Release` calls it receives. */
  class ComObject {
    var releaseCalls: nat

    constructor ()
      ensures releaseCalls == 0
    {
      releaseCalls := 0;
    }
  }

  /** The wrapper's life: it ends released by its destructor or disarmed by a hand-off. */
  datatype HandleState = Unreleased | Released | Disarmed

  /**
   * A `NonNull` COM pointer wrapper (`ModalWindow`, `FileDialog`,
   * `FileOpenDialog`, `FileSaveDialog`, `ShellItem`).  The dialog layers share
   * one handle and differ only in `iface`; `releases` counts this wrapper's
   * own `Release` calls.
   */
  class ComPtr {
    const iface: Interface
    const target: ComObject
    var state: HandleState
    ghost var releases: nat

    /** A wrapper has released once if it is released, and never otherwise. */
    ghost predicate Valid()
      reads this
    {
      releases == if state == Released then 1 else 0
    }

    /** `Self(ptr)`, after the pointer was checked to be non-null. */
    constructor (iface: Interface, target: ComObject)
      ensures Valid() && state == Unreleased
      ensures this.iface == iface && this.target == target
    {
      this.iface := iface;
      this.target := target;
      state := Unreleased;
      releases := 0;
    }

    /**
     * `Drop`: releases the reference exactly once.  The destructor of a
     * forgotten wrapper never runs, so on a disarmed wrapper it does nothing.
     */
    method Drop()
      requires Valid() && state != Released
      modifies this, target
      ensures Valid()
      ensures old(state) == Unreleased ==>
                state == Released && target.releaseCalls == old(target.releaseCalls) + 1
      ensures old(state) == Disarmed ==>
                state == Disarmed && target.releaseCalls == old(target.releaseCalls)
    {
      if state == Unreleased {
        target.releaseCalls := target.releaseCalls + 1;
        state := Released;
        releases := 1;
      }
    }

    /** `mem::forget`: the reference now belongs to the foreign side and is never released here. */
    method Forget()
      requires Valid() && state == Unreleased
      modifies this
      ensures Valid() && state == Disarmed && releases == 0
    {
      state := Disarmed;
    }
  }

  /** Wraps a pointer a foreign call returned with `hr`; a null pointer after success panics. */
  method Wrap(iface: Interface, hr: int, ptr: nat, obj: ComObject) returns (r: Outcome<Result<ComPtr, int>>)
    ensures r.Panicked? <==> WrapOutPointer(hr, ptr).Panicked?
    ensures r.Panicked? ==> r.reason == NullPointer
    ensures (r.Returned? && r.value.Err?) <==> Failed(hr)
    ensures r.Returned? && r.value.Err? ==> r.value.error == hr
    ensures r.Returned? && r.value.Ok? ==>
              var h := r.value.value;
              fresh(h) && h.Valid() && h.state == Unreleased && h.iface == iface && h.target == obj
  {
    var w := WrapOutPointer(hr, ptr);
    if w.Panicked? {
      r := Panicked(w.reason);
    } else if w.value.Err? {
      r := Returned(Err(w.value.error));
    } else {
      var h := new ComPtr(iface, obj);
      r := Returned(Ok(h));
    }
  }

  datatype DialogKind = OpenDialog | SaveDialog

  /** The interface `create_instance` is asked for: `CLSID_FileOpenDialog` or `CLSID_FileSaveDialog`. */
  function DialogInterface(kind: DialogKind): (i: Interface)
    ensures IsFileDialog(i) && IsModalWindow(i)
    ensures i != IFileDialog && i != IModalWindow
    ensures kind == OpenDialog <==> i == IFileOpenDialog
    ensures kind == SaveDialog <==> i == IFileSaveDialog
  {
    match kind
    case OpenDialog => IFileOpenDialog
    case SaveDialog => IFileSaveDialog
  }

  /** `FileOpenDialog::new` / `FileSaveDialog::new`: `create_instance` returned `hr` and `ptr`. */
  method NewDialog(kind: DialogKind, hr: int, ptr: nat, obj: ComObject) returns (r: Outcome<Result<ComPtr, int>>)
    ensures r.Panicked? <==> !Failed(hr) && ptr == 0
    ensures (r.Returned? && r.value.Err?) <==> Failed(hr)
    ensures r.Returned? && r.value.Err? ==> r.value.error == hr
    ensures r.Returned? && r.value.Ok? ==>
              var h := r.value.value;
              fresh(h) && h.Valid() && h.state == Unreleased && h.iface == DialogInterface(kind) && h.target == obj
  {
    r := Wrap(DialogInterface(kind), hr, ptr, obj);
  }

  /** `FileDialog::get_result`: `GetResult` returned `hr` and filled `ptr`; the result is a new shell item. */
  method GetResult(dialog: ComPtr, hr: int, ptr: nat, obj: ComObject) returns (r: Outcome<Result<ComPtr, int>>)
    requires IsFileDialog(dialog.iface) && dialog.state == Unreleased
    ensures r.Panicked? <==> !Failed(hr) && ptr == 0
    ensures (r.Returned? && r.value.Err?) <==> Failed(hr)
    ensures r.Returned? && r.value.Err? ==> r.value.error == hr
    ensures r.Returned? && r.value.Ok? ==>
              var h := r.value.value;
              fresh(h) && h.Valid() && h.state == Unreleased && h.iface == IShellItem && h.target == obj
  {
    r := Wrap(IShellItem, hr, ptr, obj);
  }

  /**
   * The common body of `set_default_folder` and `set_folder`: the foreign
   * call returned `hr`, and whatever it reported the item is forgotten, never
   * released here.
   */
  method HandOverItem(dialog: ComPtr, item: ComPtr, hr: int) returns (r: Result<(), int>)
    requires IsFileDialog(dialog.iface) && dialog.state == Unreleased
    requires item.iface == IShellItem && item.Valid() && item.state == Unreleased
    modifies item
    ensures r == CheckHr(hr)
    ensures item.Valid() && item.state == Disarmed && item.releases == 0
    ensures item.target.releaseCalls == old(item.target.releaseCalls)
  {
    item.Forget();
    r := CheckHr(hr);
  }

  /** `FileDialog::set_default_folder`: consumes the shell item without a local release. */
  method SetDefaultFolder(dialog: ComPtr, item: ComPtr, hr: int) returns (r: Result<(), int>)
    requires IsFileDialog(dialog.iface) && dialog.state == Unreleased
    requires item.iface == IShellItem && item.Valid() && item.state == Unreleased
    modifies item
    ensures r == CheckHr(hr)
    ensures item.Valid() && item.state == Disarmed && item.releases == 0
    ensures item.target.releaseCalls == old(item.target.releaseCalls)
  {
    r := HandOverItem(dialog, item, hr);
  }

  /** `FileDialog::set_folder`: consumes the shell item without a local release. */
  method SetFolder(dialog: ComPtr, item: ComPtr, hr: int) returns (r: Result<(), int>)
    requires IsFileDialog(dialog.iface) && dialog.state == Unreleased
    requires item.iface == IShellItem && item.Valid() && item.state == Unreleased
    modifies item
    ensures r == CheckHr(hr)
    ensures item.Valid() && item.state == Disarmed && item.releases == 0
    ensures item.target.releaseCalls == old(item.target.releaseCalls)
  {
    r := HandOverItem(dialog, item, hr);
  }

  /**
   * The whole life of one shell item next to a dialog: created, optionally
   * handed to `set_default_folder`, then going out of scope.  The foreign
   * object sees one local `Release` without the hand-off and none with it.
   */
  method ShellItemLifetime(handOff: bool, hr: int) returns (releaseCalls: nat)
    ensures releaseCalls == if handOff then 0 else 1
  {
    var dialogObject := new ComObject();
    var dialog := new ComPtr(IFileOpenDialog, dialogObject);
    var itemObject := new ComObject();
    var item := new ComPtr(IShellItem, itemObject);
    if handOff {
      var _ := SetDefaultFolder(dialog, item, hr);
    }
    item.Drop();
    releaseCalls := itemObject.releaseCalls;
  }

  // ----- File filters -----

  /** `Cow<'s, CWideStr>`: a borrowed view or an owned string. */
  datatype CowWideStr = Borrowed(view: CWideStr) | Owned(owned: CWideString)

  /** The string a `Cow` dereferences to; the buffer does not move when the `Cow` does. */
  function CowDeref(c: CowWideStr): CWideStr {
    match c
    case Borrowed(s) => s
    case Owned(o) => AsCWideStr(o)
  }

  /** A raw `PCWSTR` in a descriptor, as the storage entry whose buffer it points at. */
  datatype BufferRef = NameOf(entry: nat) | SpecOf(entry: nat)

  /** `COMDLG_FILTERSPEC { pszName, pszSpec }`. */
  datatype FilterSpec = FilterSpec(pszName: BufferRef, pszSpec: BufferRef)

  /** `FileFilters`: the descriptor array handed to `SetFileTypes` and the strings it points into. */
  class FileFilters {
    var filters: seq<FilterSpec>
    var storage: seq<(CowWideStr, CowWideStr)>

    /** Both vectors have the same length and descriptor `i` points at storage pair `i`. */
    ghost predicate Valid()
      reads this
    {
      |filters| == |storage| &&
      forall i :: 0 <= i < |filters| ==> filters[i] == FilterSpec(NameOf(i), SpecOf(i))
    }

    /** `FileFilters::new`. */
    constructor New()
      ensures Valid() && storage == [] && Len() == 0 && IsEmpty()
    {
      filters := [];
      storage := [];
    }

    /** `FileFilters::with_capacity`; the capacity only affects allocation. */
    constructor WithCapacity(cap: nat)
      ensures Valid() && storage == [] && Len() == 0 && IsEmpty()
    {
      filters := [];
      storage := [];
    }

    /** `len`: the number of descriptors, which is the number of stored pairs. */
    function Len(): (n: nat)
      reads this
      requires Valid()
      ensures n == |storage|
    {
      |filters|
    }

    /** `is_empty`: no filter has been added. */
    function IsEmpty(): (b: bool)
      reads this
      requires Valid()
      ensures b <==> |storage| == 0
    {
      |filters| == 0
    }

    /** Follows a descriptor pointer to the string it points at, if it points into the storage. */
    function Deref(p: BufferRef): Option<CWideStr>
      reads this
    {
      if p.entry < |storage| then
        Some(if p.NameOf? then CowDeref(storage[p.entry].0) else CowDeref(storage[p.entry].1))
      else None
    }

    /** `as_ptr`: the descriptors; each points at a valid string held in the matching storage pair. */
    function AsPtr(): (d: seq<FilterSpec>)
      reads this
      requires Valid()
      ensures |d| == |storage|
      ensures forall i :: 0 <= i < |d| ==>
                Deref(d[i].pszName) == Some(CowDeref(storage[i].0)) &&
                Deref(d[i].pszSpec) == Some(CowDeref(storage[i].1))
    {
      filters
    }

    /** `add_filter`: one descriptor and one storage pair, appended in lock-step. */
    method AddFilter(name: CowWideStr, filter: CowWideStr)
      requires Valid()
      modifies this
      ensures Valid()
      ensures storage == old(storage) + [(name, filter)]
      ensures filters == old(filters) + [FilterSpec(NameOf(|old(filters)|), SpecOf(|old(filters)|))]
      ensures Len() == old(Len()) + 1
    {
      filters := filters + [FilterSpec(NameOf(|filters|), SpecOf(|filters|))];
      storage := storage + [(name, filter)];
    }
  }

  /** Number of values of a `u32`. */
  const U32_LIMIT: nat := 0x1_0000_0000

  /** What `SetFileTypes` receives: the count and the descriptor array. */
  datatype FileTypesCall = FileTypesCall(count: nat, specs: seq<FilterSpec>)

  /**
   * `FileDialog::set_filetypes`: panics when the filter count does not fit
   * in a `u32`, otherwise passes exactly `len()` descriptors to the foreign
   * call, which returned `hr`.
   */
  method SetFiletypes(dialog: ComPtr, filters: FileFilters, hr: int) returns (r: Outcome<Result<(), int>>, call: Option<FileTypesCall>)
    requires IsFileDialog(dialog.iface) && dialog.state == Unreleased
    requires filters.Valid()
    ensures filters.Len() >= U32_LIMIT ==> r == Panicked(LengthTooLongForU32) && call == None
    ensures filters.Len() < U32_LIMIT ==>
              r == Returned(CheckHr(hr)) && call == Some(FileTypesCall(filters.Len(), filters.AsPtr()))
  {
    var len := filters.Len();
    if len >= U32_LIMIT {
      r, call := Panicked(LengthTooLongForU32), None;
    } else {
      call := Some(FileTypesCall(len, filters.AsPtr()));
      r := Returned(CheckHr(hr));
    }
  }

  /** `"toml"` as `encode_wide` yields it. */
  const TOML: seq<bv16> := [0x74, 0x6F, 0x6D, 0x6C]

  /** `"*.toml"` as `encode_wide` yields it. */
  const STAR_DOT_TOML: seq<bv16> := [0x2A, 0x2E, 0x74, 0x6F, 0x6D, 0x6C]

  /**
   * The builder's path for one filter: `"toml"` and `"*.toml"` through
   * `CWideString::new`, added once; the list then has one entry whose
   * descriptor leads back to both strings.
   */
  method TomlFilter() returns (count: nat, name: seq<bv16>, spec: seq<bv16>)
    ensures count == 1
    ensures name == TOML && spec == STAR_DOT_TOML
  {
    var filters := new FileFilters.New();
    var nameUnits, specUnits := TOML, STAR_DOT_TOML;
    var n := New(EncodedSource(nameUnits));
    var f := New(EncodedSource(specUnits));
    // neither `expect("... contained an interior NUL")` can fire
    assert n.Ok? && f.Ok?;
    filters.AddFilter(Owned(n.value), Owned(f.value));
    var d := filters.AsPtr();
    count := filters.Len();
    name := AsSlice(filters.Deref(d[0].pszName).value);
    spec := AsSlice(filters.Deref(d[0].pszSpec).value);
  }

  // ----- Display names -----

  /** `DisplayNameType`: the forms of a shell item's name. */
  datatype DisplayNameType =
    | NormalDisplay
    | ParentRelativeParsing
    | DesktopAbsoluteParsing
    | ParentRelativeEditing
    | DesktopAbsoluteEditing
    | FileSysPath
    | Url
    | ParentRelativeForAddressBar
    | ParentRelative
    | ParentRelativeForUi

  const SIGDN_NORMALDISPLAY: bv32 := 0x0000_0000
  const SIGDN_PARENTRELATIVEPARSING: bv32 := 0x8001_8001
  const SIGDN_DESKTOPABSOLUTEPARSING: bv32 := 0x8002_8000
  const SIGDN_PARENTRELATIVEEDITING: bv32 := 0x8003_1001
  const SIGDN_DESKTOPABSOLUTEEDITING: bv32 := 0x8004_C000
  const SIGDN_FILESYSPATH: bv32 := 0x8005_8000
  const SIGDN_URL: bv32 := 0x8006_8000
  const SIGDN_PARENTRELATIVEFORADDRESSBAR: bv32 := 0x8007_C001
  const SIGDN_PARENTRELATIVE: bv32 := 0x8008_0001
  const SIGDN_PARENTRELATIVEFORUI: bv32 := 0x8009_4001

  /** `From<DisplayNameType> for SIGDN`; every variant maps to a code that decodes back to it. */
  function ToSigdn(d: DisplayNameType): (r: bv32)
    ensures FromSigdn(r) == Some(d)
  {
    match d
    case NormalDisplay => SIGDN_NORMALDISPLAY
    case ParentRelativeParsing => SIGDN_PARENTRELATIVEPARSING
    case DesktopAbsoluteParsing => SIGDN_DESKTOPABSOLUTEPARSING
    case ParentRelativeEditing => SIGDN_PARENTRELATIVEEDITING
    case DesktopAbsoluteEditing => SIGDN_DESKTOPABSOLUTEEDITING
    case FileSysPath => SIGDN_FILESYSPATH
    case Url => SIGDN_URL
    case ParentRelativeForAddressBar => SIGDN_PARENTRELATIVEFORADDRESSBAR
    case ParentRelative => SIGDN_PARENTRELATIVE
    case ParentRelativeForUi => SIGDN_PARENTRELATIVEFORUI
  }

  /** The reverse table, an independent reference for the translation. */
  function FromSigdn(x: bv32): Option<DisplayNameType> {
    if x == SIGDN_NORMALDISPLAY then Some(NormalDisplay)
    else if x == SIGDN_PARENTRELATIVEPARSING then Some(ParentRelativeParsing)
    else if x == SIGDN_DESKTOPABSOLUTEPARSING then Some(DesktopAbsoluteParsing)
    else if x == SIGDN_PARENTRELATIVEEDITING then Some(ParentRelativeEditing)
    else if x == SIGDN_DESKTOPABSOLUTEEDITING then Some(DesktopAbsoluteEditing)
    else if x == SIGDN_FILESYSPATH then Some(FileSysPath)
    else if x == SIGDN_URL then Some(Url)
    else if x == SIGDN_PARENTRELATIVEFORADDRESSBAR then Some(ParentRelativeForAddressBar)
    else if x == SIGDN_PARENTRELATIVE then Some(ParentRelative)
    else if x == SIGDN_PARENTRELATIVEFORUI then Some(ParentRelativeForUi)
    else None
  }

  /** Distinct display-name types map to distinct `SIGDN` codes. */
  lemma SigdnInjective(a: DisplayNameType, b: DisplayNameType)
    requires ToSigdn(a) == ToSigdn(b)
    ensures a == b
  {
    assert Some(a) == FromSigdn(ToSigdn(a)) == FromSigdn(ToSigdn(b)) == Some(b);
  }

  /** Every code the reverse table accepts is the translation of what it decodes to. */
  lemma SigdnOnto(x: bv32)
    requires FromSigdn(x).Some?
    ensures ToSigdn(FromSigdn(x).value) == x
  {
  }

  /**
   * `ShellItem::get_display_name`: asks `GetDisplayName` for the translated
   * form, which returned `hr` and filled `ptr`; a null pointer after success
   * panics.
   */
  method GetDisplayName(item: ComPtr, d: DisplayNameType, hr: int, ptr: nat) returns (requested: bv32, r: Outcome<Result<nat, int>>)
    requires item.iface == IShellItem && item.state == Unreleased
    ensures FromSigdn(requested) == Some(d)
    ensures r == Returned(Err(hr)) <==> Failed(hr)
    ensures r == Panicked(NullPointer) <==> !Failed(hr) && ptr == 0
    ensures r == Returned(Ok(ptr)) <==> !Failed(hr) && ptr != 0
  {
    requested := ToSigdn(d);
    r := WrapOutPointer(hr, ptr);
  }
}
