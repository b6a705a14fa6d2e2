/**
 * The crate root's helpers: scanning NULL-terminated pointer arrays, reading
 * C strings (borrowed or owned), and the iterator over a NULL-terminated
 * array that every list accessor of the binding returns.
 *
 * A C pointer to a `T` is an `Option<T>` holding the pointee (`None` is
 * NULL); a NULL-terminated array of pointers is a `seq<Option<T>>` that
 * holds a `None` somewhere.
 */
module Lib {
  import opened Wrappers
  import opened CTypes

  // ---------------------------------------------------------------------
  // NULL-terminated pointer arrays
  // ---------------------------------------------------------------------

  /** The array holds a NULL entry, so a scan for it stays in bounds. */
  predicate NullTerminated<T>(entries: seq<Option<T>>) {
    exists i :: 0 <= i < |entries| && entries[i].None?
  }

  /** Index of the first NULL entry: the number of entries the list holds. */
  function FirstNull<T>(entries: seq<Option<T>>): (n: nat)
    requires NullTerminated(entries)
    ensures n < |entries| && entries[n].None?
    ensures forall i :: 0 <= i < n ==> entries[i].Some?
  {
    if entries[0].None? then 0
    else
      var k :| 0 <= k < |entries| && entries[k].None?;
      assert entries[1..][k - 1].None?;
      1 + FirstNull(entries[1..])
  }

  /** The pointees of the entries before the first NULL, in order. */
  function NonNullPrefix<T>(entries: seq<Option<T>>): (prefix: seq<T>)
    requires NullTerminated(entries)
    ensures |prefix| == FirstNull(entries)
    ensures forall i :: 0 <= i < |prefix| ==> entries[i] == Some(prefix[i])
  {
    FromRawParts(entries, FirstNull(entries))
  }

  /** `slice::from_raw_parts(entries, len)` over pointers known to be non-NULL. */
  function FromRawParts<T>(entries: seq<Option<T>>, len: nat): (slice: seq<T>)
    requires len <= |entries|
    requires forall i :: 0 <= i < len ==> entries[i].Some?
    ensures |slice| == len
    ensures forall i :: 0 <= i < len ==> entries[i] == Some(slice[i])
  {
    seq(len, i requires 0 <= i < len => entries[i].value)
  }

  /**
   * The `let mut len = 0; while !(*ptr.offset(len)).is_null() { len += 1 }`
   * scan that the slice accessors run before building their slice.
   */
  method NullTerminatedLen<T>(entries: seq<Option<T>>) returns (len: nat)
    requires NullTerminated(entries)
    ensures len == FirstNull(entries)
    ensures len < |entries| && entries[len].None?
    ensures forall i :: 0 <= i < len ==> entries[i].Some?
  {
    len := 0;
    while entries[len].Some?
      invariant len <= FirstNull(entries)
      invariant forall i :: 0 <= i < len ==> entries[i].Some?
      decreases FirstNull(entries) - len
    {
      len := len + 1;
    }
  }

  /** A slice accessor: scan for the NULL, then take the non-NULL entries before it. */
  method SliceUntilNull<T>(entries: seq<Option<T>>) returns (slice: seq<T>)
    requires NullTerminated(entries)
    ensures slice == NonNullPrefix(entries)
    ensures |slice| == FirstNull(entries)
    ensures forall i :: 0 <= i < |slice| ==> entries[i] == Some(slice[i])
  {
    var len := NullTerminatedLen(entries);
    slice := FromRawParts(entries, len);
  }

  /** `f` applied to every element, in order. */
  function MapSeq<A, B>(f: A -> B, s: seq<A>): (r: seq<B>)
    ensures |r| == |s|
    ensures forall i :: 0 <= i < |s| ==> r[i] == f(s[i])
  {
    seq(|s|, i requires 0 <= i < |s| => f(s[i]))
  }

  // ---------------------------------------------------------------------
  // C strings
  // ---------------------------------------------------------------------

  /** The memory a `*const c_char` points to holds a NUL byte. */
  predicate IsCString(mem: seq<u8>) {
    exists i :: 0 <= i < |mem| && mem[i] == 0
  }

  /** `strlen`: the index of the first NUL byte. */
  function CStrLen(mem: seq<u8>): (n: nat)
    requires IsCString(mem)
    ensures n < |mem| && mem[n] == 0
    ensures forall i :: 0 <= i < n ==> mem[i] != 0
  {
    if mem[0] == 0 then 0
    else
      var k :| 0 <= k < |mem| && mem[k] == 0;
      assert mem[1..][k - 1] == 0;
      1 + CStrLen(mem[1..])
  }

  /**
   * `string_from_ffi_ptr`: `None` for NULL, otherwise the bytes of the C
   * string, up to and not including its NUL.
   */
  function StringFromFfiPtr(ptr: Option<seq<u8>>): (s: Option<seq<u8>>)
    requires ptr.Some? ==> IsCString(ptr.value)
    ensures s.None? <==> ptr.None?
    ensures s.Some? ==> s.value == ptr.value[..CStrLen(ptr.value)]
    ensures s.Some? ==> forall i :: 0 <= i < |s.value| ==> s.value[i] != 0
  {
    match ptr
    case None => None
    case Some(mem) => Some(mem[..CStrLen(mem)])
  }

  /** A `*mut c_char` the library allocated for the caller: NULL or an address. */
  datatype CPtr = Null | Addr(addr: nat)

  /**
   * The C heap, as far as the strings the library hands over with ownership
   * are concerned: which of them are still allocated.
   */
  class CHeap {
    /** The allocated C strings owned by the caller, by address. */
    var owned: map<nat, seq<u8>>
    /** An address no string has been given yet. */
    var nextAddr: nat

    ghost predicate Valid()
      reads this
    {
      forall a :: a in owned ==> a < nextAddr && IsCString(owned[a])
    }

    constructor ()
      ensures Valid() && owned == map[]
    {
      owned := map[];
      nextAddr := 0;
    }

    /** What `ptr` points to: NULL, or the string at its address. */
    function Deref(ptr: CPtr): Option<seq<u8>>
      reads this
      requires ptr.Addr? ==> ptr.addr in owned
    {
      if ptr.Null? then None else Some(owned[ptr.addr])
    }

    /**
     * A library call that returns a newly allocated copy of a string, or
     * NULL when there is none (`di_info_get_make` and its siblings).
     */
    method Strdup(s: Option<seq<u8>>) returns (ptr: CPtr)
      requires Valid()
      requires s.Some? ==> IsCString(s.value)
      modifies this
      ensures Valid()
      ensures ptr.Null? <==> s.None?
      ensures ptr.Addr? ==> ptr.addr !in old(owned) && owned == old(owned)[ptr.addr := s.value]
      ensures ptr.Null? ==> owned == old(owned)
      ensures Deref(ptr) == s
    {
      if s.None? {
        ptr := Null;
      } else {
        ptr := Addr(nextAddr);
        owned := owned[nextAddr := s.value];
        nextAddr := nextAddr + 1;
      }
    }

    /** `libc::free` on a string the caller owns. */
    method Free(ptr: CPtr)
      requires Valid()
      requires ptr.Addr? && ptr.addr in owned
      modifies this
      ensures Valid()
      ensures owned == old(owned) - {ptr.addr}
    {
      owned := owned - {ptr.addr};
    }
  }

  /**
   * `string_from_owned_ffi_ptr`: the same result as `string_from_ffi_ptr`,
   * and the string is freed exactly when that result is `Some`.
   */
  method StringFromOwnedFfiPtr(heap: CHeap, ptr: CPtr) returns (s: Option<seq<u8>>)
    requires heap.Valid()
    requires ptr.Addr? ==> ptr.addr in heap.owned
    modifies heap
    ensures heap.Valid()
    ensures s == StringFromFfiPtr(old(heap.Deref(ptr)))
    ensures s.Some? ==> heap.owned == old(heap.owned) - {ptr.addr}
    ensures s.None? ==> heap.owned == old(heap.owned)
  {
    s := StringFromFfiPtr(heap.Deref(ptr));
    if s.Some? {
      heap.Free(ptr);
    }
  }

  // ---------------------------------------------------------------------
  // FFIIter
  // ---------------------------------------------------------------------

  /**
   * `FFIIter`: a cursor over a NULL-terminated array of pointers to raw
   * records, converting each record it passes with `T::from`.
   */
  class FfiIter<F, T> {
    /** The array the base pointer points to, or `None` for a NULL base pointer. */
    const base: Option<seq<Option<F>>>
    /** `T::from`. */
    const convert: F -> T
    /** How many entries `ptr` has advanced past the base. */
    var cursor: nat

    ghost predicate Valid()
      reads this
    {
      && (base.None? ==> cursor == 0)
      && (base.Some? ==> NullTerminated(base.value) && cursor <= FirstNull(base.value))
    }

    /** The items the coming calls of `next` yield, in order. */
    ghost function Remaining(): seq<T>
      reads this
      requires Valid()
    {
      if base.None? then [] else MapSeq(convert, NonNullPrefix(base.value)[cursor..])
    }

    /** `FFIIter::new`. */
    constructor (ptr: Option<seq<Option<F>>>, convert: F -> T)
      requires ptr.Some? ==> NullTerminated(ptr.value)
      ensures Valid() && base == ptr && this.convert == convert && cursor == 0
      ensures Remaining() == if ptr.None? then [] else MapSeq(convert, NonNullPrefix(ptr.value))
    {
      base := ptr;
      this.convert := convert;
      cursor := 0;
    }

    /**
     * `Iterator::next`: `None` at a NULL base or at the NULL entry, without
     * moving; otherwise the converted entry at the cursor, moving one entry on.
     */
    method Next() returns (item: Option<T>)
      requires Valid()
      modifies this
      ensures Valid()
      ensures old(Remaining()) == [] ==> item.None? && cursor == old(cursor)
      ensures old(Remaining()) != [] ==> item == Some(old(Remaining())[0]) && cursor == old(cursor) + 1
      ensures Remaining() == if old(Remaining()) == [] then [] else old(Remaining())[1..]
      ensures item.None? ==> Remaining() == []
    {
      if base.None? || base.value[cursor].None? {
        item := None;
      } else {
        item := Some(convert(base.value[cursor].value));
        cursor := cursor + 1;
      }
    }
  }
}
