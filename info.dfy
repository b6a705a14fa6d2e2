/**
 * The high-level `Info` handle: parsing an EDID blob, and the accessors
 * that turn NULL pointers and zero values into `Err` or `None`, including
 * the three that take ownership of a C string and free it.
 */
module Info {
  import opened Wrappers
  import opened CTypes
  import opened Ffi
  import opened Lib
  import opened Expanded
  import E = Edid

  /** `ParseFailed`: the C parser rejected the blob. */
  datatype ParseFailed = ParseFailed

  /**
   * `Info::parse_edid`: `Err(ParseFailed)` exactly when the C parser
   * (`parser`, standing for `di_info_parse_edid`) returns NULL.
   */
  function ParseEdid(parser: seq<u8> -> Option<CInfo>, data: seq<u8>): (r: Result<Info, ParseFailed>)
    ensures r.Failure? <==> parser(data).None?
    ensures r.Success? ==> r.value.c == parser(data).value
  {
    var info := parser(data);
    if info.None? then Failure(ParseFailed) else Success(Info(info.value))
  }

  /**
   * A string getter that hands over ownership (`di_info_get_make` and its
   * siblings) followed by `string_from_owned_ffi_ptr`: the caller gets the
   * bytes, and the copy the getter allocated is freed again.
   */
  method TakeOwnedString(heap: CHeap, str: Option<seq<u8>>) returns (s: Option<seq<u8>>)
    requires heap.Valid()
    requires str.Some? ==> IsCString(str.value)
    modifies heap
    ensures heap.Valid()
    ensures s == StringFromFfiPtr(str)
    ensures s.None? <==> str.None?
    ensures heap.owned == old(heap.owned)
  {
    var ptr := heap.Strdup(str);
    s := StringFromOwnedFfiPtr(heap, ptr);
  }

  /** `Info`: a handle on a `di_info`. */
  datatype Info = Info(c: CInfo) {

    /** `failure_msg`: `None` exactly when the C message pointer is NULL; else the bytes before its NUL. */
    function FailureMsg(): (msg: Option<seq<u8>>)
      requires c.failureMsg.Some? ==> IsCString(c.failureMsg.value)
      ensures msg.None? <==> c.failureMsg.None?
      ensures msg.Some? ==> msg.value == c.failureMsg.value[..CStrLen(c.failureMsg.value)]
    {
      StringFromFfiPtr(c.failureMsg)
    }

    /** `edid`: `None` exactly when the `Info` holds no EDID. */
    function Edid(): (e: Option<E.Edid>)
      ensures e.None? <==> c.edid.None?
      ensures e.Some? ==> e.value.c == c.edid.value
    {
      E.EdidFromPtr(c.edid)
    }

    /** `make`: `None` exactly when the C string is NULL; a non-NULL copy is freed after reading. */
    method Make(heap: CHeap) returns (s: Option<seq<u8>>)
      requires heap.Valid()
      requires c.make.Some? ==> IsCString(c.make.value)
      modifies heap
      ensures heap.Valid()
      ensures s == StringFromFfiPtr(c.make)
      ensures heap.owned == old(heap.owned)
    {
      s := TakeOwnedString(heap, c.make);
    }

    /** `model`: `None` exactly when the C string is NULL; a non-NULL copy is freed after reading. */
    method Model(heap: CHeap) returns (s: Option<seq<u8>>)
      requires heap.Valid()
      requires c.model.Some? ==> IsCString(c.model.value)
      modifies heap
      ensures heap.Valid()
      ensures s == StringFromFfiPtr(c.model)
      ensures heap.owned == old(heap.owned)
    {
      s := TakeOwnedString(heap, c.model);
    }

    /** `serial`: `None` exactly when the C string is NULL; a non-NULL copy is freed after reading. */
    method Serial(heap: CHeap) returns (s: Option<seq<u8>>)
      requires heap.Valid()
      requires c.serial.Some? ==> IsCString(c.serial.value)
      modifies heap
      ensures heap.Valid()
      ensures s == StringFromFfiPtr(c.serial)
      ensures heap.owned == old(heap.owned)
    {
      s := TakeOwnedString(heap, c.serial);
    }

    /** `default_gamma`: `None` exactly when the raw value `== 0f32`, else that value unchanged. */
    function DefaultGamma(): (g: Option<F32>)
      ensures g.None? <==> c.defaultGamma == POSITIVE_ZERO || c.defaultGamma == NEGATIVE_ZERO
      ensures g.Some? ==> g.value == c.defaultGamma
    {
      EqualsZeroIffSignedZero(c.defaultGamma);
      OptionalF32(c.defaultGamma, POSITIVE_ZERO)
    }
  }
}
