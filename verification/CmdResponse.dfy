/** Requests and responses over the TLV codec: prepare_payload(), the command table and the dispatcher. */
module CmdResponse {
  import opened Bytes
  import opened TlvCodec

  const REQ_ID: byte := 1
  const USER_ROLE: byte := 2
  const STATUS: byte := 3
  const TIMESTAMP: byte := 4
  const CMD: byte := 5
  const DATA: byte := 6

  const STATUS_SUCCESS: byte := 0
  const STATUS_FAILED: byte := 1
  const STATUS_CMD_INVALID: byte := 2
  const STATUS_AUTH_FAIL: byte := 3
  const STATUS_NOT_FOUND: byte := 4

  const REQ_ID_LEN: nat := 32

  type u16 = n: int | 0 <= n < 0x10000

  /** put_u16_le() and get_u16_le(). */
  function PutU16(n: u16): bytes { [n % 256, n / 256] }

  function GetU16(b: bytes): u16
    requires |b| == 2
  {
    b[0] as int + b[1] as int * 256
  }

  // ---------------------------------------------------------------- prepare_payload()

  function Part(present: bool, t: byte, val: bytes): bytes { if present then Encode(t, val) else [] }

  function PartSize(present: bool, n: nat): nat { if present then EncodedSize(n) else 0 }

  function Id(reqId: Option<bytes>): bytes { if reqId.Some? then reqId.value else [] }

  /** The TLVs of a payload, in order. */
  function Payload(reqId: Option<bytes>, role: byte, status: byte, cmd: u16, data: bytes): bytes {
    Part(reqId.Some?, REQ_ID, Id(reqId))
    + (Part(role != 0, USER_ROLE, [role])
       + (Part(true, STATUS, [status])
          + (Part(true, CMD, PutU16(cmd))
             + Part(data != [], DATA, data))))
  }

  /** The size prepare_payload() allocates. */
  function PayloadSize(reqId: Option<bytes>, role: byte, data: bytes): nat {
    PartSize(reqId.Some?, |Id(reqId)|) + PartSize(role != 0, 1) + PartSize(true, 1) + PartSize(true, 2)
    + PartSize(data != [], |data|)
  }

  /** What add_tlv() needs, in terms of the size function. */
  lemma RoomSuffices(val: bytes, room: nat)
    requires room >= EncodedSize(|val|)
    ensures |val| + 2 <= room && |Encode(0, val)| <= room
  {
    EncodeSize(0, val);
    assert |val| == |val| / CHUNK * CHUNK + |val| % CHUNK;
  }

  lemma {:induction false} EncodeLength(t: byte, u: byte, val: bytes)
    ensures |Encode(t, val)| == |Encode(u, val)|
  {
    EncodeSize(t, val);
    EncodeSize(u, val);
  }

  /** add_tlv() with room for the encoded size: it cannot fail. */
  method AddPart(tlv: TlvData, present: bool, t: byte, val: bytes)
    requires tlv.Valid() && PartSize(present, |val|) <= tlv.size - tlv.cur
    modifies tlv`cur, tlv.buf
    ensures tlv.Valid() && tlv.Written() == old(tlv.Written()) + Part(present, t, val)
    ensures tlv.cur - old(tlv.cur) <= PartSize(present, |val|)
  {
    if present {
      RoomSuffices(val, tlv.size - tlv.cur);
      EncodeLength(t, 0, val);
      EncodeSize(t, val);
      var r, overrun := tlv.AddTlv(t, val);
    }
  }

  /** The request id and the role, each only when given. */
  method AddFront(tlv: TlvData, reqId: Option<bytes>, role: byte)
    requires tlv.Valid() && PartSize(reqId.Some?, |Id(reqId)|) + PartSize(role != 0, 1) <= tlv.size - tlv.cur
    modifies tlv`cur, tlv.buf
    ensures tlv.Valid()
    ensures tlv.Written() == old(tlv.Written()) + Part(reqId.Some?, REQ_ID, Id(reqId)) + Part(role != 0, USER_ROLE, [role])
    ensures tlv.cur - old(tlv.cur) <= PartSize(reqId.Some?, |Id(reqId)|) + PartSize(role != 0, 1)
  {
    AddPart(tlv, reqId.Some?, REQ_ID, Id(reqId));
    AddPart(tlv, role != 0, USER_ROLE, [role]);
  }

  /** The status and command, and the data when there is some. */
  method AddBack(tlv: TlvData, status: byte, cmd: u16, data: bytes)
    requires tlv.Valid() && PartSize(true, 1) + PartSize(true, 2) + PartSize(data != [], |data|) <= tlv.size - tlv.cur
    modifies tlv`cur, tlv.buf
    ensures tlv.Valid()
    ensures tlv.Written() == old(tlv.Written()) + Part(true, STATUS, [status]) + Part(true, CMD, PutU16(cmd)) + Part(data != [], DATA, data)
  {
    AddPart(tlv, true, STATUS, [status]);
    AddPart(tlv, true, CMD, PutU16(cmd));
    AddPart(tlv, data != [], DATA, data);
  }

  lemma Associate(a: bytes, b: bytes, c: bytes, d: bytes, e: bytes)
    ensures [] + a + b + c + d + e == a + (b + (c + (d + e)))
  {
  }

  /** prepare_payload(): never fails for space, never writes past its allocation; the output is the
      allocation's first len bytes. */
  method PreparePayload(reqId: Option<bytes>, role: byte, status: byte, cmd: u16, data: bytes)
    returns (output: array<byte>, len: nat)
    ensures fresh(output) && output.Length == PayloadSize(reqId, role, data) && len <= output.Length
    ensures output[..len] == Payload(reqId, role, status, cmd, data)
  {
    var size := PayloadSize(reqId, role, data);
    output := new byte[size];
    var tlv := new TlvData(output, size);
    AddFront(tlv, reqId, role);
    AddBack(tlv, status, cmd, data);
    len := tlv.cur;
    Associate(Part(reqId.Some?, REQ_ID, Id(reqId)), Part(role != 0, USER_ROLE, [role]), Part(true, STATUS, [status]),
              Part(true, CMD, PutU16(cmd)), Part(data != [], DATA, data));
  }

  /** A payload on the wire: type, length and value of each field, the command with its low byte first. */
  lemma PayloadExample()
    ensures Payload(Some([65, 66]), 4, 2, 0x0102, [7, 8, 9])
         == [1, 2, 65, 66] + [2, 1, 4] + [3, 1, 2] + [5, 2, 2, 1] + [6, 3, 7, 8, 9]
    ensures Payload(None, 0, 0, 0x1234, []) == [3, 1, 0] + [5, 2, 0x34, 0x12]
  {
    Small(1, [65, 66]);
    Small(2, [4]);
    Small(3, [2]);
    Small(3, [0]);
    Small(5, [2, 1]);
    Small(5, [0x34, 0x12]);
    Small(6, [7, 8, 9]);
  }

  lemma Small(t: byte, val: bytes)
    requires 0 < |val| <= CHUNK
    ensures Encode(t, val) == [t, |val|] + val
  {
  }

  // ---------------------------------------------------------------- reading a payload

  /** What a payload holds for a type. */
  function Field(reqId: Option<bytes>, role: byte, status: byte, cmd: u16, data: bytes, u: byte): Option<bytes> {
    if u == REQ_ID then reqId
    else if u == USER_ROLE then (if role != 0 then Some([role]) else None)
    else if u == STATUS then Some([status])
    else if u == CMD then Some(PutU16(cmd))
    else if u == DATA then (if data != [] then Some(data) else None)
    else None
  }

  /** A part in front of parts of higher types: no value runs on into the next. */
  lemma PartReads(present: bool, t: byte, val: bytes, rest: bytes, u: byte)
    requires WellFormed(rest) && (rest != [] ==> rest[0] > t)
    ensures var p := Part(present, t, val) + rest;
      && WellFormed(p) && (p != [] ==> p[0] >= t)
      && FirstValue(p, u) == if present && u == t then Some(val) else FirstValue(rest, u)
  {
    if present {
      ReadEncode(t, val, rest, u);
    } else {
      assert [] + rest == rest;
    }
  }

  /** Reading a payload gives back every field, and None for the ones left out. */
  lemma PayloadReads(reqId: Option<bytes>, role: byte, status: byte, cmd: u16, data: bytes, u: byte)
    ensures WellFormed(Payload(reqId, role, status, cmd, data))
    ensures FirstValue(Payload(reqId, role, status, cmd, data), u) == Field(reqId, role, status, cmd, data, u)
  {
    var e := Part(data != [], DATA, data);
    PartReads(data != [], DATA, data, [], u);
    assert e + [] == e;
    PartReads(true, CMD, PutU16(cmd), e, u);
    var d := Part(true, CMD, PutU16(cmd)) + e;
    PartReads(true, STATUS, [status], d, u);
    var c := Part(true, STATUS, [status]) + d;
    PartReads(role != 0, USER_ROLE, [role], c, u);
    PartReads(reqId.Some?, REQ_ID, Id(reqId), Part(role != 0, USER_ROLE, [role]) + c, u);
  }

  // ---------------------------------------------------------------- the command table

  datatype CmdCtx = CmdCtx(cmd: u16, reqId: bytes, role: byte, timestamp: int)

  datatype HandlerResult = NotFinished | Done(response: bytes) | Failed

  type Handler = (bytes, CmdCtx) -> HandlerResult

  datatype CmdInfo = CmdInfo(cmd: u16, access: byte, handler: Handler)

  type Table = seq<Option<CmdInfo>>

  datatype TableError = Exists | NoSpace | NotRegistered

  predicate Holds(t: Table, i: nat, cmd: u16) {
    i < |t| && t[i].Some? && t[i].value.cmd == cmd
  }

  /** get_cmd_info(): the first slot that holds the command. */
  function Find(t: Table, cmd: u16): Option<CmdInfo> {
    if t == [] then None
    else if t[0].Some? && t[0].value.cmd == cmd then t[0]
    else Find(t[1..], cmd)
  }

  lemma {:induction false} FindIs(t: Table, cmd: u16, i: nat)
    requires Holds(t, i, cmd) && forall k :: 0 <= k < i ==> !Holds(t, k, cmd)
    ensures Find(t, cmd) == t[i]
  {
    if i > 0 {
      assert !Holds(t, 0, cmd);
      forall k | 0 <= k < i - 1
        ensures !Holds(t[1..], k, cmd)
      {
        assert !Holds(t, k + 1, cmd);
      }
      FindIs(t[1..], cmd, i - 1);
    }
  }

  lemma {:induction false} FindNone(t: Table, cmd: u16)
    requires forall k :: 0 <= k < |t| ==> !Holds(t, k, cmd)
    ensures Find(t, cmd) == None
  {
    if t != [] {
      assert !Holds(t, 0, cmd);
      forall k | 0 <= k < |t| - 1
        ensures !Holds(t[1..], k, cmd)
      {
        assert !Holds(t, k + 1, cmd);
      }
      FindNone(t[1..], cmd);
    }
  }

  /** No command is registered twice. */
  ghost predicate OneSlotEach(t: Table) {
    forall i, j, cmd: u16 :: Holds(t, i, cmd) && Holds(t, j, cmd) ==> i == j
  }

  /** ESP_RMAKER_GET_USER_ROLE(role) & access: one of the four base roles is in both. */
  predicate Permitted(access: byte, role: byte) {
    || (access % 2 == 1 && role % 2 == 1)
    || (access / 2 % 2 == 1 && role / 2 % 2 == 1)
    || (access / 4 % 2 == 1 && role / 4 % 2 == 1)
    || (access / 8 % 2 == 1 && role / 8 % 2 == 1)
  }

  /** Bitwise and. */
  function And(a: nat, b: nat): nat {
    if a == 0 || b == 0 then 0 else (if a % 2 == 1 && b % 2 == 1 then 1 else 0) + 2 * And(a / 2, b / 2)
  }

  /** access & (role & 0x0F) is not zero. */
  lemma PermittedIsMask(access: byte, role: byte)
    ensures Permitted(access, role) <==> And(access, And(role, 0x0F)) != 0
  {
    var m := And(role, 0x0F);
    LowBits(role);
    AndLow(access, m);
  }

  lemma AndLow(a: nat, m: nat)
    requires m < 16
    ensures And(a, m) != 0 <==>
      || (a % 2 == 1 && m % 2 == 1) || (a / 2 % 2 == 1 && m / 2 % 2 == 1)
      || (a / 2 / 2 % 2 == 1 && m / 2 / 2 % 2 == 1) || (a / 2 / 2 / 2 % 2 == 1 && m / 2 / 2 / 2 % 2 == 1)
  {
    AndBit(a, m);
    AndBit(a / 2, m / 2);
    AndBit(a / 2 / 2, m / 2 / 2);
    AndBit(a / 2 / 2 / 2, m / 2 / 2 / 2);
  }

  lemma AndBit(a: nat, b: nat)
    ensures And(a, b) != 0 <==> (a % 2 == 1 && b % 2 == 1) || And(a / 2, b / 2) != 0
  {
  }

  lemma LowBits(role: byte)
    ensures var m := And(role, 0x0F);
      && m < 16 && m % 2 == role % 2 && m / 2 % 2 == role / 2 % 2 && m / 4 % 2 == role / 4 % 2 && m / 8 % 2 == role / 8 % 2
  {
    assert And(role / 16, 0) == 0;
    assert And(role / 8, 1) == role / 8 % 2;
    assert And(role / 4, 3) == role / 4 % 2 + 2 * And(role / 8, 1);
    assert And(role / 2, 7) == role / 2 % 2 + 2 * And(role / 4, 3);
    assert And(role, 15) == role % 2 + 2 * And(role / 2, 7);
    Halves(role % 2, And(role / 2, 7));
    Halves(role / 2 % 2, And(role / 4, 3));
    Halves(role / 4 % 2, And(role / 8, 1));
  }

  lemma Halves(bit: nat, rest: nat)
    requires bit < 2
    ensures (bit + 2 * rest) % 2 == bit && (bit + 2 * rest) / 2 == rest
  {
  }

  // ---------------------------------------------------------------- the dispatcher, as a function

  /** strlen() of what a zeroed buffer of cap bytes holds after reading the field. */
  function CString(v: bytes): (r: bytes)
    ensures r <= v && 0 !in r && (|r| < |v| ==> v[|r|] == 0)
  {
    if v == [] || v[0] == 0 then [] else [v[0]] + CString(v[1..])
  }

  /** A field read into a zeroed buffer of n bytes: unreadable ones leave it zero. */
  function ReadInto(input: bytes, t: byte, n: nat): (r: bytes)
    requires WellFormed(input)
    ensures |r| == n
  {
    match FirstValue(input, t)
    case Some(v) => if |v| <= n then v + seq(n - |v|, _ => 0) else seq(n, _ => 0)
    case None => seq(n, _ => 0)
  }

  function Timestamp(input: bytes): int
    requires WellFormed(input)
  {
    match FirstValue(input, TIMESTAMP)
    case Some(v) => if |v| == 4 then v[0] as int + v[1] as int * 0x100 + v[2] as int * 0x10000 + v[3] as int * 0x1000000 else 0
    case None => 0
  }

  /** The timestamp is read from four bytes, the lowest first; a value of another length counts as none. */
  lemma TimestampIs(input: bytes)
    requires WellFormed(input)
    ensures match FirstValue(input, 4)
      case None => Timestamp(input) == 0
      case Some(v) =>
        if |v| != 4 then Timestamp(input) == 0
        else
          var n := Timestamp(input);
          && n % 256 == v[0] && n / 256 % 256 == v[1] && n / 256 / 256 % 256 == v[2] && n / 256 / 256 / 256 == v[3]
  {
    match FirstValue(input, TIMESTAMP)
    case None =>
    case Some(v) =>
      if |v| == 4 {
        var high := v[2] as int + 256 * v[3] as int;
        var middle := v[1] as int + 256 * high;
        LowByte(v[0], middle);
        LowByte(v[1], high);
        LowByte(v[2], v[3]);
        assert Timestamp(input) == v[0] as int + 256 * middle;
      }
  }

  lemma LowByte(low: byte, rest: nat)
    ensures (low as int + 256 * rest) % 256 == low && (low as int + 256 * rest) / 256 == rest
  {
  }

  /** The command context the dispatcher parses. */
  function Context(input: bytes): CmdCtx
    requires WellFormed(input)
  {
    CmdCtx(GetU16(ReadInto(input, CMD, 2)), CString(ReadInto(input, REQ_ID, REQ_ID_LEN)), ReadInto(input, USER_ROLE, 1)[0],
           Timestamp(input))
  }

  /** Output None is a deferred response; call is what the handler received, if it was called. */
  datatype Dispatched = Dispatched(output: Option<bytes>, call: Option<(bytes, CmdCtx)>)

  function Reply(ctx: CmdCtx, status: byte, response: bytes): bytes {
    Payload(Some(ctx.reqId), 0, status, ctx.cmd, response)
  }

  /** response_handler(). */
  function Dispatch(t: Table, input: bytes): Dispatched
    requires WellFormed(input)
  {
    var ctx := Context(input);
    if ctx.reqId == [] || ctx.role == 0 || ctx.cmd == 0 then Dispatched(Some(Reply(ctx, STATUS_CMD_INVALID, [])), None)
    else
      match Find(t, ctx.cmd)
      case None => Dispatched(Some(Reply(ctx, STATUS_NOT_FOUND, [])), None)
      case Some(info) =>
        if !Permitted(info.access, ctx.role) then Dispatched(Some(Reply(ctx, STATUS_AUTH_FAIL, [])), None)
        else
          var data := match FirstValue(input, DATA) case Some(v) => v case None => [];
          var output := match info.handler(data, ctx)
            case NotFinished => None
            case Done(response) => Some(Reply(ctx, STATUS_SUCCESS, response))
            case Failed => Some(Reply(ctx, STATUS_FAILED, []));
          Dispatched(output, Some((data, ctx)))
  }

  // ---------------------------------------------------------------- the class

  class Commands {
    const list: array<Option<CmdInfo>>

    ghost predicate Valid()
      reads this, list
    {
      OneSlotEach(list[..])
    }

    constructor (max: nat)
      ensures Valid() && fresh(list) && list.Length == max
      ensures forall i :: 0 <= i < max ==> list[i] == None
    {
      var l := new Option<CmdInfo>[max](_ => None);
      list := l;
    }

    /** cmd_register(): refused for a command already there or a full table; else it takes the first
        free slot and can be found from then on, as can every other. */
    method Register(info: CmdInfo) returns (r: Result<nat, TableError>)
      requires Valid()
      modifies list
      ensures Valid()
      ensures r == Err(Exists) <==> exists i :: Holds(old(list[..]), i, info.cmd)
      ensures r == Err(NoSpace) ==> forall i :: 0 <= i < list.Length ==> old(list[i]).Some?
      ensures r != Err(NotRegistered)
      ensures r.Err? ==> list[..] == old(list[..])
      ensures r.Ok? ==> r.value < list.Length && old(list[r.value]) == None
      ensures r.Ok? ==> list[..] == old(list[..])[r.value := Some(info)]
    {
      for i := 0 to list.Length
        invariant forall k :: 0 <= k < i ==> !Holds(list[..], k, info.cmd)
        invariant list[..] == old(list[..])
      {
        if list[i].Some? && list[i].value.cmd == info.cmd {
          assert Holds(list[..], i, info.cmd);
          return Err(Exists);
        }
      }
      for i := 0 to list.Length
        invariant forall k :: 0 <= k < i ==> list[k].Some?
        invariant list[..] == old(list[..])
      {
        if list[i].None? {
          ghost var was := list[..];
          list[i] := Some(info);
          assert list[..] == was[i := Some(info)];
          NewSlot(was, i, info);
          return Ok(i);
        }
      }
      r := Err(NoSpace);
    }

    /** cmd_deregister(). */
    method Deregister(cmd: u16) returns (r: Result<nat, TableError>)
      requires Valid()
      modifies list
      ensures Valid()
      ensures r.Err? <==> forall i :: !Holds(old(list[..]), i, cmd)
      ensures r.Err? ==> list[..] == old(list[..])
      ensures r.Ok? ==> Holds(old(list[..]), r.value, cmd) && list[..] == old(list[..])[r.value := None]
    {
      for i := 0 to list.Length
        invariant forall k :: 0 <= k < i ==> !Holds(list[..], k, cmd)
        invariant list[..] == old(list[..])
      {
        if list[i].Some? && list[i].value.cmd == cmd {
          ghost var was := list[..];
          assert Holds(was, i, cmd);
          list[i] := None;
          assert list[..] == was[i := None];
          FreeSlot(was, i);
          return Ok(i);
        }
      }
      r := Err(NotRegistered);
    }

    /** get_cmd_info(). */
    method GetCmdInfo(cmd: u16) returns (r: Option<CmdInfo>)
      ensures r == Find(list[..], cmd)
    {
      for i := 0 to list.Length
        invariant forall k :: 0 <= k < i ==> !Holds(list[..], k, cmd)
      {
        if list[i].Some? && list[i].value.cmd == cmd {
          FindIs(list[..], cmd, i);
          return list[i];
        }
      }
      FindNone(list[..], cmd);
      r := None;
    }

    /** The mandatory and optional fields of a request. */
    method ParseContext(input: bytes) returns (ctx: CmdCtx)
      requires WellFormed(input)
      ensures ctx == Context(input)
    {
      var reqId := ReadField(input, REQ_ID, REQ_ID_LEN);
      var role := ReadField(input, USER_ROLE, 1);
      var cmd := ReadField(input, CMD, 2);
      var ts := new byte[4](_ => 0);
      var n := GetValueFromTlv(input, TIMESTAMP, ts);
      var timestamp := 0;
      if n == 4 {
        assert ts[..4] == FirstValue(input, TIMESTAMP).value;
        timestamp := ts[0] as int + ts[1] as int * 0x100 + ts[2] as int * 0x10000 + ts[3] as int * 0x1000000;
      }
      ctx := CmdCtx(GetU16(cmd), CString(reqId), role[0], timestamp);
    }

    /** response_handler(). */
    method ResponseHandler(input: bytes) returns (r: Dispatched)
      requires WellFormed(input)
      ensures r == Dispatch(list[..], input)
    {
      var ctx := ParseContext(input);
      if ctx.reqId == [] || ctx.role == 0 || ctx.cmd == 0 {
        var output := BuildReply(ctx, STATUS_CMD_INVALID, []);
        return Dispatched(Some(output), None);
      }
      var info := GetCmdInfo(ctx.cmd);
      if info.None? {
        var output := BuildReply(ctx, STATUS_NOT_FOUND, []);
        return Dispatched(Some(output), None);
      }
      if !Permitted(info.value.access, ctx.role) {
        var output := BuildReply(ctx, STATUS_AUTH_FAIL, []);
        return Dispatched(Some(output), None);
      }
      var data := ReadData(input);
      r := CallHandler(info.value, data, ctx);
    }

    method CallHandler(info: CmdInfo, data: bytes, ctx: CmdCtx) returns (r: Dispatched)
      ensures r.call == Some((data, ctx))
      ensures r.output == match info.handler(data, ctx)
        case NotFinished => None
        case Done(response) => Some(Reply(ctx, STATUS_SUCCESS, response))
        case Failed => Some(Reply(ctx, STATUS_FAILED, []))
    {
      match info.handler(data, ctx) {
        case NotFinished =>
          r := Dispatched(None, Some((data, ctx)));
        case Done(response) =>
          var output := BuildReply(ctx, STATUS_SUCCESS, response);
          r := Dispatched(Some(output), Some((data, ctx)));
        case Failed =>
          var output := BuildReply(ctx, STATUS_FAILED, []);
          r := Dispatched(Some(output), Some((data, ctx)));
      }
    }
  }

  lemma NewSlot(t: Table, i: nat, info: CmdInfo)
    requires OneSlotEach(t) && i < |t| && forall k :: 0 <= k < |t| ==> !Holds(t, k, info.cmd)
    ensures OneSlotEach(t[i := Some(info)])
  {
    var u := t[i := Some(info)];
    forall a, b, cmd: u16 | Holds(u, a, cmd) && Holds(u, b, cmd)
      ensures a == b
    {
      assert a != i ==> Holds(t, a, cmd);
      assert b != i ==> Holds(t, b, cmd);
    }
  }

  lemma FreeSlot(t: Table, i: nat)
    requires OneSlotEach(t) && i < |t|
    ensures OneSlotEach(t[i := None])
  {
    var u := t[i := None];
    forall a, b, cmd: u16 | Holds(u, a, cmd) && Holds(u, b, cmd)
      ensures a == b
    {
      assert Holds(t, a, cmd) && Holds(t, b, cmd);
    }
  }

  method BuildReply(ctx: CmdCtx, status: byte, response: bytes) returns (output: bytes)
    ensures output == Reply(ctx, status, response)
  {
    var buf, len := PreparePayload(Some(ctx.reqId), 0, status, ctx.cmd, response);
    output := buf[..len];
  }

  method ReadField(input: bytes, t: byte, n: nat) returns (r: bytes)
    requires WellFormed(input) && n < CHUNK
    ensures r == ReadInto(input, t, n)
  {
    var buf := new byte[n](_ => 0);
    var len := GetValueFromTlv(input, t, buf);
    r := buf[..];
    if len >= 0 {
      assert r[..len] == FirstValue(input, t).value;
      assert r == r[..len] + r[len..];
    }
  }

  /** The data field, read into a buffer of the length asked for first. */
  method ReadData(input: bytes) returns (data: bytes)
    requires WellFormed(input)
    ensures data == match FirstValue(input, DATA) case Some(v) => v case None => []
  {
    var n := GetTlvLength(input, DATA);
    if n > 0 {
      var buf := new byte[n];
      var len := GetValueFromTlv(input, DATA, buf);
      data := buf[..len];
    } else {
      data := [];
    }
  }

  // ---------------------------------------------------------------- requests and responses

  /** A request id a C string of the context's size can hold. */
  predicate GoodReqId(id: bytes) { 0 < |id| < REQ_ID_LEN && 0 !in id }

  lemma {:induction false} CStringOf(id: bytes, pad: nat)
    requires 0 !in id && pad > 0
    ensures CString(id + seq(pad, _ => 0)) == id
  {
    if id == [] {
      assert (id + seq(pad, _ => 0))[0] == 0;
    } else {
      assert id[0] in id && id == [id[0]] + id[1..];
      assert (id + seq(pad, _ => 0))[1..] == id[1..] + seq(pad, _ => 0);
      CStringOf(id[1..], pad);
    }
  }

  lemma U16RoundTrip(n: u16)
    ensures GetU16(PutU16(n)) == n
  {
  }

  lemma RequestContext(id: bytes, role: byte, status: byte, cmd: u16, data: bytes)
    requires GoodReqId(id) && role != 0
    ensures var p := Payload(Some(id), role, status, cmd, data); WellFormed(p) && Context(p) == CmdCtx(cmd, id, role, 0)
  {
    var p := Payload(Some(id), role, status, cmd, data);
    PayloadReads(Some(id), role, status, cmd, data, REQ_ID);
    PayloadReads(Some(id), role, status, cmd, data, USER_ROLE);
    PayloadReads(Some(id), role, status, cmd, data, CMD);
    PayloadReads(Some(id), role, status, cmd, data, TIMESTAMP);
    CStringOf(id, REQ_ID_LEN - |id|);
    U16RoundTrip(cmd);
    assert PutU16(cmd) + seq(0, _ => 0) == PutU16(cmd);
  }

  /** The status a request must get: 4 not found, 3 not authorised, 0 success, 1 failed. */
  function ExpectedStatus(t: Table, id: bytes, role: byte, cmd: u16, data: bytes): byte {
    match Find(t, cmd)
    case None => 4
    case Some(info) =>
      if !Permitted(info.access, role) then 3
      else if info.handler(data, CmdCtx(cmd, id, role, 0)).Done? then 0
      else 1
  }

  /** A request through the dispatcher: the handler is called exactly when registered and permitted,
      with exactly the data sent, whatever its length; and the response, unless deferred, decodes to
      the same request id and command, the status the table and the handler decide, the handler's
      response as data, and no role. */
  lemma RoundTrip(t: Table, id: bytes, role: byte, status: byte, cmd: u16, data: bytes)
    requires GoodReqId(id) && role != 0 && cmd != 0
    ensures var p := Payload(Some(id), role, status, cmd, data); var ctx := CmdCtx(cmd, id, role, 0);
      && WellFormed(p)
      && var d := Dispatch(t, p); var info := Find(t, cmd);
      && (d.call == if info.Some? && Permitted(info.value.access, role) then Some((data, ctx)) else None)
      && (d.output.None? <==> d.call.Some? && info.value.handler(data, ctx).NotFinished?)
      && (d.output.Some? ==>
            && WellFormed(d.output.value)
            && FirstValue(d.output.value, REQ_ID) == Some(id)
            && FirstValue(d.output.value, CMD) == Some(PutU16(cmd))
            && FirstValue(d.output.value, STATUS) == Some([ExpectedStatus(t, id, role, cmd, data)])
            && FirstValue(d.output.value, USER_ROLE) == None
            && FirstValue(d.output.value, DATA)
               == (if d.call.Some? && info.value.handler(data, ctx).Done? && info.value.handler(data, ctx).response != []
                   then Some(info.value.handler(data, ctx).response) else None))
  {
    RequestContext(id, role, status, cmd, data);
    PayloadReads(Some(id), role, status, cmd, data, DATA);
    var ctx := CmdCtx(cmd, id, role, 0);
    var d := Dispatch(t, Payload(Some(id), role, status, cmd, data));
    if d.output.Some? {
      var response := if d.call.Some? && Find(t, cmd).value.handler(data, ctx).Done?
        then Find(t, cmd).value.handler(data, ctx).response else [];
      ReplyReads(ctx, ExpectedStatus(t, id, role, cmd, data), response);
    }
  }

  lemma ReplyReads(ctx: CmdCtx, status: byte, response: bytes)
    ensures var r := Reply(ctx, status, response);
      && WellFormed(r)
      && FirstValue(r, REQ_ID) == Some(ctx.reqId) && FirstValue(r, CMD) == Some(PutU16(ctx.cmd))
      && FirstValue(r, STATUS) == Some([status]) && FirstValue(r, USER_ROLE) == None
      && FirstValue(r, DATA) == if response != [] then Some(response) else None
  {
    PayloadReads(Some(ctx.reqId), 0, status, ctx.cmd, response, REQ_ID);
    PayloadReads(Some(ctx.reqId), 0, status, ctx.cmd, response, CMD);
    PayloadReads(Some(ctx.reqId), 0, status, ctx.cmd, response, STATUS);
    PayloadReads(Some(ctx.reqId), 0, status, ctx.cmd, response, USER_ROLE);
    PayloadReads(Some(ctx.reqId), 0, status, ctx.cmd, response, DATA);
  }

  /** A request without an id, role or command is answered, never dispatched. */
  lemma IncompleteIsInvalid(t: Table, reqId: Option<bytes>, role: byte, status: byte, cmd: u16, data: bytes)
    requires reqId == None || reqId == Some([]) || role == 0 || cmd == 0
    requires reqId.Some? ==> |reqId.value| < REQ_ID_LEN && 0 !in reqId.value
    ensures var p := Payload(reqId, role, status, cmd, data);
      && WellFormed(p)
      && Dispatch(t, p).call == None && Dispatch(t, p).output.Some?
      && WellFormed(Dispatch(t, p).output.value)
      && FirstValue(Dispatch(t, p).output.value, STATUS) == Some([2])
  {
    var p := Payload(reqId, role, status, cmd, data);
    PayloadReads(reqId, role, status, cmd, data, REQ_ID);
    PayloadReads(reqId, role, status, cmd, data, USER_ROLE);
    PayloadReads(reqId, role, status, cmd, data, CMD);
    if reqId.Some? {
      CStringOf(reqId.value, REQ_ID_LEN - |reqId.value|);
    } else {
      CStringOf([], REQ_ID_LEN);
      assert [] + seq(REQ_ID_LEN, _ => 0) == seq(REQ_ID_LEN, _ => 0);
    }
    U16RoundTrip(cmd);
    assert PutU16(cmd) + seq(0, _ => 0) == PutU16(cmd);
    ReplyReads(Context(p), STATUS_CMD_INVALID, []);
  }
}
