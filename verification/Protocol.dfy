/** Message bodies: a type byte and little-endian fields. Enum fields are raw bytes here, as on the wire. */
module Protocol {
  import opened Types
  import opened Codec
  import EngineModel

  datatype WireCommand =
    | WireNew(orderId: U64, trader: U64, symbol: U32, side: U8, otype: U8, tif: U8, price: I64, quantity: U64, timestamp: U64)
    | WireCancel(orderId: U64, trader: U64, symbol: U32, timestamp: U64)
    | WireModify(orderId: U64, trader: U64, symbol: U32, newPrice: I64, newQuantity: U64, timestamp: U64)

  const NEW_ORDER: U8 := 0x01
  const CANCEL: U8 := 0x02
  const MODIFY: U8 := 0x03
  const U64_LIMIT := 0x1_0000_0000_0000_0000
  const NEW_ORDER_LAYOUT: seq<nat> := [8, 8, 4, 1, 1, 1, 8, 8, 8]
  const CANCEL_LAYOUT: seq<nat> := [8, 8, 4, 8]
  const MODIFY_LAYOUT: seq<nat> := [8, 8, 4, 8, 8, 8]

  function CommandType(c: WireCommand): U8 {
    match c
    case WireNew(_, _, _, _, _, _, _, _, _) => NEW_ORDER
    case WireCancel(_, _, _, _) => CANCEL
    case WireModify(_, _, _, _, _, _) => MODIFY
  }

  /** The payload layout of each command type; no other type byte is a command. */
  function CommandLayout(t: U8): Option<seq<nat>> {
    if t == NEW_ORDER then Some(NEW_ORDER_LAYOUT)
    else if t == CANCEL then Some(CANCEL_LAYOUT)
    else if t == MODIFY then Some(MODIFY_LAYOUT)
    else None
  }

  function CommandFields(c: WireCommand): seq<nat> {
    match c
    case WireNew(id, tr, sy, si, ty, tif, p, q, ts) => [id, tr, sy, si, ty, tif, AsU64(p), q, ts]
    case WireCancel(id, tr, sy, ts) => [id, tr, sy, ts]
    case WireModify(id, tr, sy, p, q, ts) => [id, tr, sy, AsU64(p), q, ts]
  }

  lemma CommandFits(c: WireCommand)
    ensures var l := CommandLayout(CommandType(c)); l.Some? && Fit(l.value, CommandFields(c))
  {
    hide Pow256;
    Widths();
  }

  function CommandOf(t: U8, ws: seq<nat>, vs: seq<nat>): WireCommand
    requires CommandLayout(t) == Some(ws) && Fit(ws, vs)
  {
    Widths();
    if t == NEW_ORDER then WireNew(vs[0], vs[1], vs[2], vs[3], vs[4], vs[5], AsI64(vs[6]), vs[7], vs[8])
    else if t == CANCEL then WireCancel(vs[0], vs[1], vs[2], vs[3])
    else WireModify(vs[0], vs[1], vs[2], AsI64(vs[3]), vs[4], vs[5])
  }

  function EncodeCommand(c: WireCommand): seq<U8> {
    CommandFits(c);
    [CommandType(c)] + WriteFields(CommandLayout(CommandType(c)).value, CommandFields(c))
  }

  /** Nothing for an empty body, an unknown type byte or a short payload; bytes after the payload are ignored. */
  function DecodeCommand(body: seq<U8>): Option<WireCommand> {
    if body == [] then None
    else
      DecodePayload(body[0], body[1..])
  }

  function DecodePayload(t: U8, payload: seq<U8>): Option<WireCommand> {
    var ws :- CommandLayout(t);
    var vs :- ReadFields(ws, payload);
    ReadFit(ws, payload);
    Some(CommandOf(t, ws, vs))
  }

  lemma CommandOfFields(c: WireCommand)
    ensures var l := CommandLayout(CommandType(c));
            l.Some? && Fit(l.value, CommandFields(c)) && CommandOf(CommandType(c), l.value, CommandFields(c)) == c
  {
    CommandFits(c);
  }

  lemma FieldsOfCommand(t: U8, ws: seq<nat>, vs: seq<nat>)
    requires CommandLayout(t) == Some(ws) && Fit(ws, vs)
    ensures var c := CommandOf(t, ws, vs); CommandType(c) == t && CommandFields(c) == vs
  {
    hide Pow256;
    Widths();
  }

  /** Decoding an encoded command, with anything after it, gives the command back: all field values, negative prices too. */
  lemma CommandRoundTrip(c: WireCommand, more: seq<U8>)
    ensures DecodeCommand(EncodeCommand(c) + more) == Some(c)
  {
    hide CommandLayout, CommandFields, CommandOf, Fit, WriteFields, ReadFields;
    CommandFits(c);
    var ws, vs := CommandLayout(CommandType(c)).value, CommandFields(c);
    ReadWritten(ws, vs, more);
    CommandOfFields(c);
    var body := EncodeCommand(c) + more;
    assert body[0] == CommandType(c) && body[1..] == WriteFields(ws, vs) + more;
  }

  /** Re-encoding a decoded command gives the front of the body it came from. */
  lemma CommandReEncode(body: seq<U8>)
    requires DecodeCommand(body).Some?
    ensures EncodeCommand(DecodeCommand(body).value) <= body
  {
    hide CommandLayout, CommandFields, CommandOf, CommandType, Fit, WriteFields, ReadFields;
    var ws := CommandLayout(body[0]).value;
    var vs := ReadFields(ws, body[1..]).value;
    ReadFit(ws, body[1..]);
    FieldsOfCommand(body[0], ws, vs);
    WriteRead(ws, body[1..]);
    assert body == [body[0]] + body[1..];
  }

  /** Bytes in a command's body, by type. */
  function BodySize(c: WireCommand): (n: nat)
    ensures 29 <= n <= 48
  {
    match c
    case WireNew(_, _, _, _, _, _, _, _, _) => 48
    case WireCancel(_, _, _, _) => 29
    case WireModify(_, _, _, _, _, _) => 45
  }

  lemma CommandSize(c: WireCommand)
    ensures |EncodeCommand(c)| == BodySize(c)
  {
    hide TotalWidth, WriteFields;
    var ws := CommandLayout(CommandType(c)).value;
    CommandFits(c);
    match c
    case WireNew(_, _, _, _, _, _, _, _, _) => SumOfNine(ws);
    case WireCancel(_, _, _, _) => SumOfFour(ws);
    case WireModify(_, _, _, _, _, _) => SumOfFour(ws[2..]); SumOfTwo(ws);
  }

  /** A body of a command's type and size decodes, whatever its other bytes. */
  lemma SizeDecodes(c: WireCommand, body: seq<U8>)
    requires body != [] && body[0] == CommandType(c) && |body| >= BodySize(c)
    ensures DecodeCommand(body).Some?
  {
    hide TotalWidth, WriteFields, ReadFields, Fit, CommandOf;
    CommandFits(c);
    CommandSize(c);
  }

  lemma SumOfTwo(ws: seq<nat>)
    requires |ws| >= 2
    ensures TotalWidth(ws) == ws[0] + ws[1] + TotalWidth(ws[2..])
  {
    assert ws[1..][1..] == ws[2..];
  }

  lemma SumOfFour(ws: seq<nat>)
    requires |ws| == 4
    ensures TotalWidth(ws) == ws[0] + ws[1] + ws[2] + ws[3]
  {
    SumOfTwo(ws);
    SumOfTwo(ws[2..]);
  }

  lemma SumOfNine(ws: seq<nat>)
    requires |ws| == 9
    ensures TotalWidth(ws) == ws[0] + ws[1] + ws[2] + ws[3] + ws[4] + ws[5] + ws[6] + ws[7] + ws[8]
  {
    SumOfTwo(ws); SumOfTwo(ws[2..]); SumOfTwo(ws[4..]); SumOfTwo(ws[6..]);
    assert ws[2..][2..] == ws[4..] && ws[4..][2..] == ws[6..] && ws[6..][2..] == ws[8..];
    assert ws[8..][1..] == [];
  }

  // ----- The encoder and decoder as they run -----

  /** One write of the encoder: the record is one field further. */
  method WriteNext(w: BufferWriter, ghost front: seq<U8>, ghost ws: seq<nat>, ghost vs: seq<nat>, ghost k: nat, n: nat, v: nat)
    requires Wrote(w.buf, front, ws, vs, k) && k < |ws| == |vs| && n == ws[k] && v == vs[k]
    modifies w
    ensures Wrote(w.buf, front, ws, vs, k + 1)
  {
    hide Wrote, LE;
    WroteNext(w.buf, front, ws, vs, k);
    w.Write(n, v);
  }

  /** EncodeCommand: one write after another. */
  method WriteCommand(c: WireCommand) returns (body: seq<U8>)
    ensures body == EncodeCommand(c)
  {
    hide LE, WriteFields, Wrote, Fit;
    ghost var ws, vs := CommandLayout(CommandType(c)).value, CommandFields(c);
    CommandFits(c);
    FieldCount(c);
    var w := new BufferWriter();
    match c {
      case WireNew(orderId, trader, symbol, side, otype, tif, price, quantity, timestamp) =>
        w.Write(1, NEW_ORDER);
        OneByte(NEW_ORDER);
        WroteStart([NEW_ORDER], ws, vs);
        WriteNext(w, [NEW_ORDER], ws, vs, 0, 8, orderId);
        WriteNext(w, [NEW_ORDER], ws, vs, 1, 8, trader);
        WriteNext(w, [NEW_ORDER], ws, vs, 2, 4, symbol);
        WriteNext(w, [NEW_ORDER], ws, vs, 3, 1, side);
        WriteNext(w, [NEW_ORDER], ws, vs, 4, 1, otype);
        WriteNext(w, [NEW_ORDER], ws, vs, 5, 1, tif);
        WriteNext(w, [NEW_ORDER], ws, vs, 6, 8, AsU64(price));
        WriteNext(w, [NEW_ORDER], ws, vs, 7, 8, quantity);
        WriteNext(w, [NEW_ORDER], ws, vs, 8, 8, timestamp);
        WroteAll(w.buf, [NEW_ORDER], ws, vs);
      case WireCancel(orderId, trader, symbol, timestamp) =>
        w.Write(1, CANCEL);
        OneByte(CANCEL);
        WroteStart([CANCEL], ws, vs);
        WriteNext(w, [CANCEL], ws, vs, 0, 8, orderId);
        WriteNext(w, [CANCEL], ws, vs, 1, 8, trader);
        WriteNext(w, [CANCEL], ws, vs, 2, 4, symbol);
        WriteNext(w, [CANCEL], ws, vs, 3, 8, timestamp);
        WroteAll(w.buf, [CANCEL], ws, vs);
      case WireModify(orderId, trader, symbol, newPrice, newQuantity, timestamp) =>
        w.Write(1, MODIFY);
        OneByte(MODIFY);
        WroteStart([MODIFY], ws, vs);
        WriteNext(w, [MODIFY], ws, vs, 0, 8, orderId);
        WriteNext(w, [MODIFY], ws, vs, 1, 8, trader);
        WriteNext(w, [MODIFY], ws, vs, 2, 4, symbol);
        WriteNext(w, [MODIFY], ws, vs, 3, 8, AsU64(newPrice));
        WriteNext(w, [MODIFY], ws, vs, 4, 8, newQuantity);
        WriteNext(w, [MODIFY], ws, vs, 5, 8, timestamp);
        WroteAll(w.buf, [MODIFY], ws, vs);
    }
    body := w.buf;
  }

  lemma OneByte(b: U8)
    ensures [] + LE(1, b) == [b]
  {
  }

  lemma FieldCount(c: WireCommand)
    ensures |CommandFields(c)| == |CommandLayout(CommandType(c)).value|
  {
  }

  /** One read of the decoder, which learns whether the record goes on. */
  method ReadField(r: BufferReader, ghost start: nat, ghost ws: seq<nat>, ghost vs: seq<nat>, n: nat)
    returns (ok: bool, v: nat, ghost vs': seq<nat>)
    requires ReadSoFar(r.data, start, ws, vs, r.pos) && |vs| < |ws| && n == ws[|vs|]
    modifies r
    ensures ok ==> vs' == vs + [v] && ReadSoFar(r.data, start, ws, vs', r.pos) && r.pos == old(r.pos) + n
    ensures r.pos <= |r.data|
    ensures !ok ==> ReadFields(ws, r.data[start..]) == None
  {
    hide ReadSoFar, ReadFields, Value;
    ReadInside(r.data, start, ws, vs, r.pos);
    ReadNext(r.data, start, ws, vs, r.pos);
    ok, v := r.Read(n);
    vs' := vs + [v];
  }

  lemma ReadInside(data: seq<U8>, start: nat, ws: seq<nat>, vs: seq<nat>, pos: nat)
    requires ReadSoFar(data, start, ws, vs, pos)
    ensures start <= |data| && pos <= |data|
  {
  }

  method ReadThree(r: BufferReader, ghost start: nat, ghost ws: seq<nat>, ghost vs: seq<nat>, n0: nat, n1: nat, n2: nat)
    returns (ok: bool, v0: nat, v1: nat, v2: nat, ghost vs': seq<nat>)
    requires ReadSoFar(r.data, start, ws, vs, r.pos)
    requires |vs| + 3 <= |ws| && ws[|vs|] == n0 && ws[|vs| + 1] == n1 && ws[|vs| + 2] == n2
    modifies r
    ensures ok ==> vs' == vs + [v0, v1, v2] && ReadSoFar(r.data, start, ws, vs', r.pos) && r.pos == old(r.pos) + n0 + n1 + n2
    ensures r.pos <= |r.data|
    ensures !ok ==> ReadFields(ws, r.data[start..]) == None
  {
    hide ReadSoFar, ReadFields;
    v0, v1, v2, vs' := 0, 0, 0, vs;
    ok, v0, vs' := ReadField(r, start, ws, vs', n0); if !ok { return; }
    ok, v1, vs' := ReadField(r, start, ws, vs', n1); if !ok { return; }
    ok, v2, vs' := ReadField(r, start, ws, vs', n2);
  }

  method ReadSix(r: BufferReader, ghost start: nat, ghost ws: seq<nat>, ghost vs: seq<nat>,
                 n0: nat, n1: nat, n2: nat, n3: nat, n4: nat, n5: nat)
    returns (ok: bool, v0: nat, v1: nat, v2: nat, v3: nat, v4: nat, v5: nat, ghost vs': seq<nat>)
    requires ReadSoFar(r.data, start, ws, vs, r.pos) && |vs| + 6 <= |ws|
    requires ws[|vs|] == n0 && ws[|vs| + 1] == n1 && ws[|vs| + 2] == n2
    requires ws[|vs| + 3] == n3 && ws[|vs| + 4] == n4 && ws[|vs| + 5] == n5
    modifies r
    ensures ok ==> vs' == vs + [v0, v1, v2, v3, v4, v5] && ReadSoFar(r.data, start, ws, vs', r.pos)
    ensures ok ==> r.pos == old(r.pos) + n0 + n1 + n2 + n3 + n4 + n5
    ensures !ok ==> ReadFields(ws, r.data[start..]) == None
    ensures r.pos <= |r.data|
  {
    hide ReadSoFar, ReadFields;
    v3, v4, v5 := 0, 0, 0;
    ok, v0, v1, v2, vs' := ReadThree(r, start, ws, vs, n0, n1, n2); if !ok { return; }
    ok, v3, v4, v5, vs' := ReadThree(r, start, ws, vs', n3, n4, n5);
  }

  lemma Layouts()
    ensures var ws := NEW_ORDER_LAYOUT;
            && |ws| == 9 && ws[0] == ws[1] == ws[6] == ws[7] == ws[8] == 8 && ws[2] == 4 && ws[3] == ws[4] == ws[5] == 1
            && CommandLayout(NEW_ORDER) == Some(ws)
    ensures var ws := CANCEL_LAYOUT; |ws| == 4 && ws[0] == ws[1] == ws[3] == 8 && ws[2] == 4 && CommandLayout(CANCEL) == Some(ws)
    ensures var ws := MODIFY_LAYOUT;
            && |ws| == 6 && ws[0] == ws[1] == ws[3] == ws[4] == ws[5] == 8 && ws[2] == 4
            && CommandLayout(MODIFY) == Some(ws)
  {
  }

  method DecodeCancel(r: BufferReader) returns (c: Option<WireCommand>)
    requires r.pos <= |r.data|
    modifies r
    ensures c == DecodePayload(CANCEL, r.data[old(r.pos)..])
  {
    hide ReadSoFar, ReadFields, DecodePayload, AsI64, CANCEL_LAYOUT;
    ghost var ws, start, vs := CANCEL_LAYOUT, r.pos, [];
    Layouts();
    ReadStart(r.data, r.pos, ws);
    var ok, orderId, trader, symbol, timestamp;
    ok, orderId, trader, symbol, vs := ReadThree(r, start, ws, vs, 8, 8, 4); if !ok { CutShort(CANCEL, r.data[start..]); return None; }
    ok, timestamp, vs := ReadField(r, start, ws, vs, 8); if !ok { CutShort(CANCEL, r.data[start..]); return None; }
    ReadAll(r.data, start, ws, vs, r.pos);
    ReadCancel(r.data[start..], vs);
    c := Some(WireCancel(orderId, trader, symbol, timestamp));
  }

  method DecodeNewOrder(r: BufferReader) returns (c: Option<WireCommand>)
    requires r.pos <= |r.data|
    modifies r
    ensures c == DecodePayload(NEW_ORDER, r.data[old(r.pos)..])
  {
    hide ReadSoFar, ReadFields, DecodePayload, AsI64, NEW_ORDER_LAYOUT;
    ghost var ws, start, vs := NEW_ORDER_LAYOUT, r.pos, [];
    Layouts();
    ReadStart(r.data, r.pos, ws);
    var ok, orderId, trader, symbol, side, otype, tif, price, quantity, timestamp;
    ok, orderId, trader, symbol, vs := ReadThree(r, start, ws, vs, 8, 8, 4); if !ok { CutShort(NEW_ORDER, r.data[start..]); return None; }
    ok, side, otype, tif, vs := ReadThree(r, start, ws, vs, 1, 1, 1); if !ok { CutShort(NEW_ORDER, r.data[start..]); return None; }
    ok, price, quantity, timestamp, vs := ReadThree(r, start, ws, vs, 8, 8, 8); if !ok { CutShort(NEW_ORDER, r.data[start..]); return None; }
    ReadAll(r.data, start, ws, vs, r.pos);
    ReadNew(r.data[start..], vs);
    c := Some(WireNew(orderId, trader, symbol, side, otype, tif, AsI64(price), quantity, timestamp));
  }

  method DecodeModify(r: BufferReader) returns (c: Option<WireCommand>)
    requires r.pos <= |r.data|
    modifies r
    ensures c == DecodePayload(MODIFY, r.data[old(r.pos)..])
  {
    hide ReadSoFar, ReadFields, DecodePayload, AsI64, MODIFY_LAYOUT;
    ghost var ws, start, vs := MODIFY_LAYOUT, r.pos, [];
    Layouts();
    ReadStart(r.data, r.pos, ws);
    var ok, orderId, trader, symbol, newPrice, newQuantity, timestamp;
    ok, orderId, trader, symbol, vs := ReadThree(r, start, ws, vs, 8, 8, 4); if !ok { CutShort(MODIFY, r.data[start..]); return None; }
    ok, newPrice, newQuantity, timestamp, vs := ReadThree(r, start, ws, vs, 8, 8, 8); if !ok { CutShort(MODIFY, r.data[start..]); return None; }
    ReadAll(r.data, start, ws, vs, r.pos);
    ReadModify(r.data[start..], vs);
    c := Some(WireModify(orderId, trader, symbol, AsI64(newPrice), newQuantity, timestamp));
  }

  lemma CutShort(t: U8, payload: seq<U8>)
    requires CommandLayout(t).Some? && ReadFields(CommandLayout(t).value, payload) == None
    ensures DecodePayload(t, payload) == None
  {
  }

  lemma ReadNew(payload: seq<U8>, vs: seq<nat>)
    requires ReadFields(NEW_ORDER_LAYOUT, payload) == Some(vs)
    ensures |vs| == 9 && vs[0] < U64_LIMIT && vs[1] < U64_LIMIT && vs[2] < 0x1_0000_0000
    ensures vs[3] < 0x100 && vs[4] < 0x100 && vs[5] < 0x100 && vs[6] < U64_LIMIT && vs[7] < U64_LIMIT && vs[8] < U64_LIMIT
    ensures DecodePayload(NEW_ORDER, payload)
         == Some(WireNew(vs[0], vs[1], vs[2], vs[3], vs[4], vs[5], AsI64(vs[6]), vs[7], vs[8]))
  {
    hide Pow256, ReadFields;
    Widths();
    ReadFit(NEW_ORDER_LAYOUT, payload);
  }

  lemma ReadCancel(payload: seq<U8>, vs: seq<nat>)
    requires ReadFields(CANCEL_LAYOUT, payload) == Some(vs)
    ensures |vs| == 4 && vs[0] < U64_LIMIT && vs[1] < U64_LIMIT && vs[2] < 0x1_0000_0000 && vs[3] < U64_LIMIT
    ensures DecodePayload(CANCEL, payload) == Some(WireCancel(vs[0], vs[1], vs[2], vs[3]))
  {
    hide Pow256, ReadFields;
    Widths();
    ReadFit(CANCEL_LAYOUT, payload);
  }

  lemma ReadModify(payload: seq<U8>, vs: seq<nat>)
    requires ReadFields(MODIFY_LAYOUT, payload) == Some(vs)
    ensures |vs| == 6 && vs[0] < U64_LIMIT && vs[1] < U64_LIMIT && vs[2] < 0x1_0000_0000
    ensures vs[3] < U64_LIMIT && vs[4] < U64_LIMIT && vs[5] < U64_LIMIT
    ensures DecodePayload(MODIFY, payload) == Some(WireModify(vs[0], vs[1], vs[2], AsI64(vs[3]), vs[4], vs[5]))
  {
    hide Pow256, ReadFields;
    Widths();
    ReadFit(MODIFY_LAYOUT, payload);
  }

  /** DecodeCommand: the type byte picks the reader for the rest. */
  method ParseCommand(body: seq<U8>) returns (c: Option<WireCommand>)
    ensures c == DecodeCommand(body)
  {
    hide ReadFields, CommandOf, Fit, Value;
    if body == [] { return None; }
    var r := new BufferReader(body);
    var ok, t := r.Read(1);
    FirstByte(body);
    if t == NEW_ORDER {
      c := DecodeNewOrder(r);
    } else if t == CANCEL {
      c := DecodeCancel(r);
    } else if t == MODIFY {
      c := DecodeModify(r);
    } else {
      c := None;
    }
  }

  lemma FirstByte(body: seq<U8>)
    requires body != []
    ensures Value(body[0..0 + 1]) == body[0]
  {
  }

  // ----- Engine commands on the wire -----

  function SideByte(s: Side): U8 { if s == Buy then 0 else 1 }
  function TypeByte(t: OrderType): U8 { if t == Limit then 0 else 1 }
  function TifByte(t: TimeInForce): U8 { if t == GoodTillCancel then 0 else if t == ImmediateOrCancel then 1 else 2 }
  function StatusByte(s: OrderStatus): U8 {
    match s case New => 0 case PartiallyFilled => 1 case Filled => 2 case Cancelled => 3 case Rejected => 4
  }

  function SideOf(b: U8): Option<Side> { if b == 0 then Some(Buy) else if b == 1 then Some(Sell) else None }
  function TypeOf(b: U8): Option<OrderType> { if b == 0 then Some(Limit) else if b == 1 then Some(Market) else None }
  function TifOf(b: U8): Option<TimeInForce> {
    if b == 0 then Some(GoodTillCancel) else if b == 1 then Some(ImmediateOrCancel) else if b == 2 then Some(FillOrKill) else None
  }
  function StatusOf(b: U8): Option<OrderStatus> {
    if b == 0 then Some(New) else if b == 1 then Some(PartiallyFilled) else if b == 2 then Some(Filled)
    else if b == 3 then Some(Cancelled) else if b == 4 then Some(Rejected) else None
  }

  function ToWire(c: EngineModel.Command): WireCommand {
    match c
    case NewOrder(id, tr, sy, si, ty, p, q, tif, ts) => WireNew(id, tr, sy, SideByte(si), TypeByte(ty), TifByte(tif), p, q, ts)
    case CancelOrder(id, tr, sy, ts) => WireCancel(id, tr, sy, ts)
    case ModifyOrder(id, tr, sy, p, q, ts) => WireModify(id, tr, sy, p, q, ts)
  }

  /** The engine's command, when the enum bytes are declared enumerators. */
  function FromWire(w: WireCommand): Option<EngineModel.Command> {
    match w
    case WireNew(id, tr, sy, si, ty, tif, p, q, ts) =>
      var side :- SideOf(si);
      var otype :- TypeOf(ty);
      var force :- TifOf(tif);
      Some(EngineModel.NewOrder(id, tr, sy, side, otype, p, q, force, ts))
    case WireCancel(id, tr, sy, ts) => Some(EngineModel.CancelOrder(id, tr, sy, ts))
    case WireModify(id, tr, sy, p, q, ts) => Some(EngineModel.ModifyOrder(id, tr, sy, p, q, ts))
  }

  lemma WireRoundTrip(c: EngineModel.Command)
    ensures FromWire(ToWire(c)) == Some(c)
  {
  }

  // ----- Events -----

  datatype WireEvent =
    | WireAccepted(seqNo: U64, timestamp: U64, symbol: U32, orderId: U64, trader: U64, side: U8, otype: U8, price: I64,
                   quantity: U64, filled: U64, remaining: U64, status: U8)
    | WireRejected(seqNo: U64, timestamp: U64, symbol: U32, orderId: U64, trader: U64, reason: U8)
    | WireCancelled(seqNo: U64, timestamp: U64, symbol: U32, orderId: U64, trader: U64)
    | WireModified(seqNo: U64, timestamp: U64, symbol: U32, orderId: U64, trader: U64, newPrice: I64, newRemaining: U64, lostPriority: bool)
    | WireTrade(seqNo: U64, timestamp: U64, symbol: U32, aggressor: U64, resting: U64, aggressorTrader: U64,
                restingTrader: U64, side: U8, price: I64, quantity: U64)
    | WireBookUpdate(seqNo: U64, timestamp: U64, symbol: U32, side: U8, price: I64, aggregate: U64)

  function EventType(e: WireEvent): U8 {
    match e
    case WireAccepted(_, _, _, _, _, _, _, _, _, _, _, _) => 0x81
    case WireRejected(_, _, _, _, _, _) => 0x82
    case WireCancelled(_, _, _, _, _) => 0x83
    case WireModified(_, _, _, _, _, _, _, _) => 0x84
    case WireTrade(_, _, _, _, _, _, _, _, _, _) => 0x85
    case WireBookUpdate(_, _, _, _, _, _) => 0x86
  }

  /** Sequence number, timestamp and symbol come first in every event. */
  function EventLayout(t: U8): Option<seq<nat>> {
    if t == 0x81 then Some([8, 8, 4, 8, 8, 1, 1, 8, 8, 8, 8, 1])
    else if t == 0x82 then Some([8, 8, 4, 8, 8, 1])
    else if t == 0x83 then Some([8, 8, 4, 8, 8])
    else if t == 0x84 then Some([8, 8, 4, 8, 8, 8, 8, 1])
    else if t == 0x85 then Some([8, 8, 4, 8, 8, 8, 8, 1, 8, 8])
    else if t == 0x86 then Some([8, 8, 4, 1, 8, 8])
    else None
  }

  function EventFields(e: WireEvent): seq<nat> {
    match e
    case WireAccepted(n, ts, sy, id, tr, si, ty, p, q, f, r, st) => [n, ts, sy, id, tr, si, ty, AsU64(p), q, f, r, st]
    case WireRejected(n, ts, sy, id, tr, re) => [n, ts, sy, id, tr, re]
    case WireCancelled(n, ts, sy, id, tr) => [n, ts, sy, id, tr]
    case WireModified(n, ts, sy, id, tr, p, r, lost) => [n, ts, sy, id, tr, AsU64(p), r, if lost then 1 else 0]
    case WireTrade(n, ts, sy, a, r, at, rt, si, p, q) => [n, ts, sy, a, r, at, rt, si, AsU64(p), q]
    case WireBookUpdate(n, ts, sy, si, p, q) => [n, ts, sy, si, AsU64(p), q]
  }

  lemma EventFits(e: WireEvent)
    ensures var l := EventLayout(EventType(e)); l.Some? && Fit(l.value, EventFields(e))
  {
    hide Pow256;
    Widths();
  }

  function EventOf(t: U8, ws: seq<nat>, vs: seq<nat>): WireEvent
    requires EventLayout(t) == Some(ws) && Fit(ws, vs)
  {
    Widths();
    if t == 0x81 then
      WireAccepted(vs[0], vs[1], vs[2], vs[3], vs[4], vs[5], vs[6], AsI64(vs[7]), vs[8], vs[9], vs[10], vs[11])
    else if t == 0x82 then WireRejected(vs[0], vs[1], vs[2], vs[3], vs[4], vs[5])
    else if t == 0x83 then WireCancelled(vs[0], vs[1], vs[2], vs[3], vs[4])
    else if t == 0x84 then WireModified(vs[0], vs[1], vs[2], vs[3], vs[4], AsI64(vs[5]), vs[6], vs[7] != 0)
    else if t == 0x85 then
      WireTrade(vs[0], vs[1], vs[2], vs[3], vs[4], vs[5], vs[6], vs[7], AsI64(vs[8]), vs[9])
    else WireBookUpdate(vs[0], vs[1], vs[2], vs[3], AsI64(vs[4]), vs[5])
  }

  function EncodeEvent(e: WireEvent): seq<U8> {
    EventFits(e);
    [EventType(e)] + WriteFields(EventLayout(EventType(e)).value, EventFields(e))
  }

  function DecodeEvent(body: seq<U8>): Option<WireEvent> {
    if body == [] then None
    else
      var ws :- EventLayout(body[0]);
      var vs :- ReadFields(ws, body[1..]);
      ReadFit(ws, body[1..]);
      Some(EventOf(body[0], ws, vs))
  }

  lemma EventOfFields(e: WireEvent)
    ensures var l := EventLayout(EventType(e));
            l.Some? && Fit(l.value, EventFields(e)) && EventOf(EventType(e), l.value, EventFields(e)) == e
  {
    EventFits(e);
  }

  lemma EventRoundTrip(e: WireEvent, more: seq<U8>)
    ensures DecodeEvent(EncodeEvent(e) + more) == Some(e)
  {
    hide EventLayout, EventFields, EventOf, Fit, WriteFields, ReadFields;
    EventFits(e);
    var ws, vs := EventLayout(EventType(e)).value, EventFields(e);
    ReadWritten(ws, vs, more);
    EventOfFields(e);
    var body := EncodeEvent(e) + more;
    assert body[0] == EventType(e) && body[1..] == WriteFields(ws, vs) + more;
  }
}
