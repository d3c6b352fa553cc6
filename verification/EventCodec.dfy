/** The event encoder and decoder as they run: one write or read after another. */
module EventCodec {
  import opened Types
  import opened Codec
  import opened Protocol

  /** The type byte, and the sequence number, timestamp and symbol that every event begins with. */
  method WriteHead(w: BufferWriter, t: U8, n: SequenceNumber, ts: Timestamp, symbol: SymbolId, ghost ws: seq<nat>, ghost vs: seq<nat>)
    requires w.buf == [] && 3 <= |ws| == |vs| && ws[0] == 8 && ws[1] == 8 && ws[2] == 4
    requires vs[0] == n && vs[1] == ts && vs[2] == symbol
    modifies w
    ensures Wrote(w.buf, [t], ws, vs, 3)
  {
    hide Wrote, LE;
    w.Write(1, t);
    OneByte(t);
    WroteStart([t], ws, vs);
    WriteNext(w, [t], ws, vs, 0, 8, n);
    WriteNext(w, [t], ws, vs, 1, 8, ts);
    WriteNext(w, [t], ws, vs, 2, 4, symbol);
  }

  lemma Encoded(e: WireEvent, buf: seq<U8>, ws: seq<nat>, vs: seq<nat>)
    requires EventLayout(EventType(e)) == Some(ws) && vs == EventFields(e) && Wrote(buf, [EventType(e)], ws, vs, |ws|)
    ensures buf == EncodeEvent(e)
  {
    hide EventLayout, EventFields, Wrote, WriteFields;
    EventFits(e);
    WroteAll(buf, [EventType(e)], ws, vs);
  }

  method WriteAccepted(w: BufferWriter, e: WireEvent, ghost ws: seq<nat>, ghost vs: seq<nat>)
    requires e.WireAccepted? && EventLayout(EventType(e)) == Some(ws) && vs == EventFields(e) && Wrote(w.buf, [EventType(e)], ws, vs, 3)
    modifies w
    ensures Wrote(w.buf, [EventType(e)], ws, vs, |ws|)
  {
    hide Wrote;
    ghost var t := EventType(e);
    var WireAccepted(_, _, _, orderId, trader, side, otype, price, quantity, filled, remaining, status) := e;
    WriteNext(w, [t], ws, vs, 3, 8, orderId);
    WriteNext(w, [t], ws, vs, 4, 8, trader);
    WriteNext(w, [t], ws, vs, 5, 1, side);
    WriteNext(w, [t], ws, vs, 6, 1, otype);
    WriteNext(w, [t], ws, vs, 7, 8, AsU64(price));
    WriteNext(w, [t], ws, vs, 8, 8, quantity);
    WriteNext(w, [t], ws, vs, 9, 8, filled);
    WriteNext(w, [t], ws, vs, 10, 8, remaining);
    WriteNext(w, [t], ws, vs, 11, 1, status);
  }

  method WriteModified(w: BufferWriter, e: WireEvent, ghost ws: seq<nat>, ghost vs: seq<nat>)
    requires e.WireModified? && EventLayout(EventType(e)) == Some(ws) && vs == EventFields(e) && Wrote(w.buf, [EventType(e)], ws, vs, 3)
    modifies w
    ensures Wrote(w.buf, [EventType(e)], ws, vs, |ws|)
  {
    hide Wrote;
    ghost var t := EventType(e);
    var WireModified(_, _, _, orderId, trader, newPrice, newRemaining, lostPriority) := e;
    WriteNext(w, [t], ws, vs, 3, 8, orderId);
    WriteNext(w, [t], ws, vs, 4, 8, trader);
    WriteNext(w, [t], ws, vs, 5, 8, AsU64(newPrice));
    WriteNext(w, [t], ws, vs, 6, 8, newRemaining);
    WriteNext(w, [t], ws, vs, 7, 1, if lostPriority then 1 else 0);
  }

  method WriteTrade(w: BufferWriter, e: WireEvent, ghost ws: seq<nat>, ghost vs: seq<nat>)
    requires e.WireTrade? && EventLayout(EventType(e)) == Some(ws) && vs == EventFields(e) && Wrote(w.buf, [EventType(e)], ws, vs, 3)
    modifies w
    ensures Wrote(w.buf, [EventType(e)], ws, vs, |ws|)
  {
    hide Wrote;
    ghost var t := EventType(e);
    var WireTrade(_, _, _, aggressor, resting, aggressorTrader, restingTrader, side, price, quantity) := e;
    WriteNext(w, [t], ws, vs, 3, 8, aggressor);
    WriteNext(w, [t], ws, vs, 4, 8, resting);
    WriteNext(w, [t], ws, vs, 5, 8, aggressorTrader);
    WriteNext(w, [t], ws, vs, 6, 8, restingTrader);
    WriteNext(w, [t], ws, vs, 7, 1, side);
    WriteNext(w, [t], ws, vs, 8, 8, AsU64(price));
    WriteNext(w, [t], ws, vs, 9, 8, quantity);
  }

  /** EncodeEvent. */
  method WriteEvent(e: WireEvent) returns (body: seq<U8>)
    ensures body == EncodeEvent(e)
  {
    hide Wrote, EncodeEvent;
    var t := EventType(e);
    ghost var ws, vs := EventLayout(t).value, EventFields(e);
    var w := new BufferWriter();
    WriteHead(w, t, e.seqNo, e.timestamp, e.symbol, ws, vs);
    match e {
      case WireAccepted(_, _, _, _, _, _, _, _, _, _, _, _) => WriteAccepted(w, e, ws, vs);
      case WireRejected(_, _, _, orderId, trader, reason) =>
        WriteNext(w, [t], ws, vs, 3, 8, orderId);
        WriteNext(w, [t], ws, vs, 4, 8, trader);
        WriteNext(w, [t], ws, vs, 5, 1, reason);
      case WireCancelled(_, _, _, orderId, trader) =>
        WriteNext(w, [t], ws, vs, 3, 8, orderId);
        WriteNext(w, [t], ws, vs, 4, 8, trader);
      case WireModified(_, _, _, _, _, _, _, _) => WriteModified(w, e, ws, vs);
      case WireTrade(_, _, _, _, _, _, _, _, _, _) => WriteTrade(w, e, ws, vs);
      case WireBookUpdate(_, _, _, side, price, aggregate) =>
        WriteNext(w, [t], ws, vs, 3, 1, side);
        WriteNext(w, [t], ws, vs, 4, 8, AsU64(price));
        WriteNext(w, [t], ws, vs, 5, 8, aggregate);
    }
    body := w.buf;
    Encoded(e, body, ws, vs);
  }

  /** The fields after the head, as many and as wide as the type says. */
  method ReadRest(r: BufferReader, t: U8, ghost start: nat, ghost ws: seq<nat>, ghost vs: seq<nat>)
    returns (ok: bool, more: seq<nat>, ghost vs': seq<nat>)
    requires EventLayout(t) == Some(ws) && ReadSoFar(r.data, start, ws, vs, r.pos) && |vs| == 3
    modifies r
    ensures ok ==> vs' == vs + more && |vs'| == |ws| && ReadSoFar(r.data, start, ws, vs', r.pos)
    ensures !ok ==> ReadFields(ws, r.data[start..]) == None
  {
    hide ReadSoFar, ReadFields;
    var a, b, c, d, e, f, g, h, i;
    more := [];
    if t == 0x81 {
      ok, a, b, c, d, e, f, vs' := ReadSix(r, start, ws, vs, 8, 8, 1, 1, 8, 8); if !ok { return; }
      ok, g, h, i, vs' := ReadThree(r, start, ws, vs', 8, 8, 1); if !ok { return; }
      more := [a, b, c, d, e, f, g, h, i];
    } else if t == 0x82 {
      ok, a, b, c, vs' := ReadThree(r, start, ws, vs, 8, 8, 1); if !ok { return; }
      more := [a, b, c];
    } else if t == 0x83 {
      ok, a, vs' := ReadField(r, start, ws, vs, 8); if !ok { return; }
      ok, b, vs' := ReadField(r, start, ws, vs', 8); if !ok { return; }
      more := [a, b];
    } else if t == 0x84 {
      ok, a, b, c, vs' := ReadThree(r, start, ws, vs, 8, 8, 8); if !ok { return; }
      ok, d, vs' := ReadField(r, start, ws, vs', 8); if !ok { return; }
      ok, e, vs' := ReadField(r, start, ws, vs', 1); if !ok { return; }
      more := [a, b, c, d, e];
    } else if t == 0x85 {
      ok, a, b, c, d, e, f, vs' := ReadSix(r, start, ws, vs, 8, 8, 8, 8, 1, 8); if !ok { return; }
      ok, g, vs' := ReadField(r, start, ws, vs', 8); if !ok { return; }
      more := [a, b, c, d, e, f, g];
    } else {
      ok, a, b, c, vs' := ReadThree(r, start, ws, vs, 1, 8, 8); if !ok { return; }
      more := [a, b, c];
    }
  }

  /** The widths read for a type byte: the head for any, and the whole layout of a known type. */
  function WidthsFor(t: U8): (ws: seq<nat>)
    ensures 3 <= |ws| && ws[0] == 8 && ws[1] == 8 && ws[2] == 4
    ensures EventLayout(t).Some? ==> EventLayout(t) == Some(ws)
  {
    match EventLayout(t) case Some(ws) => ws case None => [8, 8, 4]
  }

  lemma Decoded(body: seq<U8>, vs: seq<nat>)
    requires body != [] && EventLayout(body[0]).Some?
    requires ReadFields(EventLayout(body[0]).value, body[1..]) == Some(vs)
    ensures Fit(EventLayout(body[0]).value, vs) && DecodeEvent(body) == Some(EventOf(body[0], EventLayout(body[0]).value, vs))
  {
    hide EventLayout, EventOf, ReadFields, Fit;
    ReadFit(EventLayout(body[0]).value, body[1..]);
  }

  lemma Undecoded(body: seq<U8>)
    requires body != [] && (EventLayout(body[0]) == None || ReadFields(EventLayout(body[0]).value, body[1..]) == None)
    ensures DecodeEvent(body) == None
  {
    hide EventLayout, ReadFields;
  }

  /** DecodeEvent: type byte and head first, then the fields of the type. */
  method ParseEvent(body: seq<U8>) returns (e: Option<WireEvent>)
    ensures e == DecodeEvent(body)
  {
    hide ReadSoFar, ReadFields, EventLayout, EventOf, DecodeEvent, Fit, Value;
    if body == [] {
      NoBody();
      return None;
    }
    var r := new BufferReader(body);
    var ok, t := r.Read(1);
    FirstByte(body);
    ghost var ws, vs := WidthsFor(body[0]), [];
    ReadStart(r.data, 1, ws);
    var n, ts, symbol, more;
    ok, n, ts, symbol, vs := ReadThree(r, 1, ws, vs, 8, 8, 4);
    if !ok || EventLayout(t) == None {
      Undecoded(body);
      return None;
    }
    ok, more, vs := ReadRest(r, t, 1, ws, vs);
    if !ok {
      Undecoded(body);
      return None;
    }
    assert vs == [n, ts, symbol] + more;
    ReadAll(r.data, 1, ws, vs, r.pos);
    Decoded(body, vs);
    e := Some(EventOf(t, EventLayout(t).value, [n, ts, symbol] + more));
  }

  lemma NoBody()
    ensures DecodeEvent([]) == None
  {
  }
}
