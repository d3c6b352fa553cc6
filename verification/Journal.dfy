/** The write-ahead journal: a file of framed commands that may end in a torn record. */
module Journal {
  import opened Types
  import opened Frames
  import opened Protocol
  import EngineModel
  import Codec

  /** What a journal reader returns, or why it refuses the file. */
  datatype ReadResult = Commands(commands: seq<WireCommand>) | OversizedLength | UndecodableCommand

  datatype WriteStatus = Done | Failed | Stopped

  /**
    The loop of Append. `sizes` is what the write calls return in turn: bytes taken, negative for an error;
    the process stops where the list ends.
   */
  method WriteFrame(file: seq<U8>, frame: seq<U8>, sizes: seq<int>) returns (after: seq<U8>, status: WriteStatus)
    ensures file <= after <= file + frame
    ensures status == Done <==> after == file + frame
    ensures status == Failed ==> exists i :: 0 <= i < |sizes| && sizes[i] < 0
  {
    after := file;
    var written, calls := 0, 0;
    while written < |frame|
      invariant 0 <= written <= |frame| && 0 <= calls <= |sizes| && after == file + frame[..written]
      decreases |sizes| - calls
    {
      if calls == |sizes| { return after, Stopped; }
      var n := sizes[calls];
      if n < 0 { return after, Failed; }
      var taken := if n < |frame| - written then n else |frame| - written;
      after := after + frame[written..written + taken];
      written, calls := written + taken, calls + 1;
    }
    status := Done;
  }

  /** The file after a whole append. */
  function Append(file: seq<U8>, c: EngineModel.Command): seq<U8> {
    file + Frame(EncodeCommand(ToWire(c)))
  }

  function AppendAll(file: seq<U8>, cs: seq<EngineModel.Command>): seq<U8>
    decreases |cs|
  {
    if cs == [] then file else AppendAll(Append(file, cs[0]), cs[1..])
  }

  function Wire(cs: seq<EngineModel.Command>): (ws: seq<WireCommand>)
    ensures |ws| == |cs| && forall i :: 0 <= i < |cs| ==> ws[i] == ToWire(cs[i])
  {
    seq(|cs|, i requires 0 <= i < |cs| => ToWire(cs[i]))
  }

  function Bodies(ws: seq<WireCommand>): (bs: seq<seq<U8>>)
    ensures |bs| == |ws| && forall i :: 0 <= i < |ws| ==> bs[i] == EncodeCommand(ws[i])
  {
    seq(|ws|, i requires 0 <= i < |ws| => EncodeCommand(ws[i]))
  }

  /** Read frames until the rest is not a whole one. */
  function ReadFrom(p: seq<U8>, done: seq<WireCommand>): ReadResult
    decreases |p|
  {
    match NextFrame(p)
    case NoFrame => Commands(done)
    case ProtocolError => OversizedLength
    case Body(body) =>
      match DecodeCommand(body)
      case None => UndecodableCommand
      case Some(w) => ReadFrom(AfterFrame(p), done + [w])
  }

  /** ReadJournal: one feed of the whole file, then extraction calls until there is no frame left. */
  method ReadJournal(data: seq<U8>) returns (r: ReadResult)
    ensures r == ReadFrom(data, [])
  {
    hide NextFrame, DecodeCommand;
    var decoder := new FrameDecoder();
    decoder.Feed(data);
    var commands := [];
    assert decoder.Pending() == data;
    while true
      invariant decoder.Valid() && fresh(decoder)
      invariant ReadFrom(decoder.Pending(), commands) == ReadFrom(data, [])
      decreases |decoder.Pending()|
    {
      Shrinks(decoder.Pending());
      var ok, body, protocolError := decoder.TryExtractFrame();
      if !ok {
        if protocolError { return OversizedLength; }
        return Commands(commands);
      }
      var cmd := DecodeCommand(body);
      if cmd == None { return UndecodableCommand; }
      commands := commands + [cmd.value];
    }
  }

  lemma Shrinks(p: seq<U8>)
    ensures NextFrame(p).Body? ==> |AfterFrame(p)| < |p|
  {
  }

  // ----- What a journal holds -----

  lemma {:induction false} AppendAllIsStream(file: seq<U8>, cs: seq<EngineModel.Command>)
    ensures AppendAll(file, cs) == file + Stream(Bodies(Wire(cs)))
    decreases |cs|
  {
    hide Frame, EncodeCommand;
    var bs := Bodies(Wire(cs));
    if cs == [] {
      assert file + [] == file;
    } else {
      AppendAllIsStream(Append(file, cs[0]), cs[1..]);
      assert bs[1..] == Bodies(Wire(cs[1..]));
      assert file + (Frame(bs[0]) + Stream(bs[1..])) == file + Frame(bs[0]) + Stream(bs[1..]);
    }
  }

  lemma BodiesSendable(ws: seq<WireCommand>)
    ensures Sendable(Bodies(ws))
  {
    hide EncodeCommand;
    forall i | 0 <= i < |ws| ensures |Bodies(ws)[i]| <= 0x1_0000 { CommandSize(ws[i]); }
  }

  /** How many of the commands have their whole frame within the first `k` bytes. */
  function Whole(ws: seq<WireCommand>, k: nat): (n: nat)
    ensures n <= |ws|
  {
    if ws == [] || k < |Frame(EncodeCommand(ws[0]))| then 0
    else 1 + Whole(ws[1..], k - |Frame(EncodeCommand(ws[0]))|)
  }

  /** Whole counts exactly the frames that end at or before the cut. */
  lemma {:induction false} WholeIsExact(ws: seq<WireCommand>, k: nat, n: nat)
    requires n <= |ws|
    ensures n <= Whole(ws, k) <==> |Stream(Bodies(ws)[..n])| <= k
    decreases |ws|
  {
    hide EncodeCommand, Frame;
    var bs := Bodies(ws);
    if n > 0 {
      assert bs[..n][1..] == Bodies(ws[1..])[..n - 1] && bs[..n][0] == bs[0];
      var f := |Frame(bs[0])|;
      if k >= f {
        WholeIsExact(ws[1..], k - f, n - 1);
      }
    }
  }

  lemma ReadNone(p: seq<U8>, done: seq<WireCommand>)
    requires NextFrame(p) == NoFrame
    ensures ReadFrom(p, done) == Commands(done)
  {
    hide NextFrame;
  }

  lemma ReadOne(p: seq<U8>, done: seq<WireCommand>, w: WireCommand)
    requires NextFrame(p).Body? && DecodeCommand(NextFrame(p).body) == Some(w)
    ensures ReadFrom(p, done) == ReadFrom(AfterFrame(p), done + [w])
  {
    hide DecodeCommand, NextFrame, AfterFrame;
    Shrinks(p);
  }

  /** The frame of a command at the front of a stream: read it and go on. */
  lemma ReadCommand(p: seq<U8>, ws: seq<WireCommand>, done: seq<WireCommand>)
    requires ws != [] && p <= Stream(Bodies(ws)) && |p| >= |Frame(EncodeCommand(ws[0]))|
    ensures ReadFrom(p, done) == ReadFrom(AfterFrame(p), done + [ws[0]])
    ensures |p| == |Frame(EncodeCommand(ws[0]))| + |AfterFrame(p)| && AfterFrame(p) <= Stream(Bodies(ws[1..]))
  {
    hide EncodeCommand, Frame, NextFrame, AfterFrame, DecodeCommand, Stream, ReadFrom;
    var bs := Bodies(ws);
    BodiesSendable(ws);
    NextOfStream(p, bs);
    assert bs[1..] == Bodies(ws[1..]);
    CommandRoundTrip(ws[0], []);
    assert EncodeCommand(ws[0]) + [] == EncodeCommand(ws[0]);
    ReadOne(p, done, ws[0]);
  }

  /** Reading a front part of a stream of commands gives the whole ones before the cut. */
  lemma {:induction false} ReadPrefix(p: seq<U8>, ws: seq<WireCommand>, done: seq<WireCommand>)
    requires p <= Stream(Bodies(ws))
    ensures ReadFrom(p, done) == Commands(done + ws[..Whole(ws, |p|)])
    decreases |ws|
  {
    hide EncodeCommand, Frame, NextFrame, AfterFrame, Stream, ReadFrom;
    if ws == [] || |p| < |Frame(EncodeCommand(ws[0]))| {
      BodiesSendable(ws);
      NextOfStream(p, Bodies(ws));
      ReadNone(p, done);
      assert done + ws[..0] == done;
    } else {
      ReadCommand(p, ws, done);
      ReadPrefix(AfterFrame(p), ws[1..], done + [ws[0]]);
      var n := Whole(ws[1..], |AfterFrame(p)|);
      assert done + [ws[0]] + ws[1..][..n] == done + ws[..n + 1];
    }
  }

  /**
    Cut a journal anywhere: reading it returns exactly the commands whose frames lie wholly before the
    cut, in order, and never reports corruption.
   */
  lemma TornTailDiscarded(cs: seq<EngineModel.Command>, k: nat)
    requires k <= |AppendAll([], cs)|
    ensures var n := Whole(Wire(cs), k);
            && ReadFrom(AppendAll([], cs)[..k], []) == Commands(Wire(cs[..n]))
            && |AppendAll([], cs[..n])| <= k && (n < |cs| ==> k < |AppendAll([], cs[..n + 1])|)
  {
    hide ReadFrom, EncodeCommand, Frame, Stream;
    var ws := Wire(cs);
    var n := Whole(ws, k);
    AppendAllIsStream([], cs);
    assert [] + Stream(Bodies(ws)) == Stream(Bodies(ws));
    ReadPrefix(AppendAll([], cs)[..k], ws, []);
    assert [] + ws[..n] == Wire(cs[..n]);
    CutLength(cs, n);
    WholeIsExact(ws, k, n);
    if n < |cs| {
      CutLength(cs, n + 1);
      WholeIsExact(ws, k, n + 1);
    }
  }

  /** An append that stops anywhere before its end leaves the commands before it readable, and only those. */
  lemma CrashMidAppend(cs: seq<EngineModel.Command>, c: EngineModel.Command, after: seq<U8>)
    requires AppendAll([], cs) <= after < Append(AppendAll([], cs), c)
    ensures ReadFrom(after, []) == Commands(Wire(cs))
  {
    hide ReadFrom, EncodeCommand, Frame, Append, AppendAll, Whole;
    var all, k := cs + [c], |after|;
    AppendLast(cs, c);
    assert after == AppendAll([], all)[..k];
    TornTailDiscarded(all, k);
    assert all[..|cs|] == cs && all[..|cs| + 1] == all;
    CutAt(all, k, |cs|);
  }

  // ----- Whole records and then any bytes -----

  /** Reading passes over whole records to whatever follows them. */
  lemma {:induction false} ReadOn(ws: seq<WireCommand>, t: seq<U8>, done: seq<WireCommand>)
    ensures ReadFrom(Stream(Bodies(ws)) + t, done) == ReadFrom(t, done + ws)
    decreases |ws|
  {
    hide EncodeCommand, Frame, NextFrame, AfterFrame, DecodeCommand, ReadFrom;
    var bs := Bodies(ws);
    if ws == [] {
      assert Stream(bs) + t == t && done + ws == done;
    } else {
      var rest := Stream(bs[1..]) + t;
      assert Stream(bs) + t == Frame(bs[0]) + rest;
      CommandSize(ws[0]);
      FrameFirst(bs[0], rest);
      CommandRoundTrip(ws[0], []);
      assert EncodeCommand(ws[0]) + [] == EncodeCommand(ws[0]);
      assert bs[1..] == Bodies(ws[1..]);
      ReadOne(Stream(bs) + t, done, ws[0]);
      ReadOn(ws[1..], t, done + [ws[0]]);
      assert done + [ws[0]] + ws[1..] == done + ws;
    }
  }

  lemma {:induction false} ReadGrows(p: seq<U8>, done: seq<WireCommand>)
    ensures ReadFrom(p, done).Commands? ==> done <= ReadFrom(p, done).commands
    decreases |p|
  {
    hide NextFrame, DecodeCommand, AfterFrame;
    match NextFrame(p)
    case Body(body) =>
      Shrinks(p);
      match DecodeCommand(body) {
        case Some(w) => ReadGrows(AfterFrame(p), done + [w]);
        case None =>
      }
    case _ =>
  }

  /**
    A journal followed by any bytes `t` reads as the journal alone if and only if no frame, good or bad,
    begins in `t`. A declared length that is too large, or a whole frame that is no command, is an error.
   */
  lemma TailDecides(cs: seq<EngineModel.Command>, t: seq<U8>)
    ensures var r := ReadFrom(AppendAll([], cs) + t, []);
            && (r == Commands(Wire(cs)) <==> NextFrame(t).NoFrame?)
            && (NextFrame(t).ProtocolError? ==> r == OversizedLength)
            && (NextFrame(t).Body? && DecodeCommand(NextFrame(t).body) == None ==> r == UndecodableCommand)
  {
    hide NextFrame, DecodeCommand, AfterFrame, Stream, EncodeCommand, AppendAll;
    var ws := Wire(cs);
    AppendAllIsStream([], cs);
    assert [] + Stream(Bodies(ws)) == Stream(Bodies(ws)) && [] + ws == ws;
    ReadOn(ws, t, []);
    if NextFrame(t).Body? {
      Shrinks(t);
      match DecodeCommand(NextFrame(t).body)
      case Some(w) => ReadGrows(AfterFrame(t), ws + [w]);
      case None =>
    }
  }

  /** Bytes that end before the record they begin does: a short prefix, or fewer body bytes than it declares. */
  ghost predicate Incomplete(t: seq<U8>) {
    |t| < 4 || |t| < 4 + Codec.Value(t[..4])
  }

  /**
    An incomplete trailing record is discarded if and only if its length prefix is itself cut short or
    declares no more than the largest frame; otherwise the journal is refused.
   */
  lemma IncompleteTail(cs: seq<EngineModel.Command>, t: seq<U8>)
    requires Incomplete(t)
    ensures ReadFrom(AppendAll([], cs) + t, []) ==
            if |t| < 4 || Codec.Value(t[..4]) <= 0x1_0000 then Commands(Wire(cs)) else OversizedLength
  {
    hide ReadFrom, AppendAll, Codec.Value;
    TailDecides(cs, t);
  }

  /** Four bytes of ones after any journal: an incomplete record, and the whole journal is refused. */
  lemma OversizedTailRefused(cs: seq<EngineModel.Command>)
    ensures Incomplete([0xFF, 0xFF, 0xFF, 0xFF]) && ReadFrom(AppendAll([], cs) + [0xFF, 0xFF, 0xFF, 0xFF], []) == OversizedLength
  {
    hide ReadFrom, AppendAll;
    var t: seq<U8> := [0xFF, 0xFF, 0xFF, 0xFF];
    assert t[..PREFIX] == t;
    ValueOfFour(0xFF, 0xFF, 0xFF, 0xFF);
    IncompleteTail(cs, t);
  }

  // ----- Appending after a torn record -----

  lemma ValueOfFour(a: U8, b: U8, c: U8, d: U8)
    ensures Codec.Value([a, b, c, d]) == a + 256 * b + 0x1_0000 * c + 0x100_0000 * d
  {
    var t := [a, b, c, d];
    assert t[1..] == [b, c, d] && t[1..][1..] == [c, d] && t[1..][1..][1..] == [d] && t[1..][1..][1..][1..] == [];
    assert Codec.Value(t[1..][1..][1..]) == d;
    assert Codec.Value(t[1..][1..]) == c + 256 * d;
  }

  /** A command's frame: its size in one byte, three zero bytes, and the body. */
  lemma CommandFrame(w: WireCommand)
    ensures var f := Frame(EncodeCommand(w));
            && |f| == PREFIX + BodySize(w) && f[0] == BodySize(w) && f[1] == f[2] == f[3] == 0
            && f[4] == CommandType(w) && f[PREFIX..] == EncodeCommand(w)
  {
    hide Codec.WriteFields, CommandLayout, CommandFields;
    CommandSize(w);
    var n := BodySize(w);
    assert Codec.LE(4, n) == [n, 0, 0, 0] by {
      assert n / 256 == 0 && Codec.LE(1, 0) == [0] && Codec.LE(2, 0) == [0, 0] && Codec.LE(3, 0) == [0, 0, 0];
    }
  }

  /** What follows the torn bytes `t` of one command's record when another record is appended to them. */
  ghost predicate Mixed(d: WireCommand, c: WireCommand, t: seq<U8>, p: seq<U8>) {
    t < Frame(EncodeCommand(d)) && p == t + Frame(EncodeCommand(c))
  }

  lemma ShortTear(d: WireCommand, c: WireCommand, t: seq<U8>, p: seq<U8>)
    requires Mixed(d, c, t, p) && 0 < |t| < PREFIX
    ensures NextFrame(p) == if |t| == 1 then NoFrame else ProtocolError
  {
    hide Codec.Value, EncodeCommand, Frame;
    CommandFrame(d);
    CommandFrame(c);
    var f := Frame(EncodeCommand(d));
    assert forall i :: 0 <= i < |t| ==> t[i] == f[i];
    assert p[..PREFIX] == [p[0], p[1], p[2], p[3]];
    ValueOfFour(p[0], p[1], p[2], p[3]);
  }

  lemma LongTear(d: WireCommand, c: WireCommand, t: seq<U8>, p: seq<U8>)
    requires Mixed(d, c, t, p) && |t| >= PREFIX
    ensures |p| == |t| + PREFIX + BodySize(c) && PREFIX + BodySize(d) > |t|
    ensures NextFrame(p) == if |t| + BodySize(c) < BodySize(d) then NoFrame else Body(p[PREFIX..PREFIX + BodySize(d)])
    ensures |t| > PREFIX ==> p[PREFIX] == CommandType(d)
    ensures |t| == PREFIX ==> p[PREFIX] == BodySize(c)
  {
    hide Codec.Value, EncodeCommand, Frame;
    CommandFrame(d);
    CommandFrame(c);
    var f := Frame(EncodeCommand(d));
    assert forall i :: 0 <= i < |t| ==> t[i] == f[i];
    assert p[..PREFIX] == [f[0], 0, 0, 0];
    ValueOfFour(f[0], 0, 0, 0);
  }

  lemma NoSuchType(body: seq<U8>)
    requires body != [] && body[0] > 3
    ensures DecodeCommand(body) == None
  {
  }

  /**
    The journal is reopened with `t` left of the record of `d`, and `c` is appended after it. With one byte
    left, or with so many missing that the new record does not supply them, the new record is silently
    lost. With two or three bytes left the journal is refused for its length, with four for its
    command. With more, the reader returns a command made of parts of both records and reads on from
    inside the new one.
   */
  lemma ReopenedJournal(cs: seq<EngineModel.Command>, d: EngineModel.Command, c: EngineModel.Command, t: seq<U8>)
    requires t < Frame(EncodeCommand(ToWire(d)))
    ensures var p := t + Frame(EncodeCommand(ToWire(c)));
            var r := ReadFrom(Append(AppendAll([], cs) + t, c), []);
            var lost := BodySize(ToWire(d)) - BodySize(ToWire(c));
            if |t| == 0 then r == Commands(Wire(cs + [c]))
            else if |t| == 1 || PREFIX <= |t| < lost then r == Commands(Wire(cs))
            else if |t| < PREFIX then r == OversizedLength
            else if |t| == PREFIX then r == UndecodableCommand
            else
              && PREFIX + BodySize(ToWire(d)) <= |p|
              && (var w := DecodeCommand(p[PREFIX..PREFIX + BodySize(ToWire(d))]);
                  w.Some? && r == ReadFrom(p[PREFIX + BodySize(ToWire(d))..], Wire(cs) + [w.value]))
  {
    hide ReadFrom, EncodeCommand, Frame, NextFrame, AppendAll, DecodeCommand, BodySize;
    var x, y := ToWire(d), ToWire(c);
    var p := t + Frame(EncodeCommand(y));
    assert Append(AppendAll([], cs) + t, c) == AppendAll([], cs) + p;
    if t == [] {
      assert AppendAll([], cs) + p == Append(AppendAll([], cs), c);
      AppendLast(cs, c);
      JournalRoundTrip(cs + [c]);
    } else if |t| < PREFIX {
      ShortTear(x, y, t, p);
      TailDecides(cs, p);
    } else {
      LongTear(x, y, t, p);
      TailDecides(cs, p);
      if |t| >= BodySize(x) - BodySize(y) { TearDecoded(cs, x, t, p); }
    }
  }

  lemma TearDecoded(cs: seq<EngineModel.Command>, d: WireCommand, t: seq<U8>, p: seq<U8>)
    requires PREFIX <= |t| && PREFIX + BodySize(d) <= |p| && NextFrame(p) == Body(p[PREFIX..PREFIX + BodySize(d)])
    requires if |t| == PREFIX then p[PREFIX] > 3 else p[PREFIX] == CommandType(d)
    ensures var w := DecodeCommand(p[PREFIX..PREFIX + BodySize(d)]);
            if |t| == PREFIX then w == None
            else w.Some? && ReadFrom(AppendAll([], cs) + p, []) == ReadFrom(p[PREFIX + BodySize(d)..], Wire(cs) + [w.value])
  {
    hide ReadFrom, DecodeCommand, NextFrame, AppendAll, EncodeCommand, Stream;
    var body := p[PREFIX..PREFIX + BodySize(d)];
    if |t| == PREFIX {
      NoSuchType(body);
    } else {
      SizeDecodes(d, body);
      AppendAllIsStream([], cs);
      assert [] + Stream(Bodies(Wire(cs))) == Stream(Bodies(Wire(cs))) && [] + Wire(cs) == Wire(cs);
      ReadOn(Wire(cs), p, []);
      ReadOne(p, Wire(cs), DecodeCommand(body).value);
    }
  }

  /** The first byte of a torn cancel, and then a whole record: the record is never read. */
  lemma LostAfterTear(cs: seq<EngineModel.Command>, c: EngineModel.Command)
    ensures ReadFrom(Append(AppendAll([], cs) + [29], c), []) == Commands(Wire(cs))
  {
    hide ReadFrom, EncodeCommand, Frame, AppendAll;
    var d := EngineModel.CancelOrder(1, 7, 1, 0);
    CommandFrame(ToWire(d));
    var f := Frame(EncodeCommand(ToWire(d)));
    assert f[..1] == [29];
    ReopenedJournal(cs, d, c, [29]);
  }

  lemma CutAt(cs: seq<EngineModel.Command>, k: nat, n: nat)
    requires n < |cs| && |AppendAll([], cs[..n])| <= k < |AppendAll([], cs[..n + 1])|
    ensures Whole(Wire(cs), k) == n
  {
    hide Stream, EncodeCommand, AppendAll;
    CutLength(cs, n);
    CutLength(cs, n + 1);
    WholeIsExact(Wire(cs), k, n);
    WholeIsExact(Wire(cs), k, n + 1);
  }

  lemma AppendLast(cs: seq<EngineModel.Command>, c: EngineModel.Command)
    ensures AppendAll([], cs + [c]) == Append(AppendAll([], cs), c)
  {
    hide EncodeCommand, Frame, Stream;
    AppendAllIsStream([], cs);
    AppendAllIsStream([], cs + [c]);
    var bs := Bodies(Wire(cs + [c]));
    assert bs == Bodies(Wire(cs)) + [EncodeCommand(ToWire(c))];
    StreamConcat(Bodies(Wire(cs)), [EncodeCommand(ToWire(c))]);
    OneFrame(EncodeCommand(ToWire(c)));
  }

  lemma OneFrame(body: seq<U8>)
    ensures Stream([body]) == Frame(body)
  {
    assert [body][1..] == [];
  }

  lemma CutLength(cs: seq<EngineModel.Command>, n: nat)
    requires n <= |cs|
    ensures AppendAll([], cs[..n]) == Stream(Bodies(Wire(cs))[..n])
  {
    hide EncodeCommand, Stream;
    AppendAllIsStream([], cs[..n]);
    assert Bodies(Wire(cs[..n])) == Bodies(Wire(cs))[..n];
    assert [] + Stream(Bodies(Wire(cs[..n]))) == Stream(Bodies(Wire(cs[..n])));
  }

  /** An untorn journal gives back every command. */
  lemma JournalRoundTrip(cs: seq<EngineModel.Command>)
    ensures ReadFrom(AppendAll([], cs), []) == Commands(Wire(cs))
  {
    hide ReadFrom, EncodeCommand, Stream;
    var ws, file := Wire(cs), AppendAll([], cs);
    AppendAllIsStream([], cs);
    assert [] + Stream(Bodies(ws)) == Stream(Bodies(ws));
    assert file[..|file|] == file;
    ReadPrefix(file, ws, []);
    WholeIsExact(ws, |file|, |ws|);
    assert Bodies(ws)[..|ws|] == Bodies(ws);
    assert [] + ws[..|ws|] == ws;
  }
}
