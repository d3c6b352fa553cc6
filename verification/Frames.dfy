/** Length-prefixed frames over a byte stream: the decoder object and what any use of it yields. */
module Frames {
  import opened Types
  import opened Codec
  import opened Bits

  const PREFIX := 4
  const MAX_FRAME := 65536

  /** FrameMessage: the body's length in four bytes, then the body. */
  function Frame(body: seq<U8>): (f: seq<U8>)
    ensures |f| == PREFIX + |body|
  {
    LE(4, |body|) + body
  }

  method FrameMessage(body: seq<U8>) returns (frame: seq<U8>)
    ensures frame == Frame(body)
  {
    var length := |body|;
    frame := [];
    for i := 0 to 4
      invariant frame == LE(4, length)[..i]
    {
      LEAt(4, length, i);
      frame := frame + [(length / Pow256(i)) % 256];
    }
    assert LE(4, length)[..4] == LE(4, length);
    frame := frame + body;
  }

  datatype Outcome = NoFrame | Body(body: seq<U8>) | ProtocolError

  /** What unread bytes hold first: nothing complete yet, a whole frame, or a length that is too large. */
  function NextFrame(p: seq<U8>): Outcome {
    if |p| < PREFIX then NoFrame
    else
      var length := Value(p[..PREFIX]);
      if length > MAX_FRAME then ProtocolError
      else if |p| < PREFIX + length then NoFrame
      else Body(p[PREFIX..PREFIX + length])
  }

  /** The unread bytes after one extraction. */
  function AfterFrame(p: seq<U8>): seq<U8> {
    var o := NextFrame(p);
    if o.Body? then p[PREFIX + |o.body|..] else p
  }

  /** What the unread bytes of a buffer hold, in terms of positions in the buffer. */
  lemma Outcomes(buffer: seq<U8>, at: nat)
    requires at <= |buffer|
    ensures var p, available := buffer[at..], |buffer| - at;
            if available < PREFIX then NextFrame(p) == NoFrame && AfterFrame(p) == p
            else
              var length := Value(buffer[at..at + PREFIX]);
              if length > MAX_FRAME then NextFrame(p) == ProtocolError && AfterFrame(p) == p
              else if available < PREFIX + length then NextFrame(p) == NoFrame && AfterFrame(p) == p
              else NextFrame(p) == Body(buffer[at + PREFIX..at + PREFIX + length]) && AfterFrame(p) == buffer[at + PREFIX + length..]
  {
    hide Value;
    var p := buffer[at..];
    if |p| >= PREFIX {
      assert p[..PREFIX] == buffer[at..at + PREFIX];
      var length := Value(buffer[at..at + PREFIX]);
      if |p| >= PREFIX + length {
        assert p[PREFIX..PREFIX + length] == buffer[at + PREFIX..at + PREFIX + length];
        assert p[PREFIX + length..] == buffer[at + PREFIX + length..];
      }
    }
  }

  /** The length prefix, its four bytes or-ed together in place. */
  method LengthAt(buffer: seq<U8>, at: nat) returns (length: nat)
    requires at + PREFIX <= |buffer|
    ensures length == Value(buffer[at..at + PREFIX])
  {
    hide Pow2, Pow256, Value, BitOr;
    length := 0;
    NoValue(buffer, at);
    for i := 0 to PREFIX
      invariant length == Value(buffer[at..at + i])
    {
      var b := buffer[at + i];
      ValueSnoc(buffer[at..at + i], b);
      assert buffer[at..at + i + 1] == buffer[at..at + i] + [b];
      Pow256IsPow2(i);
      OrIsAdd(length, b, 8 * i);
      length := BitOr(length, b * Pow256(i));
    }
  }

  class FrameDecoder {
    var buffer: seq<U8>
    var readOffset: nat

    ghost predicate Valid()
      reads this
    {
      readOffset <= |buffer|
    }

    /** The bytes fed and not yet extracted. */
    function Pending(): seq<U8>
      requires Valid()
      reads this
    {
      buffer[readOffset..]
    }

    constructor ()
      ensures Valid() && Pending() == []
    {
      buffer, readOffset := [], 0;
    }

    method Feed(data: seq<U8>)
      requires Valid()
      modifies this
      ensures Valid() && Pending() == old(Pending()) + data
    {
      buffer := buffer + data;
    }

    /** Drop consumed bytes once they are more than half of the buffer: unread bytes stay, and fill at least half of it. */
    method Compact()
      requires Valid()
      modifies this
      ensures Valid() && Pending() == old(Pending()) && |buffer| <= 2 * |Pending()|
    {
      if readOffset == |buffer| {
        buffer := [];
        readOffset := 0;
      } else if readOffset > 0 && readOffset * 2 > |buffer| {
        buffer := buffer[readOffset..];
        readOffset := 0;
      }
    }

    method TryExtractFrame() returns (ok: bool, body: seq<U8>, protocolError: bool)
      requires Valid()
      modifies this
      ensures Valid() && Pending() == AfterFrame(old(Pending()))
      ensures match NextFrame(old(Pending()))
              case NoFrame => !ok && !protocolError
              case Body(b) => ok && body == b && !protocolError
              case ProtocolError => !ok && protocolError
      ensures !protocolError ==> |buffer| <= 2 * |Pending()|
    {
      hide Value, NextFrame, AfterFrame;
      ok, body, protocolError := false, [], false;
      Outcomes(buffer, readOffset);
      var available := |buffer| - readOffset;
      if available < PREFIX {
        Compact();
        return;
      }
      var length := LengthAt(buffer, readOffset);
      if length > MAX_FRAME {
        protocolError := true;
        return;
      }
      if available < PREFIX + length {
        Compact();
        return;
      }
      body := buffer[readOffset + PREFIX..readOffset + PREFIX + length];
      readOffset := readOffset + PREFIX + length;
      Compact();
      ok := true;
    }
  }

  // ----- Streams of frames -----

  function Stream(bodies: seq<seq<U8>>): seq<U8> {
    if bodies == [] then [] else Frame(bodies[0]) + Stream(bodies[1..])
  }

  ghost predicate Sendable(bodies: seq<seq<U8>>) {
    forall i :: 0 <= i < |bodies| ==> |bodies[i]| <= 0x1_0000
  }

  lemma PrefixValue(body: seq<U8>)
    requires |body| <= MAX_FRAME
    ensures Value(LE(4, |body|)) == |body|
  {
    Widths();
    ValueOfLE(4, |body|);
  }

  /** Unread bytes that are a front part of a stream hold the first frame or are still short of it: never an error. */
  lemma NextOfStream(p: seq<U8>, bodies: seq<seq<U8>>)
    requires Sendable(bodies) && p <= Stream(bodies)
    ensures NextFrame(p) == if bodies != [] && |p| >= |Frame(bodies[0])| then Body(bodies[0]) else NoFrame
    ensures NextFrame(p).Body? ==> AfterFrame(p) <= Stream(bodies[1..]) && p == Frame(bodies[0]) + AfterFrame(p)
  {
    hide Value, LE, Pow256;
    if bodies != [] && |p| >= PREFIX {
      var b, s := bodies[0], Stream(bodies);
      var f := Frame(b);
      PrefixValue(b);
      assert s[..PREFIX] == LE(4, |b|);
      assert p == s[..|p|];
      assert p[..PREFIX] == s[..PREFIX];
      if |p| >= |f| {
        assert s[..|f|] == f && s[|f|..] == Stream(bodies[1..]);
        assert p[..|f|] == f;
        assert p[PREFIX..|f|] == b;
        assert p[|f|..] <= s[|f|..];
      }
    }
  }

  datatype Use = Feed(data: seq<U8>) | Extract

  /** A whole frame at the front comes out whatever follows it. */
  lemma FrameFirst(body: seq<U8>, more: seq<U8>)
    requires |body| <= MAX_FRAME
    ensures NextFrame(Frame(body) + more) == Body(body) && AfterFrame(Frame(body) + more) == more
  {
    hide Value, LE, Pow256;
    var p := Frame(body) + more;
    PrefixValue(body);
    assert p[..PREFIX] == LE(4, |body|) && p[PREFIX..PREFIX + |body|] == body && p[PREFIX + |body|..] == more;
  }

  /** All bytes fed, in order. */
  function Fed(us: seq<Use>): seq<U8> {
    if us == [] then [] else (if us[0].Feed? then us[0].data else []) + Fed(us[1..])
  }

  datatype Decoding = Decoding(pending: seq<U8>, out: seq<seq<U8>>, failed: bool)

  function Decode(d: Decoding, us: seq<Use>): Decoding
    decreases |us|
  {
    if us == [] then d
    else if us[0].Feed? then Decode(d.(pending := d.pending + us[0].data), us[1..])
    else
      var o := NextFrame(d.pending);
      Decode(Decoding(AfterFrame(d.pending), if o.Body? then d.out + [o.body] else d.out, d.failed || o.ProtocolError?), us[1..])
  }

  /** The decoder object, driven by any mix of feeds and extraction calls, does what Decode says. */
  method Drive(us: seq<Use>) returns (out: seq<seq<U8>>, failed: bool)
    ensures var d := Decode(Decoding([], [], false), us); out == d.out && failed == d.failed
  {
    hide NextFrame, AfterFrame;
    var dec := new FrameDecoder();
    out, failed := [], false;
    for i := 0 to |us|
      invariant dec.Valid() && fresh(dec)
      invariant Decode(Decoding(dec.Pending(), out, failed), us[i..]) == Decode(Decoding([], [], false), us)
    {
      assert us[i..][1..] == us[i + 1..] && us[i..][0] == us[i];
      if us[i].Feed? {
        dec.Feed(us[i].data);
      } else {
        var ok, body, error := dec.TryExtractFrame();
        if ok { out := out + [body]; }
        if error { failed := true; }
      }
    }
    assert us[|us|..] == [];
  }

  /** State after any uses: the first `n` bodies are out and the unread bytes are the rest of what was fed. */
  ghost predicate Decoded(bodies: seq<seq<U8>>, fed: seq<U8>, d: Decoding) {
    && |d.out| <= |bodies| && d.out == bodies[..|d.out|] && !d.failed
    && fed == Stream(bodies[..|d.out|]) + d.pending
  }

  lemma {:induction false} StreamConcat(a: seq<seq<U8>>, b: seq<seq<U8>>)
    ensures Stream(a + b) == Stream(a) + Stream(b)
    decreases |a|
  {
    hide Frame;
    if a == [] {
      assert a + b == b && Stream(a) + Stream(b) == Stream(b);
    } else {
      assert (a + b)[0] == a[0] && (a + b)[1..] == a[1..] + b;
      StreamConcat(a[1..], b);
      Associate(Frame(a[0]), Stream(a[1..]), Stream(b));
    }
  }

  lemma StreamNext(bodies: seq<seq<U8>>, n: nat)
    requires n < |bodies|
    ensures Stream(bodies[..n + 1]) == Stream(bodies[..n]) + Frame(bodies[n])
  {
    hide Frame;
    var last: seq<seq<U8>> := [bodies[n]];
    StreamConcat(bodies[..n], last);
    assert bodies[..n + 1] == bodies[..n] + last;
    assert last[1..] == [] && Stream(last) == Frame(bodies[n]) + [];
  }

  lemma PendingOfStream(bodies: seq<seq<U8>>, fed: seq<U8>, d: Decoding)
    requires Decoded(bodies, fed, d) && fed <= Stream(bodies)
    ensures d.pending <= Stream(bodies[|d.out|..])
  {
    var n := |d.out|;
    StreamConcat(bodies[..n], bodies[n..]);
    assert bodies == bodies[..n] + bodies[n..];
    var s, k := Stream(bodies), |Stream(bodies[..n])|;
    assert s[k..] == Stream(bodies[n..]);
    assert fed == s[..|fed|] && fed[k..] == d.pending;
    assert s[..|fed|][k..] == s[k..][..|fed| - k];
  }

  /** One extraction call: out comes the next body exactly when all of its frame has been fed. */
  lemma ExtractStep(bodies: seq<seq<U8>>, fed: seq<U8>, d: Decoding)
    requires Sendable(bodies) && Decoded(bodies, fed, d) && fed <= Stream(bodies)
    ensures var n, o := |d.out|, NextFrame(d.pending);
            && o == (if n < |bodies| && |Stream(bodies[..n + 1])| <= |fed| then Body(bodies[n]) else NoFrame)
            && Decoded(bodies, fed, Decoding(AfterFrame(d.pending), if o.Body? then d.out + [o.body] else d.out, d.failed || o.ProtocolError?))
  {
    hide NextFrame, Stream, Frame;
    var n := |d.out|;
    PendingOfStream(bodies, fed, d);
    SendableTail(bodies, n);
    NextOfStream(d.pending, bodies[n..]);
    if n < |bodies| {
      StreamNext(bodies, n);
      if NextFrame(d.pending).Body? {
        assert bodies[..n + 1] == bodies[..n] + [bodies[n]];
        assert Stream(bodies[..n]) + (Frame(bodies[n]) + AfterFrame(d.pending))
            == Stream(bodies[..n]) + Frame(bodies[n]) + AfterFrame(d.pending);
      }
    }
  }

  lemma SendableTail(bodies: seq<seq<U8>>, n: nat)
    requires Sendable(bodies) && n <= |bodies|
    ensures Sendable(bodies[n..])
  {
  }

  /**
    For every list of bodies, every chunking of their frames and every placement of extraction calls, as
    far as the bytes fed agree with the stream: the decoder has yielded a front part of the bodies, in
    order and without error, and holds exactly the bytes that follow.
   */
  lemma {:induction false} StreamDecodes(bodies: seq<seq<U8>>, fed: seq<U8>, d: Decoding, us: seq<Use>)
    requires Sendable(bodies) && Decoded(bodies, fed, d) && fed + Fed(us) <= Stream(bodies)
    ensures Decoded(bodies, fed + Fed(us), Decode(d, us))
    decreases |us|
  {
    hide Decoded, NextFrame, AfterFrame, Stream, Sendable;
    if us == [] {
      assert fed + [] == fed;
    } else if us[0].Feed? {
      var x := us[0].data;
      assert fed + (x + Fed(us[1..])) == fed + x + Fed(us[1..]);
      FeedStep(bodies, fed, d, x);
      StreamDecodes(bodies, fed + x, d.(pending := d.pending + x), us[1..]);
    } else {
      assert Fed(us) == Fed(us[1..]);
      assert fed == (fed + Fed(us))[..|fed|];
      ExtractStep(bodies, fed, d);
      var o := NextFrame(d.pending);
      StreamDecodes(bodies, fed, Decoding(AfterFrame(d.pending), if o.Body? then d.out + [o.body] else d.out, d.failed || o.ProtocolError?), us[1..]);
    }
  }

  lemma FeedStep(bodies: seq<seq<U8>>, fed: seq<U8>, d: Decoding, x: seq<U8>)
    requires Decoded(bodies, fed, d)
    ensures Decoded(bodies, fed + x, d.(pending := d.pending + x))
  {
    hide Stream;
    assert Stream(bodies[..|d.out|]) + d.pending + x == Stream(bodies[..|d.out|]) + (d.pending + x);
  }

  /** Once the whole stream is fed, enough extraction calls yield every body and leave nothing unread. */
  lemma {:induction false} DrainYieldsAll(bodies: seq<seq<U8>>, d: Decoding, us: seq<Use>)
    requires Sendable(bodies) && Decoded(bodies, Stream(bodies), d) && |us| >= |bodies| - |d.out|
    requires forall i :: 0 <= i < |us| ==> us[i].Extract?
    ensures Decode(d, us) == Decoding([], bodies, false)
    decreases |us|
  {
    hide NextFrame, AfterFrame, Stream, Sendable;
    if |d.out| == |bodies| {
      assert bodies[..|bodies|] == bodies;
      assert d == Decoding([], bodies, false);
    }
    if us != [] {
      ExtractStep(bodies, Stream(bodies), d);
      if |d.out| < |bodies| {
        StreamPrefixLength(bodies, |d.out| + 1);
      } else {
        NothingLeft();
      }
      var o := NextFrame(d.pending);
      DrainYieldsAll(bodies, Decoding(AfterFrame(d.pending), if o.Body? then d.out + [o.body] else d.out, d.failed || o.ProtocolError?), us[1..]);
    }
  }

  lemma NothingLeft()
    ensures NextFrame([]) == NoFrame && AfterFrame([]) == []
  {
  }

  lemma StreamPrefixLength(bodies: seq<seq<U8>>, n: nat)
    requires n <= |bodies|
    ensures |Stream(bodies[..n])| <= |Stream(bodies)|
  {
    StreamConcat(bodies[..n], bodies[n..]);
    assert bodies == bodies[..n] + bodies[n..];
  }

  /** From a fresh decoder: any chunking of the whole stream, any extraction calls on the way, then a drain. */
  lemma EveryChunkingDecodes(bodies: seq<seq<U8>>, us: seq<Use>, drain: seq<Use>)
    requires Sendable(bodies) && Fed(us) == Stream(bodies)
    requires |drain| >= |bodies| && forall i :: 0 <= i < |drain| ==> drain[i].Extract?
    ensures Decode(Decode(Decoding([], [], false), us), drain) == Decoding([], bodies, false)
  {
    hide Decode, NextFrame, Stream;
    assert bodies[..0] == [] && Stream([]) == [] by { EmptyStream(); }
    assert [] + Fed(us) == Fed(us);
    assert Decoded(bodies, [], Decoding([], [], false));
    StreamDecodes(bodies, [], Decoding([], [], false), us);
    DrainYieldsAll(bodies, Decode(Decoding([], [], false), us), drain);
  }

  lemma EmptyStream()
    ensures Stream([]) == []
  {
  }
}
