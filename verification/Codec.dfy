/** Little-endian fields: the writer and reader loops, and their inverse meaning. */
module Codec {
  import opened Types
  import opened Bits

  function Pow256(n: nat): (p: nat)
    ensures p > 0
  {
    if n == 0 then 1 else 256 * Pow256(n - 1)
  }

  lemma {:induction false} Pow256IsPow2(n: nat)
    ensures Pow256(n) == Pow2(8 * n)
  {
    if n > 0 {
      Pow256IsPow2(n - 1);
      var k := 8 * (n - 1);
      assert Pow2(k + 2) == 4 * Pow2(k);
      assert Pow2(k + 4) == 4 * Pow2(k + 2);
      assert Pow2(k + 6) == 4 * Pow2(k + 4);
      assert Pow2(k + 8) == 4 * Pow2(k + 6);
    }
  }

  /** The `n` low bytes of `v`, least significant first. */
  function LE(n: nat, v: nat): (s: seq<U8>)
    ensures |s| == n
  {
    if n == 0 then [] else [v % 256] + LE(n - 1, v / 256)
  }

  /** The number that bytes, least significant first, stand for. */
  function Value(s: seq<U8>): (v: nat)
    ensures v < Pow256(|s|)
  {
    if s == [] then 0 else s[0] + 256 * Value(s[1..])
  }

  lemma {:induction false} ValueOfLE(n: nat, v: nat)
    requires v < Pow256(n)
    ensures Value(LE(n, v)) == v
  {
    if n > 0 {
      ValueOfLE(n - 1, v / 256);
      assert LE(n, v)[1..] == LE(n - 1, v / 256);
    }
  }

  lemma {:induction false} LEOfValue(s: seq<U8>)
    ensures LE(|s|, Value(s)) == s
  {
    if s != [] {
      LEOfValue(s[1..]);
      assert Value(s) / 256 == Value(s[1..]) && Value(s) % 256 == s[0];
    }
  }

  lemma Widths()
    ensures Pow256(1) == 0x100 && Pow256(4) == 0x1_0000_0000 && Pow256(8) == 0x1_0000_0000_0000_0000
  {
    assert Pow256(2) == 0x1_0000;
    assert Pow256(3) == 0x100_0000;
    assert Pow256(5) == 0x100_0000_0000;
    assert Pow256(6) == 0x1_0000_0000_0000;
    assert Pow256(7) == 0x100_0000_0000_0000;
  }

  /** The i-th byte written is the value shifted right by 8i, cut to eight bits. */
  lemma {:induction false} LEAt(n: nat, v: nat, i: nat)
    requires i < n
    ensures LE(n, v)[i] == (v / Pow256(i)) % 256
  {
    if i > 0 {
      LEAt(n - 1, v / 256, i - 1);
      DivDiv(v, 256, Pow256(i - 1));
    }
  }

  lemma DivDiv(v: nat, a: nat, b: nat)
    requires a > 0 && b > 0
    ensures (v / a) / b == v / (a * b)
  {
    var q := (v / a) / b;
    var r := a * ((v / a) % b) + v % a;
    assert v / a == b * q + (v / a) % b;
    assert v == (a * b) * q + r by {
      assert v == a * (v / a) + v % a;
      assert a * (b * q + (v / a) % b) == (a * b) * q + a * ((v / a) % b);
    }
    assert r < a * b by {
      MulLe(a, (v / a) % b, b - 1);
      assert a * (b - 1) == a * b - a;
    }
    DivModUnique(v, a * b, q, r);
  }

  lemma MulLe(a: nat, x: nat, y: nat)
    requires x <= y
    ensures a * x <= a * y
  {
  }

  lemma MulMove(b: nat, p: nat)
    ensures 256 * (b * p) == b * (256 * p)
  {
  }

  /** Values of bytes read so far, extended by one more byte. */
  lemma {:induction false} ValueSnoc(s: seq<U8>, b: U8)
    ensures Value(s + [b]) == Value(s) + b * Pow256(|s|)
  {
    if s == [] {
      assert s + [b] == [b];
      assert [b][1..] == [];
    } else {
      ValueSnoc(s[1..], b);
      assert (s + [b])[1..] == s[1..] + [b];
      MulMove(b, Pow256(|s| - 1));
    }
  }

  class BufferWriter {
    var buf: seq<U8>

    constructor ()
      ensures buf == []
    {
      buf := [];
    }

    /** Push the bytes of a field, low byte first: WriteU8, WriteU32 and WriteU64 for n = 1, 4 and 8. */
    method Write(n: nat, v: nat)
      modifies this
      ensures buf == old(buf) + LE(n, v)
    {
      for i := 0 to n
        invariant buf == old(buf) + LE(n, v)[..i]
      {
        LEAt(n, v, i);
        buf := buf + [(v / Pow256(i)) % 256];
        assert LE(n, v)[..i + 1] == LE(n, v)[..i] + [LE(n, v)[i]];
      }
      assert LE(n, v)[..n] == LE(n, v);
    }
  }

  lemma NoValue(data: seq<U8>, pos: nat)
    requires pos <= |data|
    ensures Value(data[pos..pos + 0]) == 0
  {
  }

  class BufferReader {
    const data: seq<U8>
    var pos: nat

    constructor (data: seq<U8>)
      ensures this.data == data && pos == 0
    {
      this.data := data;
      pos := 0;
    }

    /** Or the next `n` bytes together, each shifted into place; fail, without moving, when they are not there. */
    method Read(n: nat) returns (ok: bool, v: nat)
      modifies this
      ensures ok <==> old(pos) + n <= |data|
      ensures ok ==> pos == old(pos) + n && v == Value(data[old(pos)..old(pos) + n])
      ensures !ok ==> pos == old(pos)
    {
      hide Pow2, Pow256, Value, BitOr;
      if pos + n > |data| { return false, 0; }
      v := 0;
      NoValue(data, pos);
      for i := 0 to n
        invariant pos == old(pos) && v == Value(data[pos..pos + i])
      {
        var b := data[pos + i];
        ValueSnoc(data[pos..pos + i], b);
        assert data[pos..pos + i + 1] == data[pos..pos + i] + [b];
        Pow256IsPow2(i);
        OrIsAdd(v, b, 8 * i);
        v := BitOr(v, b * Pow256(i));
      }
      pos := pos + n;
      ok := true;
    }
  }

  // ----- Records of fields -----

  function TotalWidth(ws: seq<nat>): nat {
    if ws == [] then 0 else ws[0] + TotalWidth(ws[1..])
  }

  /** Field values that fit their widths in bytes. */
  ghost predicate Fit(ws: seq<nat>, vs: seq<nat>) {
    |ws| == |vs| && forall i :: 0 <= i < |ws| ==> vs[i] < Pow256(ws[i])
  }

  function WriteFields(ws: seq<nat>, vs: seq<nat>): (s: seq<U8>)
    requires |ws| == |vs|
    ensures |s| == TotalWidth(ws)
  {
    if ws == [] then [] else LE(ws[0], vs[0]) + WriteFields(ws[1..], vs[1..])
  }

  /** Read fields in order, failing at the first that is not wholly there. */
  function ReadFields(ws: seq<nat>, data: seq<U8>): (r: Option<seq<nat>>)
    ensures r.Some? ==> |r.value| == |ws|
    ensures r.Some? <==> TotalWidth(ws) <= |data|
  {
    if ws == [] then Some([])
    else if |data| < ws[0] then None
    else
      var rest :- ReadFields(ws[1..], data[ws[0]..]);
      Some([Value(data[..ws[0]])] + rest)
  }

  lemma {:induction false} ReadFit(ws: seq<nat>, data: seq<U8>)
    requires ReadFields(ws, data).Some?
    ensures Fit(ws, ReadFields(ws, data).value)
  {
    if ws != [] { ReadFit(ws[1..], data[ws[0]..]); }
  }

  /** Reading what was written, whatever follows it, gives the fields back. */
  lemma {:induction false} ReadWritten(ws: seq<nat>, vs: seq<nat>, more: seq<U8>)
    requires Fit(ws, vs)
    ensures ReadFields(ws, WriteFields(ws, vs) + more) == Some(vs)
  {
    if ws != [] {
      var head, tail := LE(ws[0], vs[0]), WriteFields(ws[1..], vs[1..]);
      ReadWritten(ws[1..], vs[1..], more);
      ValueOfLE(ws[0], vs[0]);
      var data := head + tail + more;
      assert data[..ws[0]] == head && data[ws[0]..] == tail + more;
      assert [vs[0]] + vs[1..] == vs;
    }
  }

  /** Writing what was read gives back the bytes it was read from. */
  lemma {:induction false} WriteRead(ws: seq<nat>, data: seq<U8>)
    requires ReadFields(ws, data).Some?
    ensures WriteFields(ws, ReadFields(ws, data).value) == data[..TotalWidth(ws)]
  {
    if ws != [] {
      var rest := ReadFields(ws[1..], data[ws[0]..]).value;
      WriteRead(ws[1..], data[ws[0]..]);
      LEOfValue(data[..ws[0]]);
      var vs := [Value(data[..ws[0]])] + rest;
      assert vs[1..] == rest;
      assert data[..ws[0]] + data[ws[0]..][..TotalWidth(ws[1..])] == data[..TotalWidth(ws)];
    }
  }

  // ----- Writing and reading a record one field at a time -----

  lemma {:induction false} WriteSnoc(ws: seq<nat>, vs: seq<nat>, w: nat, v: nat)
    requires |ws| == |vs|
    ensures WriteFields(ws + [w], vs + [v]) == WriteFields(ws, vs) + LE(w, v)
  {
    if ws == [] {
      assert (ws + [w])[1..] == [] && (vs + [v])[1..] == [];
      assert LE(w, v) + [] == [] + LE(w, v);
    } else {
      WriteSnoc(ws[1..], vs[1..], w, v);
      assert (ws + [w])[1..] == ws[1..] + [w] && (vs + [v])[1..] == vs[1..] + [v];
      assert LE(ws[0], vs[0]) + (WriteFields(ws[1..], vs[1..]) + LE(w, v))
          == LE(ws[0], vs[0]) + WriteFields(ws[1..], vs[1..]) + LE(w, v);
    }
  }

  /** The buffer holds `front` and the first `k` fields of the record. */
  ghost predicate Wrote(buf: seq<U8>, front: seq<U8>, ws: seq<nat>, vs: seq<nat>, k: nat) {
    |ws| == |vs| && k <= |ws| && buf == front + WriteFields(ws[..k], vs[..k])
  }

  lemma WroteNext(buf: seq<U8>, front: seq<U8>, ws: seq<nat>, vs: seq<nat>, k: nat)
    requires Wrote(buf, front, ws, vs, k) && k < |ws|
    ensures Wrote(buf + LE(ws[k], vs[k]), front, ws, vs, k + 1)
  {
    hide LE, WriteFields;
    WriteSnoc(ws[..k], vs[..k], ws[k], vs[k]);
    assert ws[..k + 1] == ws[..k] + [ws[k]] && vs[..k + 1] == vs[..k] + [vs[k]];
    assert front + (WriteFields(ws[..k], vs[..k]) + LE(ws[k], vs[k])) == front + WriteFields(ws[..k], vs[..k]) + LE(ws[k], vs[k]);
  }

  lemma WroteStart(front: seq<U8>, ws: seq<nat>, vs: seq<nat>)
    requires |ws| == |vs|
    ensures Wrote(front, front, ws, vs, 0)
  {
    assert front + [] == front;
  }

  lemma WroteAll(buf: seq<U8>, front: seq<U8>, ws: seq<nat>, vs: seq<nat>)
    requires Wrote(buf, front, ws, vs, |ws|)
    ensures buf == front + WriteFields(ws, vs)
  {
    assert ws[..|ws|] == ws && vs[..|vs|] == vs;
  }

  /** The first fields are read into `vs`; the whole record reads as the rest from here does. */
  ghost predicate ReadSoFar(data: seq<U8>, start: nat, ws: seq<nat>, vs: seq<nat>, pos: nat) {
    && start <= |data| && pos <= |data| && |vs| <= |ws|
    && ReadFields(ws, data[start..]) == Before(vs, ReadFields(ws[|vs|..], data[pos..]))
  }

  /** Fields in hand, put before those still to come. */
  ghost function Before(vs: seq<nat>, rest: Option<seq<nat>>): Option<seq<nat>> {
    match rest case None => None case Some(more) => Some(vs + more)
  }

  lemma BeforeNone(vs: seq<nat>)
    ensures Before(vs, None) == None
  {
  }

  lemma BeforeBefore(vs: seq<nat>, v: nat, rest: Option<seq<nat>>)
    ensures Before(vs, Before([v], rest)) == Before(vs + [v], rest)
  {
    match rest case None => case Some(more) => assert vs + ([v] + more) == vs + [v] + more;
  }

  lemma ReadStart(data: seq<U8>, start: nat, ws: seq<nat>)
    requires start <= |data|
    ensures ReadSoFar(data, start, ws, [], start)
  {
    assert ws[0..] == ws;
    match ReadFields(ws, data[start..]) case None => case Some(more) => assert [] + more == more;
  }

  /** The fields still to read, one field further on. */
  lemma RestStep(data: seq<U8>, ws: seq<nat>, k: nat, pos: nat)
    requires k < |ws| && pos <= |data|
    ensures pos + ws[k] > |data| ==> ReadFields(ws[k..], data[pos..]) == None
    ensures pos + ws[k] <= |data| ==>
              ReadFields(ws[k..], data[pos..]) == Before([Value(data[pos..pos + ws[k]])], ReadFields(ws[k + 1..], data[pos + ws[k]..]))
  {
    hide Value;
    assert ws[k..][1..] == ws[k + 1..];
    if pos + ws[k] <= |data| {
      assert data[pos..][..ws[k]] == data[pos..pos + ws[k]] && data[pos..][ws[k]..] == data[pos + ws[k]..];
    }
  }

  lemma NextStep(whole: Option<seq<nat>>, data: seq<U8>, ws: seq<nat>, vs: seq<nat>, pos: nat)
    requires |vs| < |ws| && pos <= |data| && whole == Before(vs, ReadFields(ws[|vs|..], data[pos..]))
    ensures pos + ws[|vs|] > |data| ==> whole == None
    ensures pos + ws[|vs|] <= |data| ==>
              whole == Before(vs + [Value(data[pos..pos + ws[|vs|]])], ReadFields(ws[|vs| + 1..], data[pos + ws[|vs|]..]))
  {
    hide *;
    RestStep(data, ws, |vs|, pos);
    if pos + ws[|vs|] > |data| {
      BeforeNone(vs);
    } else {
      BeforeBefore(vs, Value(data[pos..pos + ws[|vs|]]), ReadFields(ws[|vs| + 1..], data[pos + ws[|vs|]..]));
    }
  }

  /** One more field: read it, or learn that the record is cut short. */
  lemma ReadNext(data: seq<U8>, start: nat, ws: seq<nat>, vs: seq<nat>, pos: nat)
    requires ReadSoFar(data, start, ws, vs, pos) && |vs| < |ws|
    ensures var w := ws[|vs|];
            && (pos + w > |data| ==> ReadFields(ws, data[start..]) == None)
            && (pos + w <= |data| ==> ReadSoFar(data, start, ws, vs + [Value(data[pos..pos + w])], pos + w))
  {
    hide Value, ReadFields, TotalWidth, Pow256, Before;
    NextStep(ReadFields(ws, data[start..]), data, ws, vs, pos);
    if pos + ws[|vs|] <= |data| {
      assert |vs + [Value(data[pos..pos + ws[|vs|]])]| == |vs| + 1;
    }
  }

  lemma ReadAll(data: seq<U8>, start: nat, ws: seq<nat>, vs: seq<nat>, pos: nat)
    requires ReadSoFar(data, start, ws, vs, pos) && |vs| == |ws|
    ensures ReadFields(ws, data[start..]) == Some(vs)
  {
    assert ws[|vs|..] == [];
    assert vs + [] == vs;
  }

  // ----- Signed prices -----

  function AsU64(p: I64): U64 {
    if p < 0 then p + 0x1_0000_0000_0000_0000 else p
  }

  function AsI64(u: U64): I64 {
    if u >= 0x8000_0000_0000_0000 then u - 0x1_0000_0000_0000_0000 else u
  }
}
