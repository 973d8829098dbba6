// The one-way pipes between the collector processes and the display process,
// seen as byte streams, and the native (little-endian) encodings of the
// values written on them: an 8-byte `size_t` length header, a 4-byte `int`
// user count and a 56-byte array of seven `unsigned long` CPU counters.
module Channel {
  import opened Common

  function Pow256(k: nat): (r: nat)
    ensures r >= 1
  {
    if k == 0 then 1 else 256 * Pow256(k - 1)
  }

  /** Eight bytes hold exactly the values of an `unsigned long`. */
  lemma WordLimit()
    ensures Pow256(SizeOfULong) == ULongLimit
  {
    assert Pow256(4) == 0x1_0000_0000;
  }

  /** `n` as `k` little-endian bytes (how `write(fd, &n, k)` lays it out). */
  function EncodeLE(n: nat, k: nat): (r: seq<Byte>)
    requires n < Pow256(k)
    ensures |r| == k
  {
    if k == 0 then []
    else
      assert n / 256 < Pow256(k - 1);
      [(n % 256) as char] + EncodeLE(n / 256, k - 1)
  }

  /** The value little-endian bytes denote; a short read leaves the missing high bytes at zero. */
  function DecodeLE(b: seq<Byte>): (r: nat)
    ensures r < Pow256(|b|)
  {
    if b == [] then 0 else b[0] as int + 256 * DecodeLE(b[1..])
  }

  lemma {:induction false} DecodeEncodeLE(n: nat, k: nat)
    requires n < Pow256(k)
    ensures DecodeLE(EncodeLE(n, k)) == n
  {
    if k > 0 {
      assert n / 256 < Pow256(k - 1);
      var e := EncodeLE(n, k);
      assert e[1..] == EncodeLE(n / 256, k - 1);
      DecodeEncodeLE(n / 256, k - 1);
    }
  }

  /** A `size_t` length header. */
  function SizeHeader(n: nat): (r: seq<Byte>)
    requires n < ULongLimit
    ensures |r| == SizeOfSizeT
  {
    WordLimit();
    EncodeLE(n, SizeOfSizeT)
  }

  /** One frame as the producers write it: a header giving the byte count of the text plus its NUL, then those bytes. */
  function TextFrame(text: seq<Byte>): (r: seq<Byte>)
    requires |text| + 1 < ULongLimit
    ensures |r| == SizeOfSizeT + |text| + 1
  {
    SizeHeader(|text| + 1) + text + [Nul]
  }

  /** Reading a header back from the front of a stream gives the length that was written. */
  lemma HeaderRoundTrip(n: nat, rest: seq<Byte>)
    requires n < ULongLimit
    ensures (SizeHeader(n) + rest)[..SizeOfSizeT] == SizeHeader(n)
    ensures DecodeLE(SizeHeader(n)) == n
    ensures (SizeHeader(n) + rest)[SizeOfSizeT..] == rest
  {
    WordLimit();
    DecodeEncodeLE(n, SizeOfSizeT);
  }

  /** A frame at the front of a stream splits back into its header, its text with the NUL, and the rest. */
  lemma FrameParts(text: seq<Byte>, rest: seq<Byte>)
    requires |text| + 1 < ULongLimit
    ensures Take(TextFrame(text) + rest, SizeOfSizeT) == SizeHeader(|text| + 1)
    ensures DecodeLE(SizeHeader(|text| + 1)) == |text| + 1
    ensures (TextFrame(text) + rest)[SizeOfSizeT..] == text + [Nul] + rest
    ensures Take(text + [Nul] + rest, |text| + 1) == text + [Nul]
    ensures (text + [Nul] + rest)[|text| + 1..] == rest
  {
    var body := text + [Nul] + rest;
    HeaderRoundTrip(|text| + 1, body);
    assert TextFrame(text) + rest == SizeHeader(|text| + 1) + body;
    assert body[..|text| + 1] == text + [Nul];
  }

  /** Counters as consecutive 8-byte `unsigned long` words, first counter first. */
  function EncodeWords(ws: seq<nat>): (r: seq<Byte>)
    requires forall i :: 0 <= i < |ws| ==> ws[i] < ULongLimit
    ensures |r| == |ws| * SizeOfULong
  {
    WordLimit();
    if ws == [] then [] else EncodeLE(ws[0], SizeOfULong) + EncodeWords(ws[1..])
  }

  /** Consecutive 8-byte words read back as counters. */
  function DecodeWords(b: seq<Byte>): (ws: seq<nat>)
    requires |b| % SizeOfULong == 0
    ensures |ws| * SizeOfULong == |b|
    ensures forall i :: 0 <= i < |ws| ==> ws[i] < ULongLimit
  {
    WordLimit();
    if b == [] then [] else [DecodeLE(b[..SizeOfULong])] + DecodeWords(b[SizeOfULong..])
  }

  lemma {:induction false} WordsRoundTrip(ws: seq<nat>)
    requires forall i :: 0 <= i < |ws| ==> ws[i] < ULongLimit
    ensures DecodeWords(EncodeWords(ws)) == ws
  {
    WordLimit();
    if ws != [] {
      var head := EncodeLE(ws[0], SizeOfULong);
      var tail := EncodeWords(ws[1..]);
      assert (head + tail)[..SizeOfULong] == head && (head + tail)[SizeOfULong..] == tail;
      DecodeEncodeLE(ws[0], SizeOfULong);
      WordsRoundTrip(ws[1..]);
    }
  }

  /** The seven counters of a CPU snapshot as one 56-byte block. */
  function EncodeSnapshot(s: Snapshot): (r: seq<Byte>)
    ensures |r| == CpuSlots * SizeOfULong
  {
    EncodeWords(s)
  }

  function DecodeSnapshot(b: seq<Byte>): (s: Snapshot)
    requires |b| == CpuSlots * SizeOfULong
  {
    DecodeWords(b)
  }

  lemma SnapshotRoundTrip(s: Snapshot)
    ensures DecodeSnapshot(EncodeSnapshot(s)) == s
  {
    WordsRoundTrip(s);
  }

  /** Snapshots written one after another. */
  function SnapshotStream(ss: seq<Snapshot>): (r: seq<Byte>)
    ensures |r| == |ss| * (CpuSlots * SizeOfULong)
  {
    if ss == [] then [] else SnapshotStream(ss[..|ss| - 1]) + EncodeSnapshot(ss[|ss| - 1])
  }

  /** A 4-byte `int` holding a non-negative count. */
  function IntBytes(n: nat): (r: seq<Byte>)
    requires n < 0x8000_0000
    ensures |r| == SizeOfInt
  {
    assert Pow256(4) == 0x1_0000_0000;
    EncodeLE(n, SizeOfInt)
  }

  /**
   * One end-to-end pipe: the bytes written and not yet read, and how many
   * more `write` calls succeed before the reading side goes away (a write
   * after that returns -1, as `write` does on a broken pipe).
   */
  class Pipe {
    var unread: seq<Byte>
    var remainingWrites: nat

    constructor (writes: nat)
      ensures unread == [] && remainingWrites == writes
    {
      unread := [];
      remainingWrites := writes;
    }

    /** `write(fd, data, |data|)`: appends everything, or fails and appends nothing. */
    method Write(data: seq<Byte>) returns (ok: bool)
      modifies this
      ensures ok == (old(remainingWrites) > 0)
      ensures unread == if ok then old(unread) + data else old(unread)
      ensures remainingWrites == if ok then old(remainingWrites) - 1 else 0
    {
      ok := remainingWrites > 0;
      if ok {
        unread := unread + data;
        remainingWrites := remainingWrites - 1;
      }
    }

    /** `read(fd, buf, n)` once the writer has finished: up to `n` of the waiting bytes, none at end of stream. */
    method Read(n: nat) returns (got: seq<Byte>)
      modifies this
      ensures got == Take(old(unread), n)
      ensures unread == old(unread)[|got|..]
      ensures remainingWrites == old(remainingWrites)
    {
      got := Take(unread, n);
      unread := unread[|got|..];
    }
  }
}
