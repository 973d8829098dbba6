// The memory collector and its display helpers: the loop that frames one
// memory line per sample onto the memory channel (`storeMemoryInfo`), the
// figures that line reports, the line selection of `printMemoryInfo`, the
// change graphic of `createMemoryGraphics` and `reserveSpace`.
module Memory {
  import opened Common
  import opened Channel
  import opened Platform
  import PlatformLinux

  /** The text sent in place of figures when `sysinfo` fails. */
  const SysinfoErrorText: seq<Byte> := "Error getting system info"

  /** A payload as it travels on the memory channel: a C string that fits `memBuffer[MAX_MEMORY_BUFFER]` with its NUL. */
  type MemPayload = p: seq<Byte> | |p| < MaxMemoryBuffer && NoNul(p)

  /** The four GB figures of one memory line. */
  datatype MemoryFigures = MemoryFigures(physUsed: real, physTotal: real, virtualUsed: real, virtualTotal: real)

  function Figures(c: MemCounters): MemoryFigures {
    var physTotal := c.totalram as real / GiB;
    var physFree := c.freeram as real / GiB;
    var physUsed := physTotal - physFree;
    var swapTotal := c.totalswap as real / GiB;
    var swapFree := c.freeswap as real / GiB;
    MemoryFigures(physUsed, physTotal, physUsed + (swapTotal - swapFree), physTotal + swapTotal)
  }

  /**
   * The line reports used = total − free for physical memory; virtual used
   * adds used swap and virtual total adds total swap, so the gap between
   * virtual total and virtual used is exactly the free RAM plus free swap.
   * Virtual used is the figure the graphics compare (`calculate_memory_usage`).
   */
  lemma FiguresSums(c: MemCounters)
    ensures var f := Figures(c);
      f.physUsed * GiB == c.totalram as real - c.freeram as real
      && f.virtualUsed - f.physUsed == (c.totalswap as real - c.freeswap as real) / GiB
      && f.virtualTotal - f.physTotal == c.totalswap as real / GiB
      && f.virtualTotal - f.virtualUsed == (c.freeram as real + c.freeswap as real) / GiB
      && f.virtualUsed <= f.virtualTotal && f.physUsed <= f.physTotal
      && f.virtualUsed == PlatformLinux.MemoryUsage(Some(c))
  {
  }

  /** One `sysinfo` outcome of the producer; `text` stands for the `%.2f` line formatted from the figures. */
  datatype Sample = SysinfoFailed | SysinfoRead(text: seq<Byte>)

  /** The payload of one frame: the error text, or the formatted line cut by `snprintf` to the buffer. */
  function Payload(s: Sample): (p: MemPayload)
    ensures s.SysinfoFailed? ==> p == SysinfoErrorText
    ensures s.SysinfoRead? ==> p <= s.text && (|p| == |s.text| || |p| == MaxMemoryBuffer - 1 || s.text[|p|] == Nul)
  {
    if s.SysinfoFailed? then SysinfoErrorText else Take(CString(s.text), MaxMemoryBuffer - 1)
  }

  /** The first `i` payloads framed back to back: each a header `strlen + 1`, then the text and its NUL. */
  function Frames(ps: seq<MemPayload>, i: nat): seq<Byte>
    requires i <= |ps|
  {
    if i == 0 then [] else Frames(ps, i - 1) + TextFrame(ps[i - 1])
  }

  /**
   * What a run delivers when the pipe accepts `budget` more writes: every
   * frame whose two writes were both accepted, plus the lone header of the
   * frame cut after its first write.
   */
  function Delivered(ps: seq<MemPayload>, budget: nat): seq<Byte> {
    var f := Min(budget / 2, |ps|);
    Frames(ps, f) + (if f < |ps| && budget % 2 == 1 then SizeHeader(|ps[f]| + 1) else [])
  }

  /** A run stopped by a failed write in sample `i` delivered the first `i` frames and, if the header got through, that header. */
  lemma DeliveredWhenStopped(ps: seq<MemPayload>, i: nat, budget: nat)
    requires i < |ps| && 2 * i <= budget < 2 * i + 2
    ensures Delivered(ps, budget) == Frames(ps, i) + (if budget - 2 * i >= 1 then SizeHeader(|ps[i]| + 1) else [])
  {
    assert budget / 2 == i;
  }

  /** A pipe that accepts every write receives every frame. */
  lemma DeliveredWhenComplete(ps: seq<MemPayload>, budget: nat)
    requires budget >= 2 * |ps|
    ensures Delivered(ps, budget) == Frames(ps, |ps|)
  {
    assert budget / 2 >= |ps|;
  }

  /** The payloads of the samples, one per `sysinfo` outcome. */
  function Payloads(readings: seq<Sample>): (ps: seq<MemPayload>)
    ensures |ps| == |readings|
  {
    if readings == [] then [] else Payloads(readings[..|readings| - 1]) + [Payload(readings[|readings| - 1])]
  }

  lemma {:induction false} PayloadsAt(readings: seq<Sample>, k: nat)
    requires k < |readings|
    ensures Payloads(readings)[k] == Payload(readings[k])
  {
    if k < |readings| - 1 {
      PayloadsAt(readings[..|readings| - 1], k);
    }
  }

  /** One frame's two writes: the header, then the payload and its NUL; a failed header write skips the payload. */
  method WriteFrame(payload: MemPayload, pipe: Pipe) returns (ok: bool)
    modifies pipe
    ensures ok == (old(pipe.remainingWrites) >= 2)
    ensures ok ==> pipe.unread == old(pipe.unread) + TextFrame(payload)
    ensures !ok ==> pipe.unread == old(pipe.unread) + (if old(pipe.remainingWrites) == 1 then SizeHeader(|payload| + 1) else [])
    ensures pipe.remainingWrites == if ok then old(pipe.remainingWrites) - 2 else 0
  {
    var header := SizeHeader(|payload| + 1);
    ok := pipe.Write(header);
    if !ok {
      return;
    }
    ok := pipe.Write(payload + [Nul]);
    if ok {
      AppendAssoc(old(pipe.unread), header, payload + [Nul]);
      assert header + (payload + [Nul]) == TextFrame(payload);
    }
  }

  /**
   * `storeMemoryInfo`: for each of `samples` iterations, the header
   * `strlen + 1` and then the payload with its NUL. The first failed write
   * ends the producer, so the pipe receives the whole frames written
   * before it and, when the payload write failed, that frame's header;
   * the run is complete, one frame per sample, exactly when the pipe
   * accepted every write.
   */
  method StoreMemoryInfo(samples: int, readings: seq<Sample>, pipe: Pipe) returns (ok: bool)
    requires samples <= |readings|
    modifies pipe
    ensures var ps := Payloads(readings[..Max(0, samples)]);
      pipe.unread == old(pipe.unread) + Delivered(ps, old(pipe.remainingWrites))
      && ok == (old(pipe.remainingWrites) >= 2 * |ps|)
      && (ok ==> pipe.unread == old(pipe.unread) + Frames(ps, |ps|))
  {
    var n := Max(0, samples);
    ghost var ps := Payloads(readings[..n]);
    ghost var budget := pipe.remainingWrites;
    var i := 0;
    while i < samples
      invariant 0 <= i <= n
      invariant 2 * i <= budget
      invariant pipe.remainingWrites == budget - 2 * i
      invariant pipe.unread == old(pipe.unread) + Frames(ps, i)
    {
      var payload := Payload(readings[i]);
      PayloadsAt(readings[..n], i);
      ok := WriteFrame(payload, pipe);
      if !ok {
        ghost var tail := if budget - 2 * i >= 1 then SizeHeader(|ps[i]| + 1) else [];
        assert pipe.unread == old(pipe.unread) + Frames(ps, i) + tail;
        AppendAssoc(old(pipe.unread), Frames(ps, i), tail);
        DeliveredWhenStopped(ps, i, budget);
        return;
      }
      AppendAssoc(old(pipe.unread), Frames(ps, i), TextFrame(payload));
      i := i + 1;
    }
    DeliveredWhenComplete(ps, budget);
    return true;
  }

  /** The line printed for sample `k` in sequential mode: the current row's text, else blank. */
  function SequentialLine(memArr: seq<seq<Byte>>, iteration: nat, k: int): string
    requires iteration < |memArr|
  {
    if k == iteration then CString(memArr[iteration]) else ""
  }

  /** The heading line `printMemoryInfo` starts with. */
  const MemoryHeading: string := "### Memory ### (Phys.Used/Tot -- Virtual Used/Tot)"

  /**
   * `printMemoryInfo`, as the lines it prints: the heading, then in
   * sequential mode one line per sample holding only the current row
   * (every other line blank), and otherwise the rows 0..iteration.
   */
  method PrintMemoryInfo(sequential: bool, samples: int, memArr: seq<seq<Byte>>, iteration: nat)
    returns (lines: seq<string>)
    requires iteration < |memArr|
    ensures |lines| >= 1 && lines[0] == MemoryHeading
    ensures sequential ==> (|lines| == 1 + Max(0, samples)
      && forall k :: 0 <= k < samples ==> lines[k + 1] == SequentialLine(memArr, iteration, k))
    ensures !sequential ==> (|lines| == iteration + 2
      && forall j :: 0 <= j <= iteration ==> lines[j + 1] == CString(memArr[j]))
  {
    lines := [MemoryHeading];
    if sequential {
      var k := 0;
      while k < samples
        invariant 0 <= k <= Max(0, samples)
        invariant |lines| == k + 1 && lines[0] == MemoryHeading
        invariant forall m :: 0 <= m < k ==> lines[m + 1] == SequentialLine(memArr, iteration, m)
      {
        if k == iteration {
          lines := lines + [CString(memArr[k])];
        } else {
          lines := lines + [""];
        }
        k := k + 1;
      }
    } else {
      var j := 0;
      while j <= iteration
        invariant 0 <= j <= iteration + 1
        invariant |lines| == j + 1 && lines[0] == MemoryHeading
        invariant forall m :: 0 <= m < j ==> lines[m + 1] == CString(memArr[m])
      {
        lines := lines + [CString(memArr[j])];
        j := j + 1;
      }
    }
  }

  /** How many lines `reserveSpace` leaves blank for `samples`. */
  function ReservedLines(samples: int): nat {
    Max(0, samples + 1)
  }

  /** `reserveSpace`: samples + 1 newlines (none for a negative count). */
  method ReserveSpace(samples: int) returns (out: seq<Byte>)
    ensures |out| == ReservedLines(samples)
    ensures forall k :: 0 <= k < |out| ==> out[k] == Newline
  {
    out := [];
    var i := 0;
    while i < samples + 1
      invariant 0 <= i <= ReservedLines(samples)
      invariant |out| == i && forall k :: 0 <= k < i ==> out[k] == Newline
    {
      out := out + [Newline];
      i := i + 1;
    }
  }

  /**
   * The space reserved in non-sequential mode holds the whole memory block
   * of any round (heading plus rows 0..iteration), and exactly fills it in
   * the last round.
   */
  lemma ReservedSpaceHoldsMemoryBlock(samples: int, iteration: nat)
    requires iteration < samples
    ensures iteration + 2 <= ReservedLines(samples)
    ensures iteration == samples - 1 <==> iteration + 2 == ReservedLines(samples)
  {
  }

  /** The most change symbols a graphic may hold: the buffer less the base bar and 50 reserved bytes. */
  const MaxChangeSymbols := MaxMemoryBuffer - 1 - 50

  /** The first sample, or a change below 0.01 GB, is drawn as a marker rather than a bar. */
  predicate MarkerCase(iteration: int, diff: real) {
    iteration == 0 || Abs(diff) < 0.01
  }

  function Marker(diff: real): Byte {
    if diff >= 0.0 then 'o' else '@'
  }

  function ChangeSymbol(diff: real): Byte {
    if diff < 0.0 then ':' else '#'
  }

  function Closer(diff: real): Byte {
    if diff < 0.0 then '@' else '*'
  }

  /** `(int)(fabs(difference) * 100)`: the change in hundredths of a GB. */
  function SymbolsCount(diff: real): nat {
    (Abs(diff) * 100.0).Floor
  }

  /** The symbols actually drawn: the count, bounded by the remaining space. */
  function DrawnSymbols(diff: real): nat {
    Min(SymbolsCount(diff), MaxChangeSymbols)
  }

  /**
   * The graphic for one sample; `info` stands for the formatted
   * " %.2f (%.2f)" of the change and the current usage, which both
   * branches print after their symbols.
   */
  function Graphic(iteration: int, diff: real, info: seq<Byte>): seq<Byte> {
    if MarkerCase(iteration, diff) then Take(['|', Marker(diff)] + info, MaxMemoryBuffer - 1)
    else
      var head := ['|'] + Repeat(ChangeSymbol(diff), DrawnSymbols(diff)) + [Closer(diff)];
      head + Take(Take(info, 99), MaxMemoryBuffer - |head| - 1)
  }

  /**
   * The shape of a graphic: a bar, then either the marker (`o` for no
   * decrease, `@` for a decrease) or `min(trunc(|diff|·100), 973)` copies
   * of `#` (growth) or `:` (shrink) and a closing `*` or `@`. It always
   * fits its own buffer.
   */
  lemma GraphicShape(iteration: int, diff: real, info: seq<Byte>)
    ensures var g := Graphic(iteration, diff, info);
      |g| <= MaxMemoryBuffer - 1 && |g| >= 2 && g[0] == '|'
      && (MarkerCase(iteration, diff) ==> g[1] == Marker(diff))
      && (!MarkerCase(iteration, diff) ==>
            |g| >= DrawnSymbols(diff) + 2
            && (forall k :: 1 <= k <= DrawnSymbols(diff) ==> g[k] == ChangeSymbol(diff))
            && g[DrawnSymbols(diff) + 1] == Closer(diff))
  {
  }

  /** A larger change in the same direction never draws fewer symbols. */
  lemma DrawnSymbolsMonotone(d1: real, d2: real)
    requires 0.0 <= d1 <= d2 || d2 <= d1 <= 0.0
    ensures DrawnSymbols(d1) <= DrawnSymbols(d2)
    ensures ChangeSymbol(d1) == ChangeSymbol(d2) || d1 == 0.0
  {
    assert Abs(d1) * 100.0 <= Abs(d2) * 100.0;
  }

  /** The graphic as `createMemoryGraphics` builds it: the base bar, the symbols one at a time, the closer, then the information. */
  method BuildGraphic(iteration: int, diff: real, info: seq<Byte>) returns (g: seq<Byte>)
    ensures g == Graphic(iteration, diff, info)
  {
    if iteration == 0 || Abs(diff) < 0.01 {
      g := Take(['|', Marker(diff)] + info, MaxMemoryBuffer - 1);
      return;
    }
    var changeSymbol := ChangeSymbol(diff);
    var symbolsCount := SymbolsCount(diff);
    g := ['|'];
    var remaining := MaxMemoryBuffer - |g| - 50;
    var j := 0;
    while j < symbolsCount && j < remaining
      invariant 0 <= j <= DrawnSymbols(diff)
      invariant g == ['|'] + Repeat(changeSymbol, j)
    {
      g := g + [changeSymbol];
      j := j + 1;
    }
    assert j == DrawnSymbols(diff);
    g := g + [Closer(diff)];
    assert g == ['|'] + Repeat(changeSymbol, DrawnSymbols(diff)) + [Closer(diff)];
    var infoStr := Take(info, 99);
    g := g + Take(infoStr, MaxMemoryBuffer - |g| - 1);
  }

  /** The bytes `strcat(memArr[iteration], graphicsStr)` stores from the start of a row whose text is `text`, NUL included. */
  function StrcatBytes(text: seq<Byte>, g: seq<Byte>): seq<Byte> {
    text + g + [Nul]
  }

  /**
   * The append overruns the 1024-byte row: a 41-character memory line and
   * a 10 GB change (a full 973-symbol bar and a 14-character information
   * text) make 1031 bytes before line 121 can cut the row at index 1023.
   */
  lemma StrcatOverflowsRow()
    ensures |StrcatBytes("7.62 GB / 15.50 GB  -- 17.62 GB / 19.50 GB", Graphic(1, 10.0, " 10.00 (17.62)"))| > MaxMemoryBuffer
  {
    assert SymbolsCount(10.0) == 1000;
    var head := ['|'] + Repeat(ChangeSymbol(10.0), MaxChangeSymbols) + [Closer(10.0)];
    assert |head| == 975;
    assert |Graphic(1, 10.0, " 10.00 (17.62)")| == 989;
  }

  /** The intended append: the row's text followed by the graphic, cut so that the row keeps its NUL at index 1023 at the latest. */
  function AppendGraphic(row: seq<Byte>, g: seq<Byte>): (r: seq<Byte>)
    ensures |r| <= MaxMemoryBuffer - 1
    ensures r <= CString(row) + g
    ensures |CString(row) + g| <= MaxMemoryBuffer - 1 ==> r == CString(row) + g
  {
    Take(CString(row) + g, MaxMemoryBuffer - 1)
  }

  /** A graphic appended to a received memory line keeps the whole line, and the row stays a C string that fits. */
  lemma AppendKeepsLine(p: MemPayload, g: seq<Byte>)
    requires NoNul(g)
    ensures AppendGraphic(p, g)[..Min(|p|, |AppendGraphic(p, g)|)] == p[..Min(|p|, |AppendGraphic(p, g)|)]
    ensures NoNul(AppendGraphic(p, g)) && |AppendGraphic(p, g)| >= |p|
  {
    CStringOfNulFree(p);
    var r := AppendGraphic(p, g);
    assert forall k :: 0 <= k < |r| ==> r[k] == (p + g)[k];
  }

  /**
   * `createMemoryGraphics`, with the append bounded to the row: the row at
   * `iteration` becomes its text plus the graphic for the change since the
   * previous value, no other row changes, and the new previous value is
   * the current one.
   */
  method CreateMemoryGraphics(virtualUsed: real, prevUsed: real, memArr: array<seq<Byte>>, iteration: nat,
                              info: seq<Byte>)
    returns (newPrev: real)
    requires iteration < memArr.Length
    modifies memArr
    ensures memArr[iteration] == AppendGraphic(old(memArr[iteration]), Graphic(iteration, virtualUsed - prevUsed, info))
    ensures forall k :: 0 <= k < memArr.Length && k != iteration ==> memArr[k] == old(memArr[k])
    ensures newPrev == virtualUsed
  {
    var difference := virtualUsed - prevUsed;
    var graphics := BuildGraphic(iteration, difference, info);
    memArr[iteration] := AppendGraphic(memArr[iteration], graphics);
    newPrev := virtualUsed;
  }
}
