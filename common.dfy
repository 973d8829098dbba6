// Shared constants, the byte type of C strings and pipe payloads, and the
// seven-slot CPU counter snapshot, as declared in the monitor's common header.
module Common {

  const MaxUserInput := 32
  const MaxMemoryBuffer := 1024
  const MaxCpuBuffer := 1024
  const MaxUserBuffer := 4096
  const DefaultSamples := 10
  const DefaultDelay := 1

  /** Number of counters in one CPU snapshot: user, nice, system, idle, iowait, irq, softirq. */
  const CpuSlots := 7

  const SizeOfSizeT := 8
  const SizeOfInt := 4
  const SizeOfULong := 8

  /** One byte of a C string or of a pipe's byte stream. */
  type Byte = c: char | c as int < 256

  const Nul: Byte := '\0'
  const Newline: Byte := '\n'

  /** Exclusive upper bound of a 64-bit `unsigned long` / `size_t`. */
  const ULongLimit := 0x1_0000_0000_0000_0000

  /** A 64-bit `unsigned long` / `uint64_t`. */
  type ULong = x: nat | x < ULongLimit

  /** The seven `unsigned long` counters the platform layer reports, in /proc/stat order. */
  type Snapshot = s: seq<nat> | |s| == CpuSlots && forall i :: 0 <= i < |s| ==> s[i] < ULongLimit
    witness [0, 0, 0, 0, 0, 0, 0]

  const ZeroSnapshot: Snapshot := [0, 0, 0, 0, 0, 0, 0]

  datatype Option<T> = None | Some(value: T)

  function Min(a: int, b: int): int { if a <= b then a else b }

  function Max(a: int, b: int): int { if a <= b then b else a }

  /** `n` copies of `c`. */
  function Repeat<T>(c: T, n: nat): (r: seq<T>)
    ensures |r| == n
    ensures forall i :: 0 <= i < n ==> r[i] == c
  {
    if n == 0 then [] else Repeat(c, n - 1) + [c]
  }

  /** The first `n` elements of `s`, or all of `s` when it is shorter (what a bounded copy keeps). */
  function Take<T>(s: seq<T>, n: int): (r: seq<T>)
    ensures |r| == if n <= 0 then 0 else Min(n, |s|)
    ensures r <= s
  {
    if n <= 0 then [] else if n < |s| then s[..n] else s
  }

  predicate NoNul(s: seq<Byte>) { forall i :: 0 <= i < |s| ==> s[i] != Nul }

  /** The C string a NUL-terminated buffer holds: every byte before the first NUL. */
  function CString(s: seq<Byte>): (r: seq<Byte>)
    ensures r <= s && NoNul(r)
    ensures |r| < |s| ==> s[|r|] == Nul
  {
    if s == [] then [] else if s[0] == Nul then [] else [s[0]] + CString(s[1..])
  }

  lemma {:induction false} CStringOfTerminated(p: seq<Byte>, rest: seq<Byte>)
    requires NoNul(p)
    ensures CString(p + [Nul] + rest) == p
  {
    if p != [] {
      assert (p + [Nul] + rest)[1..] == p[1..] + [Nul] + rest;
      CStringOfTerminated(p[1..], rest);
    }
  }

  /** Concatenation regrouped; stated on the terms a caller holds, it spares the solver an extensionality proof. */
  lemma AppendAssoc(a: seq<Byte>, b: seq<Byte>, c: seq<Byte>)
    ensures (a + b) + c == a + (b + c)
  {
  }

  /** A terminator placed after `p` cuts the C string there, whatever `p` holds. */
  lemma {:induction false} CStringBeforeNul(p: seq<Byte>, rest: seq<Byte>)
    ensures CString(p + [Nul] + rest) == CString(p)
  {
    if p != [] && p[0] != Nul {
      assert (p + [Nul] + rest)[1..] == p[1..] + [Nul] + rest;
      CStringBeforeNul(p[1..], rest);
    }
  }

  lemma CStringOfNulFree(p: seq<Byte>)
    requires NoNul(p)
    ensures CString(p) == p
  {
    if p != [] {
      CStringOfNulFree(p[1..]);
    }
  }

  /** C's `(int)` conversion of a real: truncation toward zero. */
  function Trunc(x: real): int
  {
    if x >= 0.0 then x.Floor else -((-x).Floor)
  }

  function Abs(x: real): real { if x < 0.0 then -x else x }

  /** C's integer `/` for a positive divisor: the quotient truncated toward zero. */
  function CDiv(a: int, b: int): int
    requires b > 0
  {
    if a >= 0 then a / b else -((-a) / b)
  }

  /** C's integer `%` for a positive divisor: the remainder takes the sign of the dividend. */
  function CRem(a: int, b: int): int
    requires b > 0
  {
    a - CDiv(a, b) * b
  }

  lemma CDivRem(a: int, b: int)
    requires b > 0
    ensures CDiv(a, b) * b + CRem(a, b) == a
    ensures -b < CRem(a, b) < b
    ensures a >= 0 ==> CDiv(a, b) == a / b && CRem(a, b) == a % b && 0 <= CRem(a, b)
    ensures a <= 0 ==> CDiv(a, b) <= 0 && CRem(a, b) <= 0
  {
    if a >= 0 {
      assert CDiv(a, b) == a / b;
      assert a / b * b + a % b == a;
    } else {
      var q, r := (-a) / b, (-a) % b;
      assert -a == q * b + r && 0 <= r < b && q >= 0;
      assert CDiv(a, b) == -q;
      assert CDiv(a, b) * b == -(q * b);
      assert CRem(a, b) == -r;
    }
  }
}
