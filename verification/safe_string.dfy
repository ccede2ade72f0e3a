/**
  The bounds-checked buffer functions of ISO C11 Annex K that the sensor task
  uses on its display buffer: `memset_s` (section K.3.7.4.1) and `sprintf_s`
  (section K.3.5.3.6), plus the C-string view of a character buffer — the
  characters before its first NUL — which is what a text-drawing routine reads.
  A buffer is a sequence of characters; `Nul` is the byte 0.
 */
module SafeString {
  import opened Wrappers
  import opened Printf

  const Nul: char := 0 as char

  /** `memset_s` outcome: the buffer afterwards and whether a runtime-constraint violation occurred. */
  datatype Filled = Filled(buf: seq<char>, violation: bool)

  /** `memset_s(s, smax, c, n)`: writes `c` into the first `n` bytes; when `n`
      exceeds `smax` that is a runtime-constraint violation and the first
      `smax` bytes are written instead. `smax` must not exceed the array. */
  function MemsetS(s: seq<char>, smax: nat, c: char, n: nat): (r: Filled)
    requires smax <= |s|
    ensures |r.buf| == |s|
    ensures r.violation <==> n > smax
    ensures forall i :: 0 <= i < |s| ==>
      r.buf[i] == (if i < n && i < smax then c else s[i])
  {
    var k := if n > smax then smax else n;
    Filled(seq(k, _ => c) + s[k..], n > smax)
  }

  /** `sprintf_s` outcome: the buffer afterwards, the returned count, and
      whether a runtime-constraint violation occurred. The flag is needed
      because a violation and an empty text both return zero. */
  datatype Written = Written(buf: seq<char>, count: int, violation: bool)

  /** Whether `sprintf_s(s, n, fmt, args...)` meets its runtime constraints:
      a positive `n`, a format inside the modelled directives, and room in `n`
      bytes for the text and its NUL. */
  predicate SprintfFits(n: nat, fmt: string, args: seq<int>) {
    n > 0 && Format(fmt, args).Some? && |Format(fmt, args).value| < n
  }

  /** `sprintf_s(s, n, fmt, args...)`: when the runtime constraints hold it
      writes the formatted text and a NUL and returns the text length. On a
      runtime-constraint violation it returns zero and, when `n` is positive,
      sets `s[0]` to NUL. The standard leaves the other bytes unspecified on a
      violation; this model keeps them, as it keeps every byte past the NUL. */
  function SprintfS(s: seq<char>, n: nat, fmt: string, args: seq<int>): (r: Written)
    requires n <= |s|
    ensures |r.buf| == |s|
    ensures r.violation <==> !SprintfFits(n, fmt, args)
    ensures !r.violation ==>
      var t := Format(fmt, args).value;
      && r.count == |t|
      && r.buf[..|t|] == t
      && r.buf[|t|] == Nul
      && r.buf[|t| + 1..] == s[|t| + 1..]
    ensures r.violation ==> r.count == 0
    ensures r.violation && n > 0 ==> r.buf[0] == Nul && r.buf[1..] == s[1..]
    ensures n == 0 ==> r.buf == s
  {
    if n == 0 then Written(s, 0, true)
    else match Format(fmt, args)
      case None => Written(s[0 := Nul], 0, true)
      case Some(t) =>
        if |t| + 1 > n then Written(s[0 := Nul], 0, true)
        else Written(t + [Nul] + s[|t| + 1..], |t|, false)
  }

  predicate NoNul(t: string) {
    forall i :: 0 <= i < |t| ==> t[i] != Nul
  }

  /** The characters before the first NUL of the buffer; none when the buffer
      holds no NUL, since reading such a buffer as a string runs past its end. */
  function CString(buf: seq<char>): (r: Option<string>)
    ensures r.Some? <==> exists i :: 0 <= i < |buf| && buf[i] == Nul
    ensures r.Some? ==>
      && |r.value| < |buf|
      && buf[..|r.value|] == r.value
      && buf[|r.value|] == Nul
      && NoNul(r.value)
  {
    if buf == [] then None
    else if buf[0] == Nul then Some([])
    else Prepend(buf[0], CString(buf[1..]))
  }

  /** A buffer holding a NUL-free text followed by a NUL reads back as that text. */
  lemma {:induction false} CStringOfTerminated(t: string, tail: seq<char>)
    requires NoNul(t)
    ensures CString(t + [Nul] + tail) == Some(t)
  {
    var buf := t + [Nul] + tail;
    if t != [] {
      assert buf[0] == t[0];
      assert buf[1..] == t[1..] + [Nul] + tail;
      CStringOfTerminated(t[1..], tail);
      assert [t[0]] + t[1..] == t;
    } else {
      assert buf[0] == Nul;
    }
  }
}
