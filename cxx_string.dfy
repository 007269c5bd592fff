/** The few `std::string` operations the descriptor parser relies on, with the
    C++ library's own edge cases: `npos`, `size_t` wrap-around and the
    `out_of_range` exception of `substr`. */
module CxxString {
  import opened Outcomes

  /** `std::string::npos` on a 64-bit host: the largest `size_t`. */
  const NPOS: nat := 0xFFFF_FFFF_FFFF_FFFF

  /** Number of distinct `size_t` values. */
  const SIZE_MODULUS: nat := 0x1_0000_0000_0000_0000

  function Min(a: nat, b: nat): nat { if a <= b then a else b }

  /** `a + b` evaluated in `size_t`, which wraps modulo 2^64. */
  function SizeAdd(a: nat, b: nat): (r: nat)
    ensures r < SIZE_MODULUS
    ensures a + b < SIZE_MODULUS ==> r == a + b
    ensures a == NPOS && b == 1 ==> r == 0
  {
    (a + b) % SIZE_MODULUS
  }

  /** `s.find_first_of(c)`: the index of the first `c` in `s`, or `NPOS`.
      Every `std::string` is shorter than `npos` (`max_size() < npos`). */
  function FindFirstOf(s: string, c: char): (r: nat)
    requires |s| < NPOS
    ensures (r == NPOS && c !in s) || (r < |s| && s[r] == c && c !in s[..r])
  {
    if |s| == 0 then NPOS
    else if s[0] == c then 0
    else
      var k := FindFirstOf(s[1..], c);
      if k == NPOS then NPOS
      else
        assert s[..k + 1] == [s[0]] + s[1..][..k];
        k + 1
  }

  /** `s.substr(pos, len)`: throws `out_of_range` when `pos > s.size()`,
      otherwise the at most `len` characters that start at `pos`. */
  function Substr(s: string, pos: nat, len: nat): (r: Result<string>)
    ensures r.Failure? <==> pos > |s|
    ensures r.Failure? ==> r.error == OutOfRange
    ensures r.Success? ==> |r.value| == Min(len, |s| - pos)
    ensures r.Success? ==> forall i :: 0 <= i < |r.value| ==> r.value[i] == s[pos + i]
  {
    if pos > |s| then Failure(OutOfRange)
    else Success(s[pos..pos + Min(len, |s| - pos)])
  }

  /** `s.compare(0, n, t, 0, n) == 0`: the first `n` characters of each string
      (fewer, if a string is shorter) are equal. Against a literal of exactly
      `n` characters this holds precisely when `s` has at least `n` characters
      and starts with the literal; a shorter `s` compares unequal. */
  function HeadEquals(s: string, n: nat, t: string): (r: bool)
    ensures |t| == n ==> (r <==> |s| >= n && s[..n] == t)
  {
    assert |t| == n && |s| < n ==> |s[..Min(n, |s|)]| != |t[..Min(n, |t|)]|;
    s[..Min(n, |s|)] == t[..Min(n, |t|)]
  }
}
