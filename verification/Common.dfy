/** Bytes, optional values and the first-occurrence search shared by every frame parser. */
module Common {

  type byte = b: int | 0 <= b < 256
  type Bytes = seq<byte>

  /** The widths of Rust's `usize` (64-bit targets) and `u128`. */
  const USIZE_MAX: nat := 0xFFFF_FFFF_FFFF_FFFF
  const U128_MAX: nat := 0xFFFF_FFFF_FFFF_FFFF_FFFF_FFFF_FFFF_FFFF

  const COLON: byte := 58
  const PLUS: byte := 43

  datatype Option<+T> = None | Some(value: T)

  function Min(a: int, b: int): int {
    if a < b then a else b
  }

  function Max(a: nat, b: nat): nat {
    if a < b then b else a
  }

  /** No element of `s` before index `n` is `b`. */
  predicate Absent(s: Bytes, b: byte, n: nat)
    requires n <= |s|
  {
    forall i | 0 <= i < n :: s[i] != b
  }

  /** Index of the first `b` in `s`. */
  function IndexOf(s: Bytes, b: byte): (r: Option<nat>)
    ensures r.Some? ==> r.value < |s| && s[r.value] == b && Absent(s, b, r.value)
    ensures r.None? ==> Absent(s, b, |s|)
  {
    if |s| == 0 then None
    else if s[0] == b then Some(0)
    else
      match IndexOf(s[1..], b)
      case None =>
        assert forall i | 1 <= i < |s| :: s[i] == s[1..][i - 1];
        None
      case Some(i) =>
        assert forall j | 1 <= j <= i :: s[j] == s[1..][j - 1];
        Some(i + 1)
  }

  /** The first occurrence is determined by what stands before it. */
  lemma IndexOfIs(s: Bytes, b: byte, i: nat)
    requires i < |s| && s[i] == b && Absent(s, b, i)
    ensures IndexOf(s, b) == Some(i)
  {
    var r := IndexOf(s, b);
  }

  /** `iter().position(|&x| x == b)`, the scan behind both delimiter searches. */
  method Position(s: Bytes, b: byte) returns (r: Option<nat>)
    ensures r == IndexOf(s, b)
  {
    var i := 0;
    while i < |s|
      invariant 0 <= i <= |s|
      invariant Absent(s, b, i)
    {
      if s[i] == b {
        IndexOfIs(s, b, i);
        return Some(i);
      }
      i := i + 1;
    }
    return None;
  }
}
