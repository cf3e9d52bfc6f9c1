/** Small value helpers shared by the UI state models. */
module Util {

  /** A value that may be absent; stands for the source's `null`/`undefined`. */
  datatype Option<+T> = None | Some(value: T)

  /** Number of `true` entries in a row of on/off flags (lit indicators, filled stars). */
  function CountTrue(s: seq<bool>): (n: nat)
    ensures n <= |s|
  {
    if s == [] then 0 else (if s[0] then 1 else 0) + CountTrue(s[1..])
  }

  /** A row whose first `k` flags are on and the rest off has exactly `k` flags on. */
  lemma {:induction false} CountTruePrefix(s: seq<bool>, k: nat)
    requires k <= |s|
    requires forall i :: 0 <= i < |s| ==> (s[i] <==> i < k)
    ensures CountTrue(s) == k
  {
    if s != [] {
      var t := s[1..];
      var k' := if k == 0 then 0 else k - 1;
      assert forall i :: 0 <= i < |t| ==> (t[i] <==> i < k') by {
        forall i | 0 <= i < |t| ensures t[i] <==> i < k' {
          assert t[i] == s[i + 1];
        }
      }
      CountTruePrefix(t, k');
    }
  }
}
