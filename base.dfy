/** Small value wrappers shared by every module of the model. */
module Base {

  /** A value that may be missing: Python's `None` versus a present value. */
  datatype Option<+T> = None | Some(value: T) {

    /** The present value, or `default` when missing (Python's `d.get(key, default)`). */
    function GetOr(default: T): T {
      match this
      case Some(v) => v
      case None => default
    }
  }

  /** Python truthiness of an optional integer: `None` and `0` are falsy. */
  predicate Truthy(x: Option<int>) {
    x.Some? && x.value != 0
  }

  /** `max(0, min(100, x))`: a percentage forced into 0..100. */
  function Clamp(x: real): (r: real)
    ensures 0.0 <= r <= 100.0
    ensures 0.0 <= x <= 100.0 ==> r == x
    ensures x < 0.0 ==> r == 0.0
    ensures x > 100.0 ==> r == 100.0
  {
    if x < 0.0 then 0.0 else if x > 100.0 then 100.0 else x
  }

  function Abs(x: real): real {
    if x < 0.0 then -x else x
  }

  /** The last `n` elements of `s` (all of them when it is shorter). */
  function LastN(s: seq<real>, n: nat): (r: seq<real>)
    ensures |r| <= n
  {
    if |s| <= n then s else s[|s| - n..]
  }

  /** Trimming before appending more does not change the newest `n`. */
  lemma LastNAppend(a: seq<real>, b: seq<real>, n: nat)
    ensures LastN(LastN(a, n) + b, n) == LastN(a + b, n)
  {
    if |a| > n {
      var k := |a| - n;
      assert LastN(a, n) + b == (a + b)[k..];
      LastNOfSuffix(a + b, k, n);
    }
  }

  /** Dropping a prefix that leaves at least `n` elements does not change
      the newest `n`. */
  lemma LastNOfSuffix(s: seq<real>, k: nat, n: nat)
    requires k + n <= |s|
    ensures LastN(s[k..], n) == LastN(s, n)
  {
    assert s[k..][|s| - k - n..] == s[|s| - n..];
  }
}
