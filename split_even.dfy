/**
 * The even-split allocator of frontend/utils/splitEven.ts: a per-person
 * share rounded down to a multiple of `roundTo`, plus top-ups of one
 * `roundTo` step handed to the lowest indices until the remainder no longer
 * covers a step.  Money is an integer; JavaScript's floating-point
 * `Math.floor(total / n / roundTo)` is modelled as exact floor division.
 */
module SplitEven {
  import opened Arith

  /** The factor by which the safety cap of the distribution loop exceeds `n`. */
  const SafetyFactor: int := 1000

  /** `Math.floor(total / n / roundTo) * roundTo`, the base share. */
  function Per(total: int, n: int, roundTo: int): int
    requires n >= 1 && roundTo >= 1
  {
    (total / (n * roundTo)) * roundTo
  }

  /** What is left of `total` once every one of the `n` people has the base share. */
  function Remain(total: int, n: int, roundTo: int): int
    requires n >= 1 && roundTo >= 1
  {
    total - Per(total, n, roundTo) * n
  }

  /** The number of whole `roundTo` steps the remainder pays for. */
  function Steps(total: int, n: int, roundTo: int): int
    requires n >= 1 && roundTo >= 1
  {
    Remain(total, n, roundTo) / roundTo
  }

  /** The top-up of each of the `n` people: one step to each of the first `Steps` people. */
  function TopUps(total: int, n: int, roundTo: int): (r: seq<int>)
    requires n >= 1 && roundTo >= 1
    ensures |r| == n
  {
    seq(n, k requires 0 <= k < n => if k < Steps(total, n, roundTo) then roundTo else 0)
  }

  function Sum(s: seq<int>): int {
    if s == [] then 0 else s[0] + Sum(s[1..])
  }

  /** The base share is the largest multiple of `roundTo` that every one of the `n` people can get. */
  lemma PerIsLargestMultiple(total: int, n: int, roundTo: int)
    requires n >= 1 && roundTo >= 1
    ensures Per(total, n, roundTo) % roundTo == 0
    ensures Per(total, n, roundTo) * n <= total < (Per(total, n, roundTo) + roundTo) * n
  {
    var m := n * roundTo;
    var q := total / m;
    var per := Per(total, n, roundTo);
    assert per == q * roundTo;
    MulAssoc(q, roundTo, n);
    assert per * n == q * m;
    assert q * m <= total < q * m + m;
    MulDistrib(per, roundTo, n);
    assert (per + roundTo) * n == per * n + m;
    MulMod(q, roundTo);
  }

  /** The remainder lies in `[0, n * roundTo)`, so fewer than `n` steps are ever handed out. */
  lemma {:induction false} StepsBelowCount(total: int, n: int, roundTo: int)
    requires n >= 1 && roundTo >= 1
    ensures 0 <= Remain(total, n, roundTo) < n * roundTo
    ensures 0 <= Steps(total, n, roundTo) < n
  {
    PerIsLargestMultiple(total, n, roundTo);
    var rem := Remain(total, n, roundTo);
    var per := Per(total, n, roundTo);
    MulDistrib(per, roundTo, n);
    assert 0 <= rem < roundTo * n;
    var st := rem / roundTo;
    assert st * roundTo <= rem;
    if st >= n {
      MulMono(n - 1, st, roundTo);
      MulDistrib(n - 1, 1, roundTo);
      assert false;
    }
  }

  lemma {:induction false} SumOfSteps(s: seq<int>, roundTo: int, m: int)
    requires 0 <= m <= |s|
    requires forall k :: 0 <= k < |s| ==> s[k] == if k < m then roundTo else 0
    ensures Sum(s) == m * roundTo
  {
    if s != [] {
      var t := s[1..];
      if m > 0 {
        SumOfSteps(t, roundTo, m - 1);
        MulDistrib(m - 1, 1, roundTo);
      } else {
        SumOfSteps(t, roundTo, 0);
      }
    }
  }

  /**
   * Conservation: the shares and a leftover below one step add up to the
   * total, and nothing is lost when the total is a multiple of `roundTo`.
   */
  lemma {:induction false} Conservation(total: int, n: int, roundTo: int)
    requires n >= 1 && roundTo >= 1
    ensures var leftover := total - Per(total, n, roundTo) * n - Sum(TopUps(total, n, roundTo));
      0 <= leftover < roundTo && (total % roundTo == 0 ==> leftover == 0)
  {
    StepsBelowCount(total, n, roundTo);
    var st := Steps(total, n, roundTo);
    var rem := Remain(total, n, roundTo);
    SumOfSteps(TopUps(total, n, roundTo), roundTo, st);
    var leftover := total - Per(total, n, roundTo) * n - Sum(TopUps(total, n, roundTo));
    assert leftover == rem - st * roundTo;
    assert leftover == rem % roundTo;
    if total % roundTo == 0 {
      // both the total and n base shares are multiples of roundTo, so the remainder is too
      var q := total / (n * roundTo);
      var b := total / roundTo;
      assert total == b * roundTo;
      MulAssoc(q, roundTo, n);
      MulAssoc(q, n, roundTo);
      assert Per(total, n, roundTo) * n == (q * n) * roundTo;
      MulDistrib(b, -(q * n), roundTo);
      assert rem == (b - q * n) * roundTo;
      MulMod(b - q * n, roundTo);
    }
  }

  /** Every top-up is either nothing or exactly one step: nobody gets more than `per + roundTo`. */
  lemma TopUpBounds(total: int, n: int, roundTo: int, k: int)
    requires n >= 1 && roundTo >= 1 && 0 <= k < n
    ensures TopUps(total, n, roundTo)[k] == 0 || TopUps(total, n, roundTo)[k] == roundTo
    ensures TopUps(total, n, roundTo)[k] == roundTo <==> k < Steps(total, n, roundTo)
  {
  }

  /**
   * `splitEven(total, n, roundTo)`: the base share and the array of top-ups,
   * filled in place by the capped distribution loop.
   */
  method Split(total: int, n: int, roundTo: int) returns (per: int, remainders: array<int>)
    requires roundTo >= 1
    ensures n <= 0 ==> per == 0 && remainders.Length == 0
    ensures n >= 1 ==> per == Per(total, n, roundTo) && remainders.Length == n
    ensures n >= 1 ==> remainders[..] == TopUps(total, n, roundTo)
  {
    if n <= 0 {
      per := 0;
      remainders := new int[0];
      return;
    }
    per := (total / (n * roundTo)) * roundTo;
    assert per == Per(total, n, roundTo);
    var used := per * n;
    var remain := total - used;
    remainders := new int[n](_ => 0);
    var step := roundTo;
    var i := 0;
    StepsBelowCount(total, n, roundTo);
    ghost var steps := Steps(total, n, roundTo);
    ghost var rem0 := Remain(total, n, roundTo);
    assert remain == rem0;
    while remain >= step
      invariant 0 <= i <= steps < n
      invariant remain == rem0 - i * roundTo
      invariant forall k :: 0 <= k < n ==> remainders[k] == if k < i then roundTo else 0
      decreases remain
    {
      MulDistrib(i, 1, roundTo);
      if i + 1 > steps {
        MulMono(steps, i + 1, roundTo);
        assert false;
      }
      DivModUnique(i, n, 0, i);
      remainders[i % n] := remainders[i % n] + step;
      remain := remain - step;
      i := i + 1;
      if i > n * SafetyFactor {
        break;
      }
    }
    DivModUnique(rem0, roundTo, i, remain);
  }

  /** `splitEven(6000000, 4, 1000)`: an exact split with no top-ups. */
  lemma ExactSplitExample()
    ensures Per(6000000, 4, 1000) == 1500000
    ensures TopUps(6000000, 4, 1000) == [0, 0, 0, 0]
  {
    assert Steps(6000000, 4, 1000) == 0;
  }

  /** `splitEven(1000, 3, 1000)`: a zero base share and one step to the first person. */
  lemma RemainderExample()
    ensures Per(1000, 3, 1000) == 0
    ensures TopUps(1000, 3, 1000) == [1000, 0, 0]
  {
    assert Steps(1000, 3, 1000) == 1;
  }
}
