/** The `ping` retry loop that both container scripts define identically: run
    `ping -c1` up to `attempts` times, stop at the first success, and report
    whether the last run succeeded. The exit code of the k-th run (counting from
    0) is an oracle `exitCode(k)`. */
module Ping {
  import opened PyErrors

  /** The first of the runs `0 .. n-1` whose exit code is `target`, or `n`. */
  function FirstRunWith(exitCode: nat -> int, target: int, n: nat): (k: nat)
    ensures k <= n
    ensures forall j :: 0 <= j < k ==> exitCode(j) != target
    ensures k < n ==> exitCode(k) == target
  {
    if n == 0 then 0
    else
      var k := FirstRunWith(exitCode, target, n - 1);
      if k < n - 1 then k
      else if exitCode(n - 1) == target then n - 1
      else n
  }

  /** `ping(bin_path, destination, attempts)`. With `attempts <= 0` the loop body
      never runs and the final `return` reads the unbound `result`. Otherwise the
      runs stop at the first success or after `attempts` runs, and the answer is
      whether the last run succeeded. */
  method Ping(exitCode: nat -> int, attempts: int) returns (r: Result<bool>, runs: nat)
    ensures attempts <= 0 ==> r == Err(UnboundLocalError("result")) && runs == 0
    ensures attempts > 0 ==>
              && r.Ok?
              && 1 <= runs <= attempts
              && runs == (if FirstRunWith(exitCode, 0, attempts) < attempts
                          then FirstRunWith(exitCode, 0, attempts) + 1 else attempts)
              && (r.value <==> exitCode(runs - 1) == 0)
  {
    var i := 0;
    while i < attempts
      invariant 0 <= i && (attempts > 0 ==> i < attempts) && (attempts <= 0 ==> i == 0)
      invariant attempts > 0 ==> FirstRunWith(exitCode, 0, i) == i
      decreases attempts - i
    {
      var code := exitCode(i);
      if code == 0 || i == attempts - 1 {
        return Ok(code == 0), i + 1;
      }
      i := i + 1;
    }
    // The last pass always returns, so the loop only ends here when it never
    // ran, and `result` was never bound.
    r, runs := Err(UnboundLocalError("result")), 0;
  }

  /** Whether some run among the first `attempts` succeeds, independently of the loop. */
  predicate SomeRunSucceeds(exitCode: nat -> int, attempts: nat)
  {
    exists k :: 0 <= k < attempts && exitCode(k) == 0
  }

  /** `ping` answers true exactly when one of its `attempts` runs succeeds. */
  lemma PingSucceedsIffSomeRun(exitCode: nat -> int, attempts: nat)
    requires attempts > 0
    ensures var first := FirstRunWith(exitCode, 0, attempts);
            var runs := if first < attempts then first + 1 else attempts;
            exitCode(runs - 1) == 0 <==> SomeRunSucceeds(exitCode, attempts)
  {
    var first := FirstRunWith(exitCode, 0, attempts);
    if SomeRunSucceeds(exitCode, attempts) {
      var k :| 0 <= k < attempts && exitCode(k) == 0;
      assert first <= k;
    }
  }
}
