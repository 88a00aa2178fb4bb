/**
 * How `main` splits the total number of work units N over C workers:
 * worker `i` runs `N / C` units, plus one more when `i < N % C`; a worker
 * whose share is zero is not spawned, and N = 0 or C = 0 stops the run
 * before any worker exists.
 */
module Partition {
  import opened Wrappers

  /** The two configuration errors `main` reports before starting. */
  datatype ConfigError = ZeroRequests | ZeroConcurrency

  /** A spawned worker: its index in `0..C` and the number of work units it runs. */
  datatype Assignment = Assignment(worker: nat, count: nat)

  function Min(a: nat, b: nat): nat {
    if a <= b then a else b
  }

  /**
   * `requests_per_worker + (if i < remainder_requests { 1 } else { 0 })`.
   * Every share is the base share or one more, and among the C workers
   * the share is zero exactly for the indices at or past N.
   */
  function Share(n: nat, c: nat, i: nat): (r: nat)
    requires c > 0
    ensures n / c <= r <= n / c + 1
    ensures i < c ==> (r > 0 <==> i < n)
  {
    assert n >= c ==> n / c >= 1;
    assert n < c ==> n / c == 0 && n % c == n;
    n / c + (if i < n % c then 1 else 0)
  }

  /** Shares never grow with the index, and any two differ by at most one. */
  lemma ShareFair(n: nat, c: nat, i: nat, j: nat)
    requires c > 0 && i <= j
    ensures Share(n, c, j) <= Share(n, c, i) <= Share(n, c, j) + 1
  {
  }

  /** The total share of workers `0..k`. */
  function ShareSum(n: nat, c: nat, k: nat): nat
    requires c > 0
  {
    if k == 0 then 0 else ShareSum(n, c, k - 1) + Share(n, c, k - 1)
  }

  lemma {:induction false} ShareSumClosed(n: nat, c: nat, k: nat)
    requires c > 0 && k <= c
    ensures ShareSum(n, c, k) == k * (n / c) + Min(k, n % c)
  {
    if k > 0 {
      ShareSumClosed(n, c, k - 1);
      assert k * (n / c) == (k - 1) * (n / c) + n / c;
    }
  }

  /** The C shares add up to N: no work unit is lost or run twice. */
  lemma SharesSumToTotal(n: nat, c: nat)
    requires c > 0
    ensures ShareSum(n, c, c) == n
  {
    ShareSumClosed(n, c, c);
  }

  /** The workers among `0..k` that the partition loop spawns, in index order. */
  function Spawned(n: nat, c: nat, k: nat): seq<Assignment>
    requires c > 0
  {
    if k == 0 then []
    else Spawned(n, c, k - 1) + (if Share(n, c, k - 1) == 0 then [] else [Assignment(k - 1, Share(n, c, k - 1))])
  }

  /** The total number of work units over a list of assignments. */
  function TotalCount(a: seq<Assignment>): nat {
    if a == [] then 0 else TotalCount(a[..|a| - 1]) + a[|a| - 1].count
  }

  lemma {:induction false} TotalCountAppend(a: seq<Assignment>, b: seq<Assignment>)
    ensures TotalCount(a + b) == TotalCount(a) + TotalCount(b)
  {
    if b == [] {
      assert a + b == a;
    } else {
      assert (a + b)[..|a + b| - 1] == a + b[..|b| - 1];
      TotalCountAppend(a, b[..|b| - 1]);
    }
  }

  /**
   * The spawned workers among `0..k` are exactly workers `0..min(k, N)`,
   * each with its share, which is at least one; together they run the
   * first k shares.
   */
  lemma {:induction false} SpawnedExactly(n: nat, c: nat, k: nat)
    requires c > 0 && k <= c
    ensures |Spawned(n, c, k)| == Min(k, n)
    ensures forall j :: 0 <= j < |Spawned(n, c, k)| ==>
              Spawned(n, c, k)[j] == Assignment(j, Share(n, c, j)) && Share(n, c, j) >= 1
    ensures TotalCount(Spawned(n, c, k)) == ShareSum(n, c, k)
  {
    if k > 0 {
      SpawnedExactly(n, c, k - 1);
      var prev := Spawned(n, c, k - 1);
      var tail := if Share(n, c, k - 1) == 0 then [] else [Assignment(k - 1, Share(n, c, k - 1))];
      assert Spawned(n, c, k) == prev + tail;
      assert Share(n, c, k - 1) > 0 <==> k - 1 < n;
      TotalCountAppend(prev, tail);
    }
  }

  /**
   * The zero checks and the partition loop of `main`. N = 0 is reported
   * first, then C = 0; otherwise workers `0..min(N, C)` are spawned in
   * order, each with its share of at least one unit, the shares differ by
   * at most one and add up to N.
   */
  method Distribute(n: nat, c: nat) returns (r: Result<seq<Assignment>, ConfigError>)
    ensures n == 0 ==> r == Failure(ZeroRequests)
    ensures n > 0 && c == 0 ==> r == Failure(ZeroConcurrency)
    ensures n > 0 && c > 0 ==> r.Success?
    ensures r.Success? ==>
              && c > 0
              && r.value == Spawned(n, c, c)
              && |r.value| == Min(n, c)
              && (forall j :: 0 <= j < |r.value| ==> r.value[j] == Assignment(j, Share(n, c, j)) && r.value[j].count >= 1)
              && (forall j, l :: 0 <= j < |r.value| && 0 <= l < |r.value| ==> r.value[j].count <= r.value[l].count + 1)
              && TotalCount(r.value) == n
  {
    if n == 0 {
      return Failure(ZeroRequests);
    }
    if c == 0 {
      return Failure(ZeroConcurrency);
    }
    var perWorker := n / c;
    var remainder := n % c;
    var handles: seq<Assignment> := [];
    for i := 0 to c
      invariant handles == Spawned(n, c, i)
    {
      var workerRequests := perWorker + (if i < remainder then 1 else 0);
      if workerRequests == 0 {
        continue;
      }
      handles := handles + [Assignment(i, workerRequests)];
    }
    SpawnedExactly(n, c, c);
    SharesSumToTotal(n, c);
    forall j, l | 0 <= j < |handles| && 0 <= l < |handles|
      ensures handles[j].count <= handles[l].count + 1
    {
      if j <= l { ShareFair(n, c, j, l); } else { ShareFair(n, c, l, j); }
    }
    r := Success(handles);
  }
}
