/**
 * The result aggregator of `main`: the single consumer that folds every
 * received `RequestResult` into success and failure counters, a latency
 * histogram (kept here as the multiset of its samples), a tally of error
 * texts and a tally of status codes. `Fold` is the specification; the
 * class `Aggregator` is the state the receive loop updates in place.
 */
module Aggregation {
  import opened Wrappers
  import opened Requests

  /** The key under which a failure without an error text is tallied. */
  const UnknownError: string := "未知错误"

  /**
   * The histogram sample of a successful result: its duration in whole
   * milliseconds (`as_millis` truncates), or 1 when that is 0, so a
   * sub-millisecond completion is still recorded and no sample is 0.
   */
  function LatencySample(durationNanos: nat): (ms: nat)
    ensures ms >= 1
    ensures durationNanos < NanosPerMilli ==> ms == 1
    ensures durationNanos >= NanosPerMilli ==> ms * NanosPerMilli <= durationNanos < (ms + 1) * NanosPerMilli
  {
    var millis := durationNanos / NanosPerMilli;
    if millis > 0 then millis else 1
  }

  /**
   * The error-tally key of a failure: its error text, or the fallback key.
   * A failure from either executor always has a text, so the fallback key
   * only appears for results without one.
   */
  function ErrorKey(r: RequestResult): (key: string)
    ensures r.error.None? ==> key == UnknownError
    ensures WellFormed(r) && !r.success ==> key == r.error.value
  {
    if r.error.Some? then r.error.value else UnknownError
  }

  /** `*m.entry(k).or_insert(0) += 1`. */
  function Bump<K>(m: map<K, nat>, k: K): (m': map<K, nat>)
    ensures m'.Keys == m.Keys + {k}
    ensures m'[k] == (if k in m then m[k] else 0) + 1
    ensures forall j :: j in m && j != k ==> m'[j] == m[j]
  {
    m[k := if k in m then m[k] + 1 else 1]
  }

  /** The status tally after a result with this (optional) status code: only a present code is counted. */
  function CountStatus(m: map<StatusCode, nat>, status: Option<StatusCode>): (m': map<StatusCode, nat>)
    ensures status.None? ==> m' == m
    ensures status.Some? ==> m'.Keys == m.Keys + {status.value}
                             && m'[status.value] == (if status.value in m then m[status.value] else 0) + 1
                             && forall j :: j in m && j != status.value ==> m'[j] == m[j]
  {
    if status.Some? then Bump(m, status.value) else m
  }

  /** The aggregate state: `successful_requests`, `failed_requests`, the histogram's samples, `error_messages`, `http_status_code_counts`. */
  datatype Stats = Stats(successful: nat, failed: nat, latencies: multiset<nat>,
                         errors: map<string, nat>, statuses: map<StatusCode, nat>)

  /** The state before the first result arrives. */
  const Empty: Stats := Stats(0, 0, multiset{}, map[], map[])

  /**
   * One iteration of the receive loop: exactly one of the two counters
   * goes up, a sample is added for a success only and is never 0, the
   * error tally changes for a failure only, and the status tally counts
   * the result's code whenever it has one.
   */
  function Step(s: Stats, r: RequestResult): (t: Stats)
    ensures t.successful + t.failed == s.successful + s.failed + 1
    ensures t.successful == s.successful + (if r.success then 1 else 0)
    ensures r.success ==> t.latencies == s.latencies + multiset{LatencySample(r.durationNanos)} && t.errors == s.errors
    ensures !r.success ==> t.latencies == s.latencies && t.errors == Bump(s.errors, ErrorKey(r))
    ensures 0 !in t.latencies - s.latencies
    ensures t.statuses == CountStatus(s.statuses, r.statusCode)
  {
    if r.success then
      Stats(s.successful + 1, s.failed, s.latencies + multiset{LatencySample(r.durationNanos)},
            s.errors, CountStatus(s.statuses, r.statusCode))
    else
      Stats(s.successful, s.failed + 1, s.latencies,
            Bump(s.errors, ErrorKey(r)), CountStatus(s.statuses, r.statusCode))
  }

  /** The state after the receive loop has taken `rs`, in that order: every result received is counted once. */
  function Fold(rs: seq<RequestResult>): (t: Stats)
    ensures t.successful + t.failed == |rs|
  {
    if rs == [] then Empty else Step(Fold(rs[..|rs| - 1]), rs[|rs| - 1])
  }

  // Reference counts over the received results, independent of the fold.

  /** How many results succeeded. */
  function Successes(rs: seq<RequestResult>): nat {
    if rs == [] then 0 else Successes(rs[..|rs| - 1]) + (if rs[|rs| - 1].success then 1 else 0)
  }

  /** How many results succeeded with sample `v`. */
  function SampleCount(rs: seq<RequestResult>, v: nat): nat {
    if rs == [] then 0
    else SampleCount(rs[..|rs| - 1], v)
         + (if rs[|rs| - 1].success && LatencySample(rs[|rs| - 1].durationNanos) == v then 1 else 0)
  }

  /** How many results failed with error key `key`. */
  function ErrorCount(rs: seq<RequestResult>, key: string): nat {
    if rs == [] then 0
    else ErrorCount(rs[..|rs| - 1], key) + (if !rs[|rs| - 1].success && ErrorKey(rs[|rs| - 1]) == key then 1 else 0)
  }

  /** How many results, successful or not, carry status code `code`. */
  function StatusCount(rs: seq<RequestResult>, code: StatusCode): nat {
    if rs == [] then 0
    else StatusCount(rs[..|rs| - 1], code) + (if rs[|rs| - 1].statusCode == Some(code) then 1 else 0)
  }

  /** Every received result increments exactly one of the two counters. */
  lemma {:induction false} FoldCounts(rs: seq<RequestResult>)
    ensures Fold(rs).successful == Successes(rs)
    ensures Fold(rs).successful + Fold(rs).failed == |rs|
  {
    if rs != [] {
      FoldCounts(rs[..|rs| - 1]);
    }
  }

  /**
   * One sample per success and none per failure: the histogram holds each
   * clamped duration as often as a successful result had it, so its size
   * is the success count and it never holds 0.
   */
  lemma {:induction false} FoldLatencies(rs: seq<RequestResult>)
    ensures forall v :: Fold(rs).latencies[v] == SampleCount(rs, v)
    ensures |Fold(rs).latencies| == Fold(rs).successful
    ensures 0 !in Fold(rs).latencies
  {
    if rs != [] {
      FoldLatencies(rs[..|rs| - 1]);
    }
  }

  /**
   * The error tally counts each failure once, under its error text or the
   * fallback key; a key is present exactly when some failure had it.
   */
  lemma {:induction false} FoldErrorTally(rs: seq<RequestResult>, key: string)
    ensures key in Fold(rs).errors <==> ErrorCount(rs, key) > 0
    ensures key in Fold(rs).errors ==> Fold(rs).errors[key] == ErrorCount(rs, key)
  {
    if rs != [] {
      FoldErrorTally(rs[..|rs| - 1], key);
    }
  }

  /** The status tally counts every result that carries a status code, successful or not. */
  lemma {:induction false} FoldStatusTally(rs: seq<RequestResult>, code: StatusCode)
    ensures code in Fold(rs).statuses <==> StatusCount(rs, code) > 0
    ensures code in Fold(rs).statuses ==> Fold(rs).statuses[code] == StatusCount(rs, code)
  {
    if rs != [] {
      FoldStatusTally(rs[..|rs| - 1], code);
    }
  }

  /** Some key of a non-empty tally. */
  ghost function Pick<K>(m: map<K, nat>): (k: K)
    requires |m| != 0
    ensures k in m
  {
    assert m.Keys != {};
    var k :| k in m; k
  }

  /** The sum of the counts in a tally. */
  ghost function MapSum<K>(m: map<K, nat>): nat
    decreases |m|
  {
    if |m| == 0 then 0
    else
      var k := Pick(m);
      assert |m - {k}| < |m| by { assert (m - {k}).Keys == m.Keys - {k}; }
      m[k] + MapSum(m - {k})
  }

  /** A tally sums to any one of its entries plus the rest. */
  lemma {:induction false} MapSumRemove<K>(m: map<K, nat>, k: K)
    requires k in m
    ensures MapSum(m) == m[k] + MapSum(m - {k})
    decreases |m|
  {
    assert |m| != 0 by { assert k in m.Keys; }
    var j := Pick(m);
    if j != k {
      var mj, mk := m - {j}, m - {k};
      assert mj.Keys == m.Keys - {j} && mk.Keys == m.Keys - {k};
      assert k in mj && j in mk;
      MapSumRemove(mj, k);
      MapSumRemove(mk, j);
      assert mj - {k} == mk - {j};
    }
  }

  /** Counting one more occurrence adds one to the tally's sum. */
  lemma MapSumBump<K>(m: map<K, nat>, k: K)
    ensures MapSum(Bump(m, k)) == MapSum(m) + 1
  {
    var m' := Bump(m, k);
    MapSumRemove(m', k);
    if k in m {
      MapSumRemove(m, k);
      assert m' - {k} == m - {k};
    } else {
      assert m' - {k} == m;
    }
  }

  /** The error tally's counts add up to the number of failed results. */
  lemma {:induction false} FoldErrorSum(rs: seq<RequestResult>)
    ensures MapSum(Fold(rs).errors) == Fold(rs).failed
  {
    if rs != [] {
      FoldErrorSum(rs[..|rs| - 1]);
      var last := rs[|rs| - 1];
      if !last.success {
        MapSumBump(Fold(rs[..|rs| - 1]).errors, ErrorKey(last));
      }
    }
  }

  lemma BumpCommutes<K>(m: map<K, nat>, a: K, b: K)
    ensures Bump(Bump(m, a), b) == Bump(Bump(m, b), a)
  {
  }

  lemma CountStatusCommutes(m: map<StatusCode, nat>, a: Option<StatusCode>, b: Option<StatusCode>)
    ensures CountStatus(CountStatus(m, a), b) == CountStatus(CountStatus(m, b), a)
  {
    if a.Some? && b.Some? {
      BumpCommutes(m, a.value, b.value);
    }
  }

  /** Two results received in either order leave the same state. */
  lemma StepCommutes(s: Stats, a: RequestResult, b: RequestResult)
    ensures Step(Step(s, a), b) == Step(Step(s, b), a)
  {
    CountStatusCommutes(s.statuses, a.statusCode, b.statusCode);
    if !a.success && !b.success {
      BumpCommutes(s.errors, ErrorKey(a), ErrorKey(b));
    } else if a.success && b.success {
      assert s.latencies + multiset{LatencySample(a.durationNanos)} + multiset{LatencySample(b.durationNanos)}
          == s.latencies + multiset{LatencySample(b.durationNanos)} + multiset{LatencySample(a.durationNanos)};
    }
  }

  /** A result received anywhere has the same effect as if it had been received last. */
  lemma {:induction false} FoldMoveToEnd(a: seq<RequestResult>, x: RequestResult, b: seq<RequestResult>)
    ensures Fold(a + [x] + b) == Step(Fold(a + b), x)
    decreases |b|
  {
    if b == [] {
      assert a + [x] + b == a + [x];
      assert (a + [x])[..|a|] == a;
      assert a + b == a;
    } else {
      var b' := b[..|b| - 1];
      var y := b[|b| - 1];
      assert (a + [x] + b)[..|a + [x] + b| - 1] == a + [x] + b';
      assert (a + b)[..|a + b| - 1] == a + b';
      FoldMoveToEnd(a, x, b');
      StepCommutes(Fold(a + b'), x, y);
    }
  }

  /**
   * The final state depends only on the multiset of results received, not
   * on the order in which the workers' results were interleaved.
   */
  lemma {:induction false} FoldOrderIndependent(rs: seq<RequestResult>, ts: seq<RequestResult>)
    requires multiset(rs) == multiset(ts)
    ensures Fold(rs) == Fold(ts)
    decreases |rs|
  {
    if rs == [] {
      assert |ts| == |multiset(ts)| == 0;
    } else {
      var n := |rs| - 1;
      var x := rs[n];
      assert rs == rs[..n] + [x];
      assert x in multiset(ts);
      var j :| 0 <= j < |ts| && ts[j] == x;
      var ts' := ts[..j] + ts[j + 1..];
      assert ts == ts[..j] + [x] + ts[j + 1..];
      assert multiset(ts') == multiset(ts) - multiset{x};
      assert multiset(rs[..n]) == multiset(rs) - multiset{x};
      FoldOrderIndependent(rs[..n], ts');
      FoldMoveToEnd(ts[..j], x, ts[j + 1..]);
    }
  }

  /** The aggregator's state, updated in place by the receive loop and the join loop. */
  class Aggregator {
    var successful: nat
    var failed: nat
    var latencies: multiset<nat>
    var errorMessages: map<string, nat>
    var statusCodeCounts: map<StatusCode, nat>

    function State(): Stats
      reads this
    {
      Stats(successful, failed, latencies, errorMessages, statusCodeCounts)
    }

    constructor ()
      ensures State() == Empty
    {
      successful, failed, latencies := 0, 0, multiset{};
      errorMessages, statusCodeCounts := map[], map[];
    }

    /** The body of the receive loop for one result. */
    method Record(r: RequestResult)
      modifies this
      ensures State() == Step(old(State()), r)
    {
      ghost var before := State();
      if r.success {
        successful := successful + 1;
        var millis := r.durationNanos / NanosPerMilli;
        if millis > 0 {
          latencies := latencies + multiset{millis};
        } else {
          latencies := latencies + multiset{1};
        }
        assert latencies == before.latencies + multiset{LatencySample(r.durationNanos)};
      } else {
        failed := failed + 1;
        var key := if r.error.Some? then r.error.value else UnknownError;
        errorMessages := errorMessages[key := (if key in errorMessages then errorMessages[key] else 0) + 1];
        assert errorMessages == Bump(before.errors, ErrorKey(r));
      }
      if r.statusCode.Some? {
        var code := r.statusCode.value;
        statusCodeCounts := statusCodeCounts[code := (if code in statusCodeCounts then statusCodeCounts[code] else 0) + 1];
      }
      assert statusCodeCounts == CountStatus(before.statuses, r.statusCode);
    }

    /** A worker task that failed when joined counts as one more failure, and nothing else changes. */
    method RecordJoinFailure()
      modifies this
      ensures State() == old(State()).(failed := old(State()).failed + 1)
    {
      failed := failed + 1;
    }
  }
}
