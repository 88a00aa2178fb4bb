/**
 * The run as `main` drives it: the shared configuration, the worker loop
 * that executes its share of work units one after another, and the
 * summary built from the aggregator after every worker has been joined.
 * The workers run concurrently and their results reach the aggregator in
 * some interleaving; here the received results are a sequence, and
 * `FoldOrderIndependent` shows that the interleaving does not matter.
 */
module LoadTest {
  import opened Wrappers
  import opened Text
  import opened Headers
  import opened Requests
  import opened Partition
  import opened Aggregation

  /** The parsed command line that the core reads. */
  datatype Args = Args(concurrency: nat, requests: nat, url: string, methodName: string, data: Option<string>,
                       headers: seq<(string, string)>, wsMessage: Option<string>, wsDurationSecs: Option<nat>)

  /** `cli.method.to_uppercase() == "WS"` selects the WebSocket executor; `WS` is never also an HTTP method. */
  predicate IsWebSocket(methodName: string): (b: bool)
    ensures b ==> DecodeMethod(methodName).None?
  {
    ToUpper(methodName) == "WS"
  }

  /** What every worker receives a copy of. */
  datatype Config = Config(isWebSocket: bool, url: string, methodName: string, data: Option<string>,
                           headers: map<string, string>, wsMessage: Option<string>, wsDurationSecs: Option<nat>)

  /** A run ready to start: the shared configuration and the workers to spawn. */
  datatype RunPlan = RunPlan(config: Config, workers: seq<Assignment>)

  /**
   * How `main` can stop before spawning any worker: tokio's bounded
   * channel panics when created with capacity 0, and otherwise one of the
   * two zero checks reports its error.
   */
  datatype Abort = ChannelCapacityPanic | Reported(error: ConfigError)

  /**
   * `main` up to the spawning of the workers: create the result channel
   * with capacity `2 * C`, build the header map, decide the protocol,
   * reject zero requests or zero concurrency, and partition the requests.
   * The channel is created first, so C = 0 panics there and the
   * zero-concurrency check is never reached.
   */
  method Prepare(args: Args) returns (r: Result<RunPlan, Abort>)
    ensures args.concurrency == 0 ==> r == Failure(ChannelCapacityPanic)
    ensures args.concurrency > 0 && args.requests == 0 ==> r == Failure(Reported(ZeroRequests))
    ensures args.concurrency > 0 && args.requests > 0 ==> r.Success?
    ensures r != Failure(Reported(ZeroConcurrency))
    ensures r.Success? ==>
              var cfg := r.value.config;
              && args.concurrency > 0
              && r.value.workers == Spawned(args.requests, args.concurrency, args.concurrency)
              && cfg.isWebSocket == IsWebSocket(args.methodName)
              && cfg.url == args.url && cfg.methodName == args.methodName && cfg.data == args.data
              && cfg.wsMessage == args.wsMessage && cfg.wsDurationSecs == args.wsDurationSecs
              && cfg.headers.Keys == (set i | 0 <= i < |args.headers| :: args.headers[i].0)
              && (forall i :: 0 <= i < |args.headers| && LastWithKey(args.headers, i) ==>
                                cfg.headers[args.headers[i].0] == args.headers[i].1)
  {
    var capacity := args.concurrency * 2;
    if capacity == 0 {
      return Failure(ChannelCapacityPanic);
    }
    var headersMap := BuildHeaderMap(args.headers);
    var isWebSocket := ToUpper(args.methodName) == "WS";
    var workers := Distribute(args.requests, args.concurrency);
    if workers.Failure? {
      return Failure(Reported(workers.error));
    }
    var cfg := Config(isWebSocket, args.url, args.methodName, args.data, headersMap, args.wsMessage, args.wsDurationSecs);
    r := Success(RunPlan(cfg, workers.value));
  }

  /** The environment of one work unit, for whichever protocol runs. */
  datatype Env = Env(http: HttpEnv, ws: WsEnv)

  /** One work unit under the configuration: a WebSocket session or an HTTP request. */
  function Execute(cfg: Config, env: Env): (r: RequestResult)
    ensures WellFormed(r)
    ensures cfg.isWebSocket ==> r.statusCode.None?
    ensures !cfg.isWebSocket && DecodeMethod(cfg.methodName).None? ==> !r.success && r.statusCode.None?
  {
    if cfg.isWebSocket then MakeWebSocketRequest(cfg.wsMessage, cfg.wsDurationSecs, env.ws)
    else MakeHttpRequest(cfg.methodName, cfg.url, cfg.data, cfg.headers, env.http)
  }

  /**
   * The body of a spawned task: run `count` work units one after another
   * and send each result, in order; `envs[k]` is what the network and the
   * clock do during unit k.
   */
  method Worker(cfg: Config, count: nat, envs: seq<Env>) returns (sent: seq<RequestResult>)
    requires |envs| == count
    ensures |sent| == count
    ensures forall k :: 0 <= k < count ==> sent[k] == Execute(cfg, envs[k])
  {
    sent := [];
    if cfg.isWebSocket {
      for k := 0 to count
        invariant |sent| == k
        invariant forall j :: 0 <= j < k ==> sent[j] == Execute(cfg, envs[j])
      {
        var result := MakeWebSocketRequest(cfg.wsMessage, cfg.wsDurationSecs, envs[k].ws);
        sent := sent + [result];
      }
    } else {
      for k := 0 to count
        invariant |sent| == k
        invariant forall j :: 0 <= j < k ==> sent[j] == Execute(cfg, envs[j])
      {
        var result := MakeHttpRequest(cfg.methodName, cfg.url, cfg.data, cfg.headers, envs[k].http);
        sent := sent + [result];
      }
    }
  }

  /** How `handle.await` ended for one spawned task. */
  datatype JoinOutcome = Joined | JoinFailed

  /** How many joins failed. */
  function JoinFailures(joins: seq<JoinOutcome>): nat {
    if joins == [] then 0 else JoinFailures(joins[..|joins| - 1]) + (if joins[|joins| - 1] == JoinFailed then 1 else 0)
  }

  /** Ascending without repetition. */
  predicate StrictlyIncreasing(s: seq<StatusCode>) {
    forall i, j :: 0 <= i < j < |s| ==> s[i] < s[j]
  }

  /** Puts a new code into its place in an ascending list. */
  function InsertSorted(s: seq<StatusCode>, x: StatusCode): (r: seq<StatusCode>)
    requires StrictlyIncreasing(s) && x !in s
    ensures StrictlyIncreasing(r) && |r| == |s| + 1
    ensures forall y :: y in r <==> y in s || y == x
  {
    if s == [] then [x]
    else if x < s[0] then [x] + s
    else
      var rest := InsertSorted(s[1..], x);
      assert forall k :: 0 <= k < |rest| ==> s[0] < rest[k] by {
        forall k | 0 <= k < |rest| ensures s[0] < rest[k] {
          assert rest[k] in rest;
          if rest[k] != x {
            var j :| 0 <= j < |s[1..]| && s[1..][j] == rest[k];
            assert s[j + 1] == rest[k];
          }
        }
      }
      [s[0]] + rest
  }

  /**
   * `sorted_status_codes`: the keys of the status tally, collected in the
   * map's own order and sorted ascending.
   */
  method SortedStatusCodes(counts: map<StatusCode, nat>) returns (codes: seq<StatusCode>)
    ensures StrictlyIncreasing(codes)
    ensures forall c :: c in codes <==> c in counts
    ensures |codes| == |counts|
  {
    codes := [];
    var rest := counts.Keys;
    while rest != {}
      invariant rest <= counts.Keys
      invariant StrictlyIncreasing(codes)
      invariant forall c :: c in codes <==> c in counts && c !in rest
      invariant |codes| + |rest| == |counts|
      decreases rest
    {
      var c :| c in rest;
      codes := InsertSorted(codes, c);
      rest := rest - {c};
    }
  }

  /** What the report is printed from. */
  datatype Summary = Summary(successful: nat, failed: nat, totalExecuted: nat, latencies: multiset<nat>,
                             statusCodes: seq<StatusCode>, statusCounts: map<StatusCode, nat>,
                             errorMessages: map<string, nat>)

  /**
   * The receive loop, the join loop and the totals of `main`. Each received
   * result counts as exactly one success or one failure, each failed join
   * as one more failure with no sample and no tally entry, and
   * `total_requests_executed` is the number of received results plus the
   * number of failed joins.
   */
  method Summarize(received: seq<RequestResult>, joins: seq<JoinOutcome>) returns (s: Summary)
    ensures s.successful == Successes(received)
    ensures s.failed == |received| - Successes(received) + JoinFailures(joins)
    ensures s.totalExecuted == s.successful + s.failed == |received| + JoinFailures(joins)
    ensures s.latencies == Fold(received).latencies && |s.latencies| == s.successful && 0 !in s.latencies
    ensures s.errorMessages == Fold(received).errors && MapSum(s.errorMessages) + JoinFailures(joins) == s.failed
    ensures s.statusCounts == Fold(received).statuses
    ensures StrictlyIncreasing(s.statusCodes) && forall c :: c in s.statusCodes <==> c in s.statusCounts
  {
    var agg := new Aggregator();
    for i := 0 to |received|
      invariant agg.State() == Fold(received[..i])
    {
      assert received[..i + 1][..i] == received[..i];
      agg.Record(received[i]);
    }
    assert received[..|received|] == received;
    ghost var received' := Fold(received);
    for i := 0 to |joins|
      invariant agg.State() == received'.(failed := received'.failed + JoinFailures(joins[..i]))
    {
      assert joins[..i + 1][..i] == joins[..i];
      if joins[i] == JoinFailed {
        agg.RecordJoinFailure();
      }
    }
    assert joins[..|joins|] == joins;
    FoldCounts(received);
    FoldLatencies(received);
    FoldErrorSum(received);
    var totalRequestsExecuted := agg.successful + agg.failed;
    var sortedStatusCodes := SortedStatusCodes(agg.statusCodeCounts);
    s := Summary(agg.successful, agg.failed, totalRequestsExecuted, agg.latencies,
                 sortedStatusCodes, agg.statusCodeCounts, agg.errorMessages);
  }

  /** All the results the workers sent, worker after worker. */
  function Flatten(outs: seq<seq<RequestResult>>): seq<RequestResult> {
    if outs == [] then [] else Flatten(outs[..|outs| - 1]) + outs[|outs| - 1]
  }

  lemma {:induction false} FlattenLength(outs: seq<seq<RequestResult>>, workers: seq<Assignment>)
    requires |outs| == |workers|
    requires forall w :: 0 <= w < |outs| ==> |outs[w]| == workers[w].count
    ensures |Flatten(outs)| == TotalCount(workers)
  {
    if outs != [] {
      FlattenLength(outs[..|outs| - 1], workers[..|workers| - 1]);
    }
  }

  /**
   * When every spawned worker delivers its whole share and every join
   * succeeds, the run accounts for exactly N work units, whatever the
   * interleaving in which the aggregator received them.
   */
  lemma EveryUnitCounted(n: nat, c: nat, outs: seq<seq<RequestResult>>,
                         received: seq<RequestResult>, joins: seq<JoinOutcome>)
    requires c > 0
    requires |outs| == |Spawned(n, c, c)|
    requires forall w :: 0 <= w < |outs| ==> |outs[w]| == Spawned(n, c, c)[w].count
    requires multiset(received) == multiset(Flatten(outs))
    requires forall k :: 0 <= k < |joins| ==> joins[k] == Joined
    ensures |received| + JoinFailures(joins) == n
    ensures Fold(received) == Fold(Flatten(outs))
  {
    FlattenLength(outs, Spawned(n, c, c));
    SpawnedExactly(n, c, c);
    SharesSumToTotal(n, c);
    assert |received| == |multiset(received)| == |Flatten(outs)|;
    NoJoinFailures(joins);
    FoldOrderIndependent(received, Flatten(outs));
  }

  lemma {:induction false} NoJoinFailures(joins: seq<JoinOutcome>)
    requires forall k :: 0 <= k < |joins| ==> joins[k] == Joined
    ensures JoinFailures(joins) == 0
  {
    if joins != [] {
      NoJoinFailures(joins[..|joins| - 1]);
    }
  }
}
