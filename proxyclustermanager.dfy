/** The cluster manager: it splits the shard range into chunks of
    `shardsPerCluster` consecutive shards, forks one cluster process per
    chunk with consecutive cluster ids, and sleeps between chunks. The REST
    lookup of the shard count and url, the clock and the sleeps are inputs
    and logs. */
module ClusterManager {
  import opened Wrappers
  import opened Numbers
  import opened ClusterProcess
  import Proxy

  // ---------------------------------------------------------------------
  // Chunks of the shard range

  /** The shards `start..end` a cluster runs. */
  datatype Chunk = Chunk(start: int, end: int)

  /** A process's child handle, fork count, waiting runs, events, kills and
      respawns: what a send leaves alone. */
  datatype Bookkeeping = Bookkeeping(child: Option<nat>, forks: nat, waiters: seq<Waiter>, emitted: seq<Emitted>, kills: seq<nat>, respawns: nat)

  function Min(a: int, b: int): int
  {
    if a <= b then a else b
  }

  /** How many times the loop from `s` in steps of `spc` stays at or below `e`. */
  function NumChunks(s: int, e: int, spc: int): nat
    requires spc > 0
  {
    if s > e then 0 else (e - s) / spc + 1
  }

  /** The chunk of the `k`-th iteration. */
  function ChunkAt(s: int, e: int, spc: int, k: nat): Chunk
  {
    Chunk(s + k * spc, Min(s + k * spc + spc - 1, e))
  }

  /** The chunks of `[s, e]`, in the order they are started; index = cluster id. */
  function Chunks(s: int, e: int, spc: int): (r: seq<Chunk>)
    requires spc > 0
    ensures |r| == NumChunks(s, e, spc)
  {
    seq(NumChunks(s, e, spc), k requires 0 <= k => ChunkAt(s, e, spc, k))
  }

  lemma MulMono(a: int, b: int, spc: int)
    requires spc > 0 && a <= b
    ensures a * spc <= b * spc
  {
  }

  /** `(a / spc) * spc` is the largest multiple of `spc` not above `a`. */
  lemma DivBounds(a: int, spc: int)
    requires spc > 0
    ensures (a / spc) * spc <= a < (a / spc) * spc + spc
  {
  }

  lemma DivUnique(a: int, spc: int, q: int)
    requires spc > 0 && q * spc <= a < q * spc + spc
    ensures a / spc == q
  {
    DivBounds(a, spc);
    var d := a / spc;
    if d < q {
      MulMono(d + 1, q, spc);
    } else if d > q {
      MulMono(q + 1, d, spc);
    }
  }

  /** The chunks as the loop produces them, from the current start on. */
  function ChunksFrom(start: int, e: int, spc: int): seq<Chunk>
    requires spc > 0
    decreases if start > e then 0 else e - start + 1
  {
    if start > e then [] else [Chunk(start, Min(start + spc - 1, e))] + ChunksFrom(start + spc, e, spc)
  }

  /** Dropping the first chunk is starting one step later. */
  lemma ChunksTail(s: int, e: int, spc: int)
    requires spc > 0 && s <= e
    ensures Chunks(s, e, spc)[1..] == Chunks(s + spc, e, spc)
  {
    DivBounds(e - s, spc);
    if s + spc > e {
      DivUnique(e - s, spc, 0);
    } else {
      DivUnique(e - s - spc, spc, (e - s) / spc - 1);
    }
    var a := Chunks(s, e, spc)[1..];
    var b := Chunks(s + spc, e, spc);
    assert |a| == |b|;
    forall k | 0 <= k < |a|
      ensures a[k] == b[k]
    {
      assert (k + 1) * spc == k * spc + spc;
    }
  }

  /** The loop's chunks are the chunks of the range. */
  lemma {:induction false} ChunksFromChunks(s: int, e: int, spc: int)
    requires spc > 0
    ensures ChunksFrom(s, e, spc) == Chunks(s, e, spc)
    decreases if s > e then 0 else e - s + 1
  {
    if s <= e {
      ChunksFromChunks(s + spc, e, spc);
      ChunksTail(s, e, spc);
      var cs := Chunks(s, e, spc);
      assert cs == [cs[0]] + cs[1..];
    }
  }

  /** The loop runs its `k`-th iteration exactly when it has a `k`-th chunk. */
  lemma LoopBound(s: int, e: int, spc: int, k: nat)
    requires spc > 0
    ensures s + k * spc <= e <==> k < NumChunks(s, e, spc)
  {
    if s <= e {
      var q := (e - s) / spc;
      DivBounds(e - s, spc);
      if k <= q {
        MulMono(k, q, spc);
      } else {
        MulMono(q + 1, k, spc);
      }
    }
  }

  /** Every chunk lies inside the range, is not empty and has at most `spc`
      shards; each starts where the previous one ended, the first at `s` and
      the last ends at `e`. */
  lemma {:induction false} ChunksShape(s: int, e: int, spc: int)
    requires spc > 0
    ensures var cs := Chunks(s, e, spc);
      forall k :: 0 <= k < |cs| ==> s <= cs[k].start <= cs[k].end <= e && cs[k].end - cs[k].start < spc
    ensures var cs := Chunks(s, e, spc);
      forall k :: 0 <= k < |cs| - 1 ==> cs[k + 1].start == cs[k].end + 1 && cs[k].end - cs[k].start == spc - 1
    ensures var cs := Chunks(s, e, spc);
      |cs| > 0 ==> cs[0].start == s && cs[|cs| - 1].end == e
    ensures s <= e <==> |Chunks(s, e, spc)| > 0
  {
    var cs := Chunks(s, e, spc);
    forall k | 0 <= k < |cs|
      ensures s <= cs[k].start <= cs[k].end <= e && cs[k].end - cs[k].start < spc
    {
      ChunkInRange(s, e, spc, k);
    }
    forall k | 0 <= k < |cs| - 1
      ensures cs[k + 1].start == cs[k].end + 1 && cs[k].end - cs[k].start == spc - 1
    {
      ChunkFull(s, e, spc, k);
    }
    if |cs| > 0 {
      var q := |cs| - 1;
      assert q == (e - s) / spc;
      DivBounds(e - s, spc);
    }
  }

  /** A chunk the loop starts lies inside the range and has at most `spc` shards. */
  lemma ChunkInRange(s: int, e: int, spc: int, k: nat)
    requires spc > 0 && k < NumChunks(s, e, spc)
    ensures s <= ChunkAt(s, e, spc, k).start <= ChunkAt(s, e, spc, k).end <= e
    ensures ChunkAt(s, e, spc, k).end - ChunkAt(s, e, spc, k).start < spc
  {
    LoopBound(s, e, spc, k);
    MulMono(0, k, spc);
  }

  /** A chunk followed by another has `spc` shards, and the next one starts
      right after it. */
  lemma ChunkFull(s: int, e: int, spc: int, k: nat)
    requires spc > 0 && k + 1 < NumChunks(s, e, spc)
    ensures ChunkAt(s, e, spc, k + 1).start == ChunkAt(s, e, spc, k).end + 1
    ensures ChunkAt(s, e, spc, k).end - ChunkAt(s, e, spc, k).start == spc - 1
  {
    LoopBound(s, e, spc, k + 1);
    assert (k + 1) * spc == k * spc + spc;
  }

  /** The step of the loop from chunk `k` to the next, without products. */
  lemma NextChunk(s: int, e: int, spc: int, k: nat)
    requires spc > 0 && k < NumChunks(s, e, spc)
    ensures Chunks(s, e, spc)[k].end == Min(Chunks(s, e, spc)[k].start + spc - 1, e)
    ensures k + 1 < NumChunks(s, e, spc) <==> Chunks(s, e, spc)[k].start + spc <= e
    ensures k + 1 < NumChunks(s, e, spc) ==> Chunks(s, e, spc)[k + 1].start == Chunks(s, e, spc)[k].start + spc
  {
    LoopBound(s, e, spc, k + 1);
    assert (k + 1) * spc == k * spc + spc;
  }

  /** Chunk `(x - s) / spc` holds shard `x` of the range, and no other chunk
      does: the chunks cover the range exactly once. */
  lemma ChunkOf(s: int, e: int, spc: int, x: int)
    requires spc > 0 && s <= x <= e
    ensures var cs := Chunks(s, e, spc); var k := (x - s) / spc;
      0 <= k < |cs| && cs[k].start <= x <= cs[k].end
    ensures var cs := Chunks(s, e, spc);
      forall j :: 0 <= j < |cs| && cs[j].start <= x <= cs[j].end ==> j == (x - s) / spc
  {
    var cs := Chunks(s, e, spc);
    var k := (x - s) / spc;
    DivBounds(x - s, spc);
    assert 0 <= k by {
      if k < 0 {
        MulMono(k, -1, spc);
      }
    }
    LoopBound(s, e, spc, k);
    forall j | 0 <= j < |cs| && cs[j].start <= x <= cs[j].end
      ensures j == k
    {
      DivUnique(x - s, spc, j);
    }
  }

  /** A shard is in some chunk if and only if it is in the range. */
  lemma ChunksCover(s: int, e: int, spc: int, x: int)
    requires spc > 0
    ensures (exists k :: 0 <= k < |Chunks(s, e, spc)| && Chunks(s, e, spc)[k].start <= x <= Chunks(s, e, spc)[k].end) <==> s <= x <= e
  {
    ChunksShape(s, e, spc);
    if s <= x <= e {
      ChunkOf(s, e, spc, x);
      var k := (x - s) / spc;
      assert 0 <= k < |Chunks(s, e, spc)| && Chunks(s, e, spc)[k].start <= x <= Chunks(s, e, spc)[k].end;
    }
  }

  /** Earlier chunks hold lower shards. */
  lemma ChunksOrdered(s: int, e: int, spc: int, i: nat, j: nat)
    requires spc > 0 && i < j < |Chunks(s, e, spc)|
    ensures Chunks(s, e, spc)[i].end < Chunks(s, e, spc)[j].start
  {
    ChunksShape(s, e, spc);
    var cs := Chunks(s, e, spc);
    assert cs[i].end < cs[i + 1].start;
    MulMono(i + 1, j, spc);
  }

  /** Shards 0 to 15 in clusters of 8 make two clusters. */
  lemma SixteenShardsInTwoClusters()
    ensures Chunks(0, 15, 8) == [Chunk(0, 7), Chunk(8, 15)]
  {
    var cs := Chunks(0, 15, 8);
    assert |cs| == 2;
    assert cs[0] == Chunk(0, 7);
    assert cs[1] == Chunk(8, 15);
  }

  // ---------------------------------------------------------------------
  // Sleeps between chunks

  /** The sleep after a chunk: `delay * (end - start)`, unless it is the last
      chunk or the product is 0. */
  function SleepAfter(c: Chunk, shardEnd: int, delay: int): seq<int>
  {
    if c.end < shardEnd && delay * (c.end - c.start) != 0 then [delay * (c.end - c.start)] else []
  }

  /** The sleeps after the first `n` chunks of `cs`, in order. */
  function Sleeps(cs: seq<Chunk>, n: nat, shardEnd: int, delay: int): seq<int>
    requires n <= |cs|
  {
    if n == 0 then [] else Sleeps(cs, n - 1, shardEnd, delay) + SleepAfter(cs[n - 1], shardEnd, delay)
  }

  /** Walking the chunks: the one at `start` and the ones after it. */
  lemma ChunksFromStep(cs: seq<Chunk>, i: nat, start: int, e: int, spc: int)
    requires spc > 0 && start <= e && i <= |cs| && cs[i..] == ChunksFrom(start, e, spc)
    ensures i < |cs| && cs[i] == Chunk(start, Min(start + spc - 1, e))
    ensures cs[i + 1..] == ChunksFrom(start + spc, e, spc)
  {
    assert cs[i..][0] == cs[i];
    assert cs[i + 1..] == cs[i..][1..];
  }

  /** The sleep after each of the first `k` chunks, when none is the last. */
  lemma {:induction false} SleepsPrefix(s: int, e: int, spc: int, delay: int, k: nat)
    requires spc > 0 && k < NumChunks(s, e, spc)
    ensures Sleeps(Chunks(s, e, spc), k, e, delay) ==
      if delay * (spc - 1) == 0 then [] else seq(k, _ => delay * (spc - 1))
    decreases k
  {
    var cs := Chunks(s, e, spc);
    if k > 0 {
      ChunksShape(s, e, spc);
      SleepsPrefix(s, e, spc, delay, k - 1);
      assert cs[k - 1].end < cs[k].start <= e;
    }
  }

  /** Every sleep is `delay * (spc - 1)`, one after each chunk but the last
      (none at all when that product is 0): the whole chunks are the ones
      before the last. */
  lemma SleepsBetweenChunks(s: int, e: int, spc: int, delay: int)
    requires spc > 0
    ensures Sleeps(Chunks(s, e, spc), NumChunks(s, e, spc), e, delay) ==
      if s > e || delay * (spc - 1) == 0 then [] else seq(NumChunks(s, e, spc) - 1, _ => delay * (spc - 1))
  {
    var cs := Chunks(s, e, spc);
    if |cs| > 0 {
      var n := |cs|;
      SleepsPrefix(s, e, spc, delay, n - 1);
      ChunksShape(s, e, spc);
      assert SleepAfter(cs[n - 1], e, delay) == [];
    } else {
      ChunksShape(s, e, spc);
    }
  }

  // ---------------------------------------------------------------------
  // Resolution of the run options

  /** `+(options.shardCount || this.shardCount || 0)`, then the fetched count
      when that is 0. */
  function ResolvedCount(option: Option<int>, field: int, fetched: int): (r: int)
    ensures option.Some? && option.value != 0 ==> r == option.value
    ensures (option.None? || option.value == 0) && field != 0 ==> r == field
    ensures (option.None? || option.value == 0) && field == 0 ==> r == fetched
  {
    var count := OrElse(option, field);
    if count != 0 then count else fetched
  }

  /** The REST lookup is made when the url or the count is missing. */
  function NeedsFetch(option: Option<int>, field: int, url: Option<string>): (r: bool)
    ensures r <==> OrElse(option, field) == 0 || url.None? || url.value == ""
  {
    OrElse(option, field) == 0 || url.None? || url.value == ""
  }

  /** The count `run` ends up with. */
  function RunCount(option: Option<int>, field: int, url: Option<string>, fetched: int): (r: int)
    ensures OrElse(option, field) != 0 ==> r == OrElse(option, field)
    ensures OrElse(option, field) == 0 ==> r == fetched
  {
    if NeedsFetch(option, field, url) then ResolvedCount(option, field, fetched) else OrElse(option, field)
  }

  /** The gateway url `run` ends up with. */
  function RunUrl(option: Option<int>, field: int, url: Option<string>, fetched: string): (r: string)
    ensures url.Some? && url.value != "" ==> r == url.value
    ensures url.None? || url.value == "" ==> r == fetched
  {
    if NeedsFetch(option, field, url) then Proxy.GatewayUrl(url, fetched) else url.value
  }

  /** `options.delay`, 5000 by default. */
  function RunDelay(delay: Option<int>): int
  {
    if delay.Some? then delay.value else 5000
  }

  const TokenRequired: string := "Token is required for this library to work."
  const ShardsFormat: string := "Shards need to be in the format of [shardStart, shardEnd]"
  const ZeroShardCount: string := "Shard Count cannot be 0, pass in one via the options or the constructor."

  /** The options of a chunk's process: its id, the gateway url as its
      environment, the shard count and the chunk. */
  function ClusterOptions(url: string, clusterId: int, shardCount: int, c: Chunk): ProcessOptions
  {
    ProcessOptions(clusterId, map["GATEWAY_URL" := url], shardCount, c.end, c.start)
  }

  lemma NonEmpty(s: set<int>)
    requires s != {}
    ensures exists k :: k in s
  {
    if forall k :: k !in s {
      assert false;
    }
  }

  class ProxyClusterManager {
    const token: string
    const respawn: bool
    /** `process.env` after the constructor marked it as a manager's. */
    const parentEnv: Env
    var ran: bool
    var shardCount: int
    var shardEnd: int
    var shardStart: int
    var shardsPerCluster: int
    var processes: map<int, ProxyClusterProcess>
    var fetches: nat
    var sleeps: seq<int>

    /** Before the run no process exists, and no process object serves two ids. */
    predicate Valid()
      reads this
    {
      (!ran ==> processes == map[]) &&
      (forall i, j :: i in processes && j in processes && i != j ==> processes[i] != processes[j])
    }

    constructor(token: string, processEnv: Env, respawn: bool, shardCount: int, shardStart: int, shardEnd: int, shardsPerCluster: int)
      ensures this.token == token && this.respawn == respawn
      ensures parentEnv == processEnv["CLUSTER_MANAGER" := "true"]["CLUSTER_TOKEN" := token]
      ensures this.shardCount == shardCount && this.shardStart == shardStart && this.shardEnd == shardEnd
      ensures this.shardsPerCluster == shardsPerCluster
      ensures !ran && processes == map[] && fetches == 0 && sleeps == []
      ensures Valid()
    {
      this.token := token;
      this.respawn := respawn;
      parentEnv := processEnv["CLUSTER_MANAGER" := "true"]["CLUSTER_TOKEN" := token];
      this.shardCount := shardCount;
      this.shardStart := shardStart;
      this.shardEnd := shardEnd;
      this.shardsPerCluster := shardsPerCluster;
      ran := false;
      processes := map[];
      fetches := 0;
      sleeps := [];
    }

    /** `new ProxyClusterManager(file, token, options)`: a token is required
        and `shards`, when it is an array, must have two elements; `respawn`
        holds unless turned off, and a missing or 0 count and cluster size
        default to 0 and 6. */
    static method Create(token: string, processEnv: Env, respawn: Option<bool>, shardCount: Option<int>,
                         shards: Option<seq<int>>, shardsPerCluster: Option<int>)
      returns (r: Result<ProxyClusterManager>)
      ensures r.Failure? <==> token == "" || (shards.Some? && |shards.value| != 2)
      ensures token == "" ==> r == Failure(TokenRequired)
      ensures r.Success? ==>
        var m := r.value;
        fresh(m) && m.Valid() && m.token == token && !m.ran && m.processes == map[] &&
        m.parentEnv == processEnv["CLUSTER_MANAGER" := "true"]["CLUSTER_TOKEN" := token] &&
        m.respawn == (respawn != Some(false)) &&
        m.shardCount == OrElse(shardCount, 0) &&
        m.shardsPerCluster == OrElse(shardsPerCluster, 6) &&
        (shards.None? ==> m.shardStart == 0 && m.shardEnd == -1) &&
        (shards.Some? ==> m.shardStart == shards.value[0] && m.shardEnd == shards.value[1])
    {
      if token == "" {
        return Failure(TokenRequired);
      }
      var start, end := 0, -1;
      if shards.Some? {
        if |shards.value| != 2 {
          return Failure(ShardsFormat);
        }
        start, end := shards.value[0], shards.value[1];
      }
      var m := new ProxyClusterManager(token, processEnv, respawn != Some(false), OrElse(shardCount, 0),
                                       start, end, OrElse(shardsPerCluster, 6));
      r := Success(m);
    }

    /** `run({delay, shardCount, url})`, once: resolves the count and url
        (fetching them when either is missing), fails on a count of 0, then
        forks one process per chunk under consecutive ids, sleeping between
        chunks. `fetchedShards` and `fetchedUrl` answer the REST lookup. */
    method Run(delay: Option<int>, shardCountOption: Option<int>, url: Option<string>, fetchedShards: int, fetchedUrl: string)
      returns (r: Result<()>)
      requires Valid() && shardsPerCluster > 0
      modifies this
      ensures shardStart == old(shardStart) && shardsPerCluster == old(shardsPerCluster)
      ensures Valid()
      ensures old(ran) ==>
        r.Success? && processes == old(processes) && sleeps == old(sleeps) && fetches == old(fetches) &&
        shardCount == old(shardCount) && shardEnd == old(shardEnd)
      ensures !old(ran) ==>
        fetches == old(fetches) + (if NeedsFetch(shardCountOption, old(shardCount), url) then 1 else 0)
      ensures !old(ran) ==>
        (r.Failure? <==> RunCount(shardCountOption, old(shardCount), url, fetchedShards) == 0)
      ensures !old(ran) && r.Failure? ==>
        r.error == ZeroShardCount && !ran && processes == old(processes) && sleeps == old(sleeps) &&
        shardCount == old(shardCount) && shardEnd == old(shardEnd)
      ensures !old(ran) && r.Success? ==>
        ran && shardCount == RunCount(shardCountOption, old(shardCount), url, fetchedShards) &&
        shardEnd == (if old(shardEnd) == -1 then shardCount - 1 else old(shardEnd)) &&
        Spawned(RunUrl(shardCountOption, old(shardCount), url, fetchedUrl), RunDelay(delay), old(sleeps))
    {
      if ran {
        return Success(());
      }
      var count := RunCount(shardCountOption, shardCount, url, fetchedShards);
      var gatewayUrl := RunUrl(shardCountOption, shardCount, url, fetchedUrl);
      if NeedsFetch(shardCountOption, shardCount, url) {
        fetches := fetches + 1;
      }
      if count == 0 {
        return Failure(ZeroShardCount);
      }
      shardCount := count;
      if shardEnd == -1 {
        shardEnd := count - 1;
      }
      var procs, pauses := Spawn(gatewayUrl, RunDelay(delay));
      processes := procs;
      sleeps := sleeps + pauses;
      ran := true;
      r := Success(());
    }

    /** The processes `procs` hold the first `n` chunks of `cs`, each under its
        index, told its chunk and sharing this manager's settings. */
    ghost predicate Told(procs: map<int, ProxyClusterProcess>, cs: seq<Chunk>, n: nat, gatewayUrl: string, count: int)
      requires n <= |cs|
      reads procs.Values
    {
      (forall k :: k in procs <==> 0 <= k < n) &&
      (forall k :: 0 <= k < n ==>
        procs[k].clusterId == k && procs[k].respawn == respawn &&
        procs[k].processEnv == parentEnv &&
        procs[k].options == ClusterOptions(gatewayUrl, k, count, cs[k]) &&
        Started(procs[k]))
    }

    /** A new process after its awaited first `run()`: its first child
        forked, the child's READY received as `ready`, and that untimed run
        resolved. */
    static ghost predicate Started(p: ProxyClusterProcess)
      reads p
    {
      p.child == Some(0) && p.forks == 1 && p.waiters == [Waiter(0, false, Resolved)] &&
      p.emitted == [ReadyEvent] && p.sent == [] && p.kills == [] && p.respawns == 0
    }

    lemma ToldSnoc(procs: map<int, ProxyClusterProcess>, cs: seq<Chunk>, n: nat, gatewayUrl: string, count: int, p: ProxyClusterProcess)
      requires n < |cs| && Told(procs, cs, n, gatewayUrl, count)
      requires p.clusterId == n && p.respawn == respawn && p.processEnv == parentEnv
      requires p.options == ClusterOptions(gatewayUrl, n, count, cs[n]) && Started(p)
      ensures Told(procs[n := p], cs, n + 1, gatewayUrl, count)
    {
    }

    /** After the loop: one fresh process per chunk under its index, each
        told its chunk, and the sleeps between chunks logged after `before`. */
    ghost predicate Spawned(gatewayUrl: string, delay: int, before: seq<int>)
      requires shardsPerCluster > 0
      reads this, processes.Values
    {
      var cs := ChunksFrom(shardStart, shardEnd, shardsPerCluster);
      Told(processes, cs, |cs|, gatewayUrl, shardCount) &&
      sleeps == before + Sleeps(cs, |cs|, shardEnd, delay)
    }

    /** The loop of `run`: for each chunk a new process, run, then the pause
        before the next chunk. */
    method Spawn(gatewayUrl: string, delay: int) returns (procs: map<int, ProxyClusterProcess>, pauses: seq<int>)
      requires shardsPerCluster > 0
      ensures forall k :: k in procs ==> fresh(procs[k])
      ensures forall i, j :: i in procs && j in procs && i != j ==> procs[i] != procs[j]
      ensures Told(procs, ChunksFrom(shardStart, shardEnd, shardsPerCluster),
                   |ChunksFrom(shardStart, shardEnd, shardsPerCluster)|, gatewayUrl, shardCount)
      ensures pauses == Sleeps(ChunksFrom(shardStart, shardEnd, shardsPerCluster),
                               |ChunksFrom(shardStart, shardEnd, shardsPerCluster)|, shardEnd, delay)
    {
      var e := shardEnd;
      var spc := shardsPerCluster;
      ghost var cs := ChunksFrom(shardStart, e, spc);
      var clusterId := 0;
      var start := shardStart;
      procs := map[];
      pauses := [];
      assert cs[clusterId..] == cs;
      while start <= e
        invariant 0 <= clusterId <= |cs|
        invariant cs[clusterId..] == ChunksFrom(start, e, spc)
        invariant Told(procs, cs, clusterId, gatewayUrl, shardCount)
        invariant forall k :: k in procs ==> fresh(procs[k])
        invariant forall i, j :: i in procs && j in procs && i != j ==> procs[i] != procs[j]
        invariant pauses == Sleeps(cs, clusterId, e, delay)
        decreases |cs| - clusterId
      {
        var chunk := Chunk(start, Min(start + spc - 1, e));
        ChunksFromStep(cs, clusterId, start, e, spc);
        var p := StartCluster(clusterId, chunk, gatewayUrl);
        ToldSnoc(procs, cs, clusterId, gatewayUrl, shardCount, p);
        procs := procs[clusterId := p];
        pauses := pauses + SleepAfter(chunk, e, delay);
        clusterId := clusterId + 1;
        start := start + spc;
      }
    }

    /** A new process for one chunk, run until its child is ready: the
        child's READY message arrives before the awaited run returns. */
    method StartCluster(clusterId: int, c: Chunk, gatewayUrl: string) returns (p: ProxyClusterProcess)
      ensures fresh(p) && p.clusterId == clusterId && p.respawn == respawn
      ensures p.processEnv == parentEnv && p.options == ClusterOptions(gatewayUrl, clusterId, shardCount, c)
      ensures Started(p)
    {
      p := new ProxyClusterProcess(parentEnv, ClusterOptions(gatewayUrl, clusterId, shardCount, c), respawn);
      var _ := p.Run(None, None);
      // The awaited run returns once the child's READY arrives.
      IpcMessageEvents(ReadyOp, None, None, None);
      p.OnMessage(IpcMessage(ReadyOp, None, None, None));
    }

    /** Everything of a process but its send log. */
    static ghost function Book(p: ProxyClusterProcess): Bookkeeping
      reads p
    {
      Bookkeeping(p.child, p.forks, p.waiters, p.emitted, p.kills, p.respawns)
    }

    /** The process got `m` over its channel if it had a child, and nothing
        else of it changed. */
    static ghost predicate Delivered(p: ProxyClusterProcess, book: Bookkeeping, before: seq<(nat, Message)>, m: Message)
      reads p
    {
      Book(p) == book && p.sent == before + (if book.child.Some? then [(book.child.value, m)] else [])
    }

    static method SendTo(p: ProxyClusterProcess, m: Message, fails: bool) returns (r: Outcome)
      modifies p
      ensures Delivered(p, old(Book(p)), old(p.sent), m)
      ensures r == if old(p.child).Some? && fails then Rejected else Resolved
    {
      r := p.Send(m, fails);
    }

    /** `broadcast(message)`: sends to every process; the result of each
        send, by cluster id (the whole call rejects if any of them does).
        `failing` names the clusters whose channel reports an error. */
    method Broadcast(m: Message, failing: set<int>) returns (results: map<int, Outcome>)
      requires Valid()
      modifies processes.Values
      ensures results.Keys == processes.Keys
      ensures forall k :: k in processes ==>
        results[k] == (if old(processes[k].child).Some? && k in failing then Rejected else Resolved)
      ensures forall k :: k in processes ==> Delivered(processes[k], old(Book(processes[k])), old(processes[k].sent), m)
    {
      ghost var books := map k | k in processes :: Book(processes[k]);
      ghost var before := map k | k in processes :: processes[k].sent;
      results := SendAll(m, failing, books, before);
    }

    /** The loop of `broadcast`, against the state and logs it started from. */
    method SendAll(m: Message, failing: set<int>, ghost books: map<int, Bookkeeping>, ghost before: map<int, seq<(nat, Message)>>)
      returns (results: map<int, Outcome>)
      requires forall i, j :: i in processes && j in processes && i != j ==> processes[i] != processes[j]
      requires forall k :: k in processes ==>
        k in books && k in before && Book(processes[k]) == books[k] && processes[k].sent == before[k]
      modifies processes.Values
      ensures results.Keys == processes.Keys
      ensures forall k :: k in processes ==>
        Delivered(processes[k], books[k], before[k], m) &&
        results[k] == (if books[k].child.Some? && k in failing then Rejected else Resolved)
    {
      var todo := processes.Keys;
      results := map[];
      while todo != {}
        invariant processes == old(processes)
        invariant todo <= processes.Keys
        invariant results.Keys == processes.Keys - todo
        invariant forall k :: k in processes && k !in todo ==>
          Delivered(processes[k], books[k], before[k], m) &&
          results[k] == (if books[k].child.Some? && k in failing then Rejected else Resolved)
        invariant forall k :: k in todo ==> processes[k].sent == before[k] && Book(processes[k]) == books[k]
        decreases todo
      {
        NonEmpty(todo);
        var k :| k in todo;
        var outcome := SendTo(processes[k], m, k in failing);
        results := results[k := outcome];
        todo := todo - {k};
      }
    }

  }
}
