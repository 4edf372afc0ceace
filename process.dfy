/** The supervisor of one cluster's child process: the child environment,
    the handle that goes from none to a child and back, the demultiplexing of
    the child's IPC messages into events, and `run` with its wait and
    timeout. Forking, the IPC channel and timers are outside; their outcomes
    are parameters and their requests are recorded. */
module ClusterProcess {
  import opened Wrappers
  import opened Schemas
  import opened Numbers

  /** The cluster IPC opcodes. */
  const ReadyOp: int := 0
  const DisconnectOp: int := 1
  const ReconnectingOp: int := 2
  const RespawnAllOp: int := 3

  // ---------------------------------------------------------------------
  // The child environment

  type Env = map<string, string>

  /** `Object.assign(target, source)`. */
  function Overlay(target: Env, source: Env): Env
  {
    target + source
  }

  /** The overlay has the keys of both, and the source's values win. */
  lemma OverlayWins(target: Env, source: Env)
    ensures Overlay(target, source).Keys == target.Keys + source.Keys
    ensures forall k :: k in source ==> Overlay(target, source)[k] == source[k]
    ensures forall k :: k in target && k !in source ==> Overlay(target, source)[k] == target[k]
  {
  }

  /** The variables that tell a child which shards it runs. */
  function ClusterVars(clusterId: int, shardCount: int, shardEnd: int, shardStart: int): Env
  {
    map[
      "CLUSTER_ID" := DecimalString(clusterId),
      "CLUSTER_SHARD_COUNT" := DecimalString(shardCount),
      "CLUSTER_SHARD_END" := DecimalString(shardEnd),
      "CLUSTER_SHARD_START" := DecimalString(shardStart)]
  }

  /** The parent's environment, overlaid by the options' environment,
      overlaid by the cluster variables. */
  function ChildEnv(processEnv: Env, optionsEnv: Env, clusterId: int, shardCount: int, shardEnd: int, shardStart: int): Env
  {
    Overlay(Overlay(processEnv, optionsEnv), ClusterVars(clusterId, shardCount, shardEnd, shardStart))
  }

  predicate IsClusterVar(k: string)
  {
    k in {"CLUSTER_ID", "CLUSTER_SHARD_COUNT", "CLUSTER_SHARD_END", "CLUSTER_SHARD_START"}
  }

  /** The child reads back exactly the numbers it was given; every other
      variable comes from the options if they set it, else from the parent. */
  lemma ChildEnvSpec(processEnv: Env, optionsEnv: Env, clusterId: int, shardCount: int, shardEnd: int, shardStart: int)
    ensures var env := ChildEnv(processEnv, optionsEnv, clusterId, shardCount, shardEnd, shardStart);
      ParseDecimal(env["CLUSTER_ID"]) == Some(clusterId) &&
      ParseDecimal(env["CLUSTER_SHARD_COUNT"]) == Some(shardCount) &&
      ParseDecimal(env["CLUSTER_SHARD_END"]) == Some(shardEnd) &&
      ParseDecimal(env["CLUSTER_SHARD_START"]) == Some(shardStart)
    ensures var env := ChildEnv(processEnv, optionsEnv, clusterId, shardCount, shardEnd, shardStart);
      forall k :: !IsClusterVar(k) ==>
        (k in env <==> k in processEnv || k in optionsEnv) &&
        (k in optionsEnv ==> env[k] == optionsEnv[k]) &&
        (k in processEnv && k !in optionsEnv ==> env[k] == processEnv[k])
  {
    OverlayWins(processEnv, optionsEnv);
    OverlayWins(Overlay(processEnv, optionsEnv), ClusterVars(clusterId, shardCount, shardEnd, shardStart));
    DecimalRoundTrip(clusterId);
    DecimalRoundTrip(shardCount);
    DecimalRoundTrip(shardEnd);
    DecimalRoundTrip(shardStart);
  }

  // ---------------------------------------------------------------------
  // Messages and events

  /** What the child sends: an object (with its `op` field and the rest of
      its fields) or any other value, `null` among them. */
  datatype Message = Object(op: Value, body: Doc) | Scalar(v: Value)

  datatype Emitted = ReadyEvent | DisconnectEvent | ReconnectingEvent | MessageEvent(m: Message) | KilledEvent | WarnEvent

  /** `onMessage`: the three state opcodes become their own events, a
      respawn request none, and everything else is passed on as `message`. */
  function MessageEvents(m: Message): (r: seq<Emitted>)
    ensures |r| <= 1
    ensures r == [] <==> m.Object? && m.op == Num(RespawnAllOp)
    ensures r == [ReadyEvent] <==> m.Object? && m.op == Num(ReadyOp)
    ensures r == [DisconnectEvent] <==> m.Object? && m.op == Num(DisconnectOp)
    ensures r == [ReconnectingEvent] <==> m.Object? && m.op == Num(ReconnectingOp)
    ensures r == [MessageEvent(m)] <==> !(m.Object? && m.op in {Num(ReadyOp), Num(DisconnectOp), Num(ReconnectingOp), Num(RespawnAllOp)})
  {
    if m.Object? && m.op == Num(ReadyOp) then [ReadyEvent]
    else if m.Object? && m.op == Num(DisconnectOp) then [DisconnectEvent]
    else if m.Object? && m.op == Num(ReconnectingOp) then [ReconnectingEvent]
    else if m.Object? && m.op == Num(RespawnAllOp) then []
    else [MessageEvent(m)]
  }

  /** The message `sendIPC` sends; a missing `shard` stays undefined. */
  function IpcMessage(op: int, data: Option<Value>, request: Option<bool>, shard: Option<int>): (m: Message)
    ensures m.Object? && m.op == Num(op) && "data" in m.body && "request" in m.body
    ensures m.body["data"] == (if data.Some? then data.value else Null)
    ensures m.body["request"] == Bool(request.Some? && request.value)
    ensures "shard" in m.body <==> shard.Some?
    ensures shard.Some? ==> m.body["shard"] == Num(shard.value)
  {
    var body := map["data" := (if data.Some? then data.value else Null), "request" := Bool(request.Some? && request.value)];
    Object(Num(op), if shard.Some? then body["shard" := Num(shard.value)] else body)
  }

  /** The child reads an IPC message it was sent as the event it stands for. */
  lemma IpcMessageEvents(op: int, data: Option<Value>, request: Option<bool>, shard: Option<int>)
    ensures op == ReadyOp ==> MessageEvents(IpcMessage(op, data, request, shard)) == [ReadyEvent]
    ensures op == RespawnAllOp ==> MessageEvents(IpcMessage(op, data, request, shard)) == []
    ensures !(0 <= op <= 3) ==> MessageEvents(IpcMessage(op, data, request, shard)) == [MessageEvent(IpcMessage(op, data, request, shard))]
  {
  }

  // ---------------------------------------------------------------------
  // The process

  /** How a promise ended. */
  datatype Outcome = Pending | Resolved | Rejected

  /** A `run` that waits for `ready`: the child it forked, whether a timer
      was started, and how its promise stands. */
  datatype Waiter = Waiter(child: nat, timed: bool, state: Outcome)

  /** What `run` returned: a child at once, or the waiter at an index. */
  datatype RunResult = Child(id: nat) | Waiting(index: nat)

  /** `ready` resolves every pending `run`. */
  function ResolveAll(ws: seq<Waiter>): (r: seq<Waiter>)
    ensures |r| == |ws|
    ensures forall i :: 0 <= i < |ws| ==>
      r[i].child == ws[i].child && r[i].timed == ws[i].timed &&
      r[i].state == (if ws[i].state == Pending then Resolved else ws[i].state)
  {
    seq(|ws|, i requires 0 <= i < |ws| => if ws[i].state == Pending then ws[i].(state := Resolved) else ws[i])
  }

  /** `options.timeout` as a truthy number. */
  function Timed(timeout: Option<int>): (r: bool)
    ensures r <==> timeout.Some? && timeout.value != 0
  {
    timeout.Some? && timeout.value != 0
  }

  /** What the manager tells a cluster process: its id, extra environment
      and shard range. */
  datatype ProcessOptions = ProcessOptions(clusterId: int, env: Env, shardCount: int, shardEnd: int, shardStart: int)

  class ProxyClusterProcess {
    const clusterId: int
    /** The parent's environment when the process was made. */
    const processEnv: Env
    const options: ProcessOptions
    const env: Env := ChildEnv(processEnv, options.env, options.clusterId, options.shardCount, options.shardEnd, options.shardStart)
    /** The manager's `respawn` flag, which it fixes at construction. */
    const respawn: bool
    /** The current child, as the number of the fork that made it. */
    var child: Option<nat>
    var forks: nat
    var waiters: seq<Waiter>
    var emitted: seq<Emitted>
    var sent: seq<(nat, Message)>
    var kills: seq<nat>
    var respawns: nat

    /** Every child handle is one this process forked. */
    predicate Valid()
      reads this
    {
      (child.Some? ==> child.value < forks) &&
      (forall i :: 0 <= i < |waiters| ==> waiters[i].child < forks)
    }

    constructor(processEnv: Env, options: ProcessOptions, respawn: bool)
      ensures clusterId == options.clusterId && this.processEnv == processEnv && this.options == options && this.respawn == respawn
      ensures env == ChildEnv(processEnv, options.env, options.clusterId, options.shardCount, options.shardEnd, options.shardStart)
      ensures child == None && forks == 0 && waiters == [] && emitted == [] && sent == [] && kills == [] && respawns == 0
      ensures Valid()
    {
      clusterId := options.clusterId;
      this.processEnv := processEnv;
      this.options := options;
      this.respawn := respawn;
      child := None;
      forks := 0;
      waiters := [];
      emitted := [];
      sent := [];
      kills := [];
      respawns := 0;
    }

    /** A message from the child. */
    method OnMessage(m: Message)
      modifies this
      ensures emitted == old(emitted) + MessageEvents(m)
      ensures waiters == if MessageEvents(m) == [ReadyEvent] then ResolveAll(old(waiters)) else old(waiters)
      ensures child == old(child) && forks == old(forks) && sent == old(sent) && kills == old(kills) && respawns == old(respawns)
      ensures old(Valid()) ==> Valid()
    {
      var events := MessageEvents(m);
      emitted := emitted + events;
      if events == [ReadyEvent] {
        waiters := ResolveAll(waiters);
      }
    }

    /** The child exited: `killed`, the handle is cleared, and a respawn is
        attempted if the manager asks for one; its failure is only a `warn`. */
    method OnExit(respawnFails: bool)
      modifies this
      ensures child == None
      ensures emitted == old(emitted) + [KilledEvent] + (if respawn && respawnFails then [WarnEvent] else [])
      ensures respawns == old(respawns) + (if respawn then 1 else 0)
      ensures forks == old(forks) && waiters == old(waiters) && sent == old(sent) && kills == old(kills)
      ensures old(Valid()) ==> Valid()
    {
      emitted := emitted + [KilledEvent];
      child := None;
      if respawn {
        respawns := respawns + 1;
        if respawnFails {
          emitted := emitted + [WarnEvent];
        }
      }
    }

    /** `send`: without a child it resolves and sends nothing; otherwise the
        channel's callback decides. */
    method Send(m: Message, channelFails: bool) returns (r: Outcome)
      modifies this
      ensures old(child).None? ==> r == Resolved && sent == old(sent)
      ensures old(child).Some? ==>
        sent == old(sent) + [(old(child).value, m)] && r == (if channelFails then Rejected else Resolved)
      ensures child == old(child) && forks == old(forks) && waiters == old(waiters) && emitted == old(emitted)
      ensures kills == old(kills) && respawns == old(respawns)
    {
      if child.None? {
        return Resolved;
      }
      sent := sent + [(child.value, m)];
      r := if channelFails then Rejected else Resolved;
    }

    /** `sendIPC(op, data = null, request = false, shard)`. */
    method SendIpc(op: int, data: Option<Value>, request: Option<bool>, shard: Option<int>, channelFails: bool) returns (r: Outcome)
      modifies this
      ensures old(child).None? ==> r == Resolved && sent == old(sent)
      ensures old(child).Some? ==>
        sent == old(sent) + [(old(child).value, IpcMessage(op, data, request, shard))] &&
        r == (if channelFails then Rejected else Resolved)
      ensures child == old(child) && forks == old(forks) && waiters == old(waiters) && emitted == old(emitted)
      ensures kills == old(kills) && respawns == old(respawns)
    {
      r := Send(IpcMessage(op, data, request, shard), channelFails);
    }

    /** `run({timeout, wait})`: an existing child is returned as it is;
        otherwise a child is forked, and unless `wait` is `false` the call
        waits for `ready`, with a timer when a timeout is given. */
    method Run(timeout: Option<int>, wait: Option<bool>) returns (r: RunResult)
      modifies this
      ensures old(child).Some? ==> r == Child(old(child).value) && forks == old(forks) && waiters == old(waiters) && child == old(child)
      ensures old(child).None? ==> forks == old(forks) + 1 && child == Some(old(forks))
      ensures old(child).None? && wait == Some(false) ==> r == Child(old(forks)) && waiters == old(waiters)
      ensures old(child).None? && wait != Some(false) ==>
        r == Waiting(|old(waiters)|) && waiters == old(waiters) + [Waiter(old(forks), Timed(timeout), Pending)]
      ensures emitted == old(emitted) && sent == old(sent) && kills == old(kills) && respawns == old(respawns)
      ensures old(Valid()) ==> Valid()
    {
      if child.Some? {
        return Child(child.value);
      }
      var id := forks;
      forks := forks + 1;
      child := Some(id);
      if wait == Some(false) {
        return Child(id);
      }
      r := Waiting(|waiters|);
      waiters := waiters + [Waiter(id, Timed(timeout), Pending)];
    }

    /** The timer of a pending `run` fires: its child is killed and the handle
        cleared only if that child is still the current one; the run is
        rejected either way. */
    method OnTimeout(i: nat)
      requires i < |waiters| && waiters[i].timed && waiters[i].state == Pending
      modifies this
      ensures old(child) == Some(old(waiters)[i].child) ==> child == None && kills == old(kills) + [old(waiters)[i].child]
      ensures old(child) != Some(old(waiters)[i].child) ==> child == old(child) && kills == old(kills)
      ensures waiters == old(waiters)[i := old(waiters)[i].(state := Rejected)]
      ensures forks == old(forks) && emitted == old(emitted) && sent == old(sent) && respawns == old(respawns)
      ensures old(Valid()) ==> Valid()
    {
      var w := waiters[i];
      if child == Some(w.child) {
        kills := kills + [w.child];
        child := None;
      }
      waiters := waiters[i := w.(state := Rejected)];
    }
  }

  /** A second `run` returns the child of the first without forking. */
  method RunTwice(p: ProxyClusterProcess, timeout: Option<int>)
    requires p.child.None?
    modifies p
    ensures p.forks == old(p.forks) + 1 && p.child == Some(old(p.forks))
    ensures |p.waiters| == |old(p.waiters)| + 1
  {
    var first := p.Run(timeout, None);
    var second := p.Run(timeout, None);
    assert second == Child(old(p.forks));
  }

  /** A timer left over from a child that has exited and been replaced does
      not kill the new child. */
  method StaleTimeout(p: ProxyClusterProcess)
    requires p.child.None? && p.Valid()
    modifies p
    ensures p.child == Some(old(p.forks) + 1) && p.kills == old(p.kills)
    ensures |p.waiters| == |old(p.waiters)| + 2
    ensures p.waiters[|old(p.waiters)|].state == Rejected
    ensures p.waiters[|old(p.waiters)| + 1].state == Pending
  {
    var first := p.Run(Some(1000), None);
    p.OnExit(false);
    var second := p.Run(Some(1000), None);
    p.OnTimeout(first.index);
  }

  /** `ready` before the timer resolves the run, and the timer no longer
      applies. */
  method ReadyFirst(p: ProxyClusterProcess)
    requires p.child.None?
    modifies p
    ensures p.child == Some(old(p.forks)) && |p.waiters| == |old(p.waiters)| + 1
    ensures p.waiters[|old(p.waiters)|].state == Resolved
    ensures p.emitted == old(p.emitted) + [ReadyEvent]
  {
    var r := p.Run(Some(1000), None);
    p.OnMessage(Object(Num(ReadyOp), map[]));
  }
}
