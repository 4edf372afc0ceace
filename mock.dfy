/** The view every writer has of the shard it runs in (the `mock` object):
    the shard id read from the gateway, the registered models, and the
    shard-wide `reset` that READY and `ShardProxy.reset` perform. */
module Mock {
  import opened Schemas
  import opened DocumentStore

  /** The shard id and the set of collections whose model is registered. */
  datatype Ctx = Ctx(shardId: int, models: set<Coll>)

  /** One `deleteMany({_shardId})` for the collection, if its model is
      registered. */
  function ResetStep(ctx: Ctx, c: Coll): seq<Op>
  {
    if c in ctx.models then [DeleteMany(c, ShardFilter(ctx.shardId))] else []
  }

  /** The deletes issued while walking `keys` in order. */
  function ResetFrom(ctx: Ctx, keys: seq<Coll>): seq<Op>
    decreases |keys|
  {
    if keys == [] then [] else ResetFrom(ctx, keys[..|keys| - 1]) + ResetStep(ctx, keys[|keys| - 1])
  }

  /** The deletes of a shard reset: the model keys in order. */
  function ResetOps(ctx: Ctx): seq<Op>
  {
    ResetFrom(ctx, ModelKeys)
  }

  lemma OnResetStep(ctx: Ctx, k: Coll, c: Coll)
    ensures On(ResetStep(ctx, k), c) == if k == c then ResetStep(ctx, c) else []
  {
    if k in ctx.models {
      assert On(ResetStep(ctx, k), c) == (if k == c then ResetStep(ctx, k) else []) + On([], c);
    }
  }

  /** No collection occurs twice in `keys`. */
  ghost predicate DistinctKeys(keys: seq<Coll>)
  {
    forall i, j :: 0 <= i < j < |keys| ==> keys[i] != keys[j]
  }

  /** Dropping the last key keeps the rest distinct, and the last key is not
      among them. */
  lemma DistinctInit(keys: seq<Coll>)
    requires keys != [] && DistinctKeys(keys)
    ensures DistinctKeys(keys[..|keys| - 1])
    ensures keys[|keys| - 1] !in keys[..|keys| - 1]
    ensures forall c :: c in keys <==> c in keys[..|keys| - 1] || c == keys[|keys| - 1]
  {
    var init := keys[..|keys| - 1];
    assert keys == init + [keys[|keys| - 1]];
    forall i | 0 <= i < |init| ensures init[i] != keys[|keys| - 1] {
      assert init[i] == keys[i];
    }
  }

  lemma {:induction false} OnResetFrom(ctx: Ctx, keys: seq<Coll>, c: Coll)
    requires DistinctKeys(keys)
    ensures On(ResetFrom(ctx, keys), c) == if c in keys then ResetStep(ctx, c) else []
    decreases |keys|
  {
    if keys != [] {
      var init := keys[..|keys| - 1];
      var last := keys[|keys| - 1];
      DistinctInit(keys);
      OnResetFrom(ctx, init, c);
      OnConcat(ResetFrom(ctx, init), ResetStep(ctx, last), c);
      OnResetStep(ctx, last, c);
    }
  }

  lemma {:induction false} ResetFromScoped(ctx: Ctx, keys: seq<Coll>)
    ensures forall op :: op in ResetFrom(ctx, keys) ==> ScopedTo(op, ctx.shardId) && op.coll in ctx.models && op.DeleteMany?
    decreases |keys|
  {
    if keys != [] {
      ResetFromScoped(ctx, keys[..|keys| - 1]);
    }
  }

  /** A reset addresses each collection once, with its own step. */
  lemma OnResetOps(ctx: Ctx, c: Coll)
    ensures On(ResetOps(ctx), c) == ResetStep(ctx, c)
  {
    IndexesLeadWithShard(c);
    assert DistinctKeys(ModelKeys);
    OnResetFrom(ctx, ModelKeys, c);
  }

  /** A reset deletes exactly this shard's records in every registered
      collection; unregistered collections and the other shards' records
      stay as they were. */
  lemma ResetWipesShard(st: Store, ctx: Ctx)
    ensures Apply(st, ResetOps(ctx)).Keys == st.Keys
    ensures forall c :: c in st ==>
      Apply(st, ResetOps(ctx))[c] == if c in ctx.models then Others(st[c], ctx.shardId) else st[c]
  {
    var ops := ResetOps(ctx);
    ApplyPerCollection(st, ops);
    forall c | c in st
      ensures Apply(st, ops)[c] == if c in ctx.models then Others(st[c], ctx.shardId) else st[c]
    {
      OnResetOps(ctx, c);
      if c in ctx.models {
        assert Run(st[c], ResetStep(ctx, c)) == Run(DeleteAll(st[c], ShardFilter(ctx.shardId)), []);
      }
    }
  }

  /** Every delete of a reset is a `deleteMany` scoped to the shard, on a
      registered collection. */
  lemma ResetScoped(ctx: Ctx)
    ensures forall op :: op in ResetOps(ctx) ==> ScopedTo(op, ctx.shardId) && op.coll in ctx.models && op.DeleteMany?
  {
    ResetFromScoped(ctx, ModelKeys);
  }
}
