/** The document store as the proxy uses it: a collection is a sequence of
    documents in insertion order, and the writers issue four kinds of
    operation against it (bulk upserts, delete-one, delete-many, and an
    increment on one document). The semantics are those of the store's
    `updateOne` with `upsert: true`, `deleteOne`, `deleteMany` and `$inc`. */
module DocumentStore {
  import opened Schemas

  /** A query filter: equality on each of its fields. */
  type Filter = Doc

  predicate Matches(d: Doc, f: Filter)
  {
    forall k :: k in f ==> Get(d, k) == f[k]
  }

  /** One `updateOne` of a bulk write: merge `update` into the first document
      matching `filter`, or insert `filter` overlaid by `update`. */
  datatype Upsert = Upsert(filter: Filter, update: Doc)

  datatype Op =
    | BulkWrite(coll: Coll, writes: seq<Upsert>)
    | DeleteOne(coll: Coll, filter: Filter)
    | DeleteMany(coll: Coll, filter: Filter)
    | IncrementOne(coll: Coll, filter: Filter, field: string, amount: int)

  /** One sequence of documents per registered collection; a collection that
      is not a key of the map has no registered model. */
  type Store = map<Coll, seq<Doc>>

  /** The position of the first document matching `f`, or `|docs|`. */
  function FirstMatch(docs: seq<Doc>, f: Filter): (i: nat)
    ensures i <= |docs|
    ensures forall j :: 0 <= j < i ==> !Matches(docs[j], f)
    ensures i < |docs| ==> Matches(docs[i], f)
  {
    if docs == [] then 0
    else if Matches(docs[0], f) then 0
    else 1 + FirstMatch(docs[1..], f)
  }

  function UpsertOne(docs: seq<Doc>, u: Upsert): seq<Doc>
  {
    var i := FirstMatch(docs, u.filter);
    if i < |docs| then docs[i := docs[i] + u.update] else docs + [u.filter + u.update]
  }

  /** The upserts of one bulk write, applied in order. */
  function UpsertAll(docs: seq<Doc>, ws: seq<Upsert>): seq<Doc>
    decreases |ws|
  {
    if ws == [] then docs else UpsertAll(UpsertOne(docs, ws[0]), ws[1..])
  }

  function DeleteFirst(docs: seq<Doc>, f: Filter): seq<Doc>
  {
    var i := FirstMatch(docs, f);
    if i < |docs| then docs[..i] + docs[i + 1..] else docs
  }

  /** The documents not matching `f`, in their original order. */
  function DeleteAll(docs: seq<Doc>, f: Filter): (r: seq<Doc>)
    ensures |r| <= |docs|
  {
    if docs == [] then []
    else (if Matches(docs[0], f) then [] else [docs[0]]) + DeleteAll(docs[1..], f)
  }

  /** `$inc` on the first match: a missing field starts from zero, a field
      holding something other than a number makes the write fail, which
      leaves the collection as it was. */
  function Increment(docs: seq<Doc>, f: Filter, field: string, amount: int): seq<Doc>
  {
    var i := FirstMatch(docs, f);
    if i == |docs| then docs
    else if field !in docs[i] then docs[i := docs[i][field := Num(amount)]]
    else if docs[i][field].Num? then docs[i := docs[i][field := Num(docs[i][field].n + amount)]]
    else docs
  }

  function ApplyDocs(docs: seq<Doc>, op: Op): seq<Doc>
  {
    match op
    case BulkWrite(_, ws) => UpsertAll(docs, ws)
    case DeleteOne(_, f) => DeleteFirst(docs, f)
    case DeleteMany(_, f) => DeleteAll(docs, f)
    case IncrementOne(_, f, field, amount) => Increment(docs, f, field, amount)
  }

  /** An operation against a collection without a model does nothing. */
  function ApplyOp(st: Store, op: Op): Store
  {
    if op.coll in st then st[op.coll := ApplyDocs(st[op.coll], op)] else st
  }

  /** The operations in order, each awaited before the next. */
  function Apply(st: Store, ops: seq<Op>): Store
    decreases |ops|
  {
    if ops == [] then st else Apply(ApplyOp(st, ops[0]), ops[1..])
  }

  /** The operations of `ops` addressed to collection `c`. */
  function On(ops: seq<Op>, c: Coll): (r: seq<Op>)
    ensures forall op :: op in r <==> op in ops && op.coll == c
  {
    if ops == [] then []
    else (if ops[0].coll == c then [ops[0]] else []) + On(ops[1..], c)
  }

  /** The operations in order, against one collection. */
  function Run(docs: seq<Doc>, ops: seq<Op>): seq<Doc>
    decreases |ops|
  {
    if ops == [] then docs else Run(ApplyDocs(docs, ops[0]), ops[1..])
  }

  // ---------------------------------------------------------------------
  // Sequencing

  lemma {:induction false} ApplyConcat(st: Store, a: seq<Op>, b: seq<Op>)
    ensures Apply(st, a + b) == Apply(Apply(st, a), b)
    decreases |a|
  {
    if a != [] {
      assert (a + b)[1..] == a[1..] + b;
      ApplyConcat(ApplyOp(st, a[0]), a[1..], b);
    } else {
      assert a + b == b;
    }
  }

  /** Applying operations never registers or drops a collection, and each
      collection evolves exactly as its own operations dictate, independently
      of the operations on the other collections. */
  lemma {:induction false} ApplyPerCollection(st: Store, ops: seq<Op>)
    ensures Apply(st, ops).Keys == st.Keys
    ensures forall c :: c in st ==> Apply(st, ops)[c] == Run(st[c], On(ops, c))
    decreases |ops|
  {
    if ops != [] {
      var st' := ApplyOp(st, ops[0]);
      ApplyPerCollection(st', ops[1..]);
      forall c | c in st
        ensures Apply(st, ops)[c] == Run(st[c], On(ops, c))
      {
        if ops[0].coll == c {
          assert On(ops, c) == [ops[0]] + On(ops[1..], c);
        } else {
          assert On(ops, c) == On(ops[1..], c);
        }
      }
    }
  }

  /** A collection no operation addresses is left exactly as it was. */
  lemma UntouchedCollection(st: Store, ops: seq<Op>, c: Coll)
    requires c in st
    requires forall op :: op in ops ==> op.coll != c
    ensures c in Apply(st, ops) && Apply(st, ops)[c] == st[c]
  {
    ApplyPerCollection(st, ops);
    assert On(ops, c) == [];
  }

  lemma {:induction false} RunConcat(docs: seq<Doc>, a: seq<Op>, b: seq<Op>)
    ensures Run(docs, a + b) == Run(Run(docs, a), b)
    decreases |a|
  {
    if a != [] {
      assert (a + b)[1..] == a[1..] + b;
      RunConcat(ApplyDocs(docs, a[0]), a[1..], b);
    } else {
      assert a + b == b;
    }
  }

  lemma {:induction false} OnConcat(a: seq<Op>, b: seq<Op>, c: Coll)
    ensures On(a + b, c) == On(a, c) + On(b, c)
    decreases |a|
  {
    if a != [] {
      assert (a + b)[1..] == a[1..] + b;
      OnConcat(a[1..], b, c);
    } else {
      assert a + b == b;
    }
  }

  // ---------------------------------------------------------------------
  // Shard scoping

  /** The filter selecting every record of shard `s`. */
  function ShardFilter(s: int): Filter
  {
    map[ShardField := Num(s)]
  }

  predicate InShard(d: Doc, s: int)
  {
    Get(d, ShardField) == Num(s)
  }

  /** The records that do not belong to shard `s`, in store order. */
  function Others(docs: seq<Doc>, s: int): seq<Doc>
  {
    DeleteAll(docs, ShardFilter(s))
  }

  /** An operation that reads and writes only records of shard `s`. */
  predicate ScopedTo(op: Op, s: int)
  {
    match op
    case BulkWrite(_, ws) =>
      forall w :: w in ws ==> Get(w.filter, ShardField) == Num(s) && Get(w.update, ShardField) == Num(s)
    case DeleteOne(_, f) => Get(f, ShardField) == Num(s)
    case DeleteMany(_, f) => Get(f, ShardField) == Num(s)
    case IncrementOne(_, f, field, _) => Get(f, ShardField) == Num(s) && field != ShardField
  }

  lemma {:induction false} DeleteAllConcat(a: seq<Doc>, b: seq<Doc>, f: Filter)
    ensures DeleteAll(a + b, f) == DeleteAll(a, f) + DeleteAll(b, f)
    decreases |a|
  {
    if a != [] {
      var head := if Matches(a[0], f) then [] else [a[0]];
      assert (a + b)[0] == a[0] && (a + b)[1..] == a[1..] + b;
      assert DeleteAll(a + b, f) == head + DeleteAll(a[1..] + b, f);
      DeleteAllConcat(a[1..], b, f);
      assert DeleteAll(a, f) == head + DeleteAll(a[1..], f);
    } else {
      assert a + b == b;
    }
  }

  lemma OthersSingle(d: Doc, s: int)
    ensures Others([d], s) == if InShard(d, s) then [] else [d]
  {
    assert Matches(d, ShardFilter(s)) <==> InShard(d, s);
  }

  /** Replacing a record of shard `s` by another record of shard `s` does not
      change the records of the other shards. */
  lemma OthersReplace(docs: seq<Doc>, i: nat, x: Doc, s: int)
    requires i < |docs| && InShard(docs[i], s) && InShard(x, s)
    ensures Others(docs[i := x], s) == Others(docs, s)
  {
    assert docs == docs[..i] + [docs[i]] + docs[i + 1..];
    assert docs[i := x] == docs[..i] + [x] + docs[i + 1..];
    DeleteAllConcat(docs[..i] + [docs[i]], docs[i + 1..], ShardFilter(s));
    DeleteAllConcat(docs[..i], [docs[i]], ShardFilter(s));
    DeleteAllConcat(docs[..i] + [x], docs[i + 1..], ShardFilter(s));
    DeleteAllConcat(docs[..i], [x], ShardFilter(s));
    OthersSingle(docs[i], s);
    OthersSingle(x, s);
  }

  lemma OthersRemove(docs: seq<Doc>, i: nat, s: int)
    requires i < |docs| && InShard(docs[i], s)
    ensures Others(docs[..i] + docs[i + 1..], s) == Others(docs, s)
  {
    var pre, post := docs[..i], docs[i + 1..];
    assert docs == pre + [docs[i]] + post;
    DeleteAllConcat(pre + [docs[i]], post, ShardFilter(s));
    DeleteAllConcat(pre, [docs[i]], ShardFilter(s));
    DeleteAllConcat(pre, post, ShardFilter(s));
    OthersSingle(docs[i], s);
    assert Others(pre + [docs[i]], s) == Others(pre, s);
  }

  lemma OthersAppend(docs: seq<Doc>, x: Doc, s: int)
    requires InShard(x, s)
    ensures Others(docs + [x], s) == Others(docs, s)
  {
    DeleteAllConcat(docs, [x], ShardFilter(s));
    OthersSingle(x, s);
  }

  lemma {:induction false} OthersAfterDeleteAll(docs: seq<Doc>, f: Filter, s: int)
    requires Get(f, ShardField) == Num(s)
    ensures Others(DeleteAll(docs, f), s) == Others(docs, s)
    decreases |docs|
  {
    if docs != [] {
      var head := if Matches(docs[0], f) then [] else [docs[0]];
      assert docs == [docs[0]] + docs[1..];
      DeleteAllConcat([docs[0]], docs[1..], ShardFilter(s));
      DeleteAllConcat(head, DeleteAll(docs[1..], f), ShardFilter(s));
      OthersAfterDeleteAll(docs[1..], f, s);
      OthersSingle(docs[0], s);
      if Matches(docs[0], f) {
        assert InShard(docs[0], s);
      }
    }
  }

  lemma {:induction false} OthersAfterUpserts(docs: seq<Doc>, ws: seq<Upsert>, s: int)
    requires forall w :: w in ws ==> Get(w.filter, ShardField) == Num(s) && Get(w.update, ShardField) == Num(s)
    ensures Others(UpsertAll(docs, ws), s) == Others(docs, s)
    decreases |ws|
  {
    if ws != [] {
      var u := ws[0];
      assert u in ws;
      var i := FirstMatch(docs, u.filter);
      assert ShardField in u.update;
      if i < |docs| {
        assert InShard(docs[i], s);
        assert InShard(docs[i] + u.update, s);
        OthersReplace(docs, i, docs[i] + u.update, s);
      } else {
        assert InShard(u.filter + u.update, s);
        OthersAppend(docs, u.filter + u.update, s);
      }
      OthersAfterUpserts(UpsertOne(docs, u), ws[1..], s);
    }
  }

  /** A scoped operation leaves the records of every other shard as they
      were, in the same order. */
  lemma ScopedOpKeepsOthers(docs: seq<Doc>, op: Op, s: int)
    requires ScopedTo(op, s)
    ensures Others(ApplyDocs(docs, op), s) == Others(docs, s)
  {
    match op
    case BulkWrite(_, ws) =>
      OthersAfterUpserts(docs, ws, s);
    case DeleteOne(_, f) =>
      var i := FirstMatch(docs, f);
      if i < |docs| {
        OthersRemove(docs, i, s);
      }
    case DeleteMany(_, f) =>
      OthersAfterDeleteAll(docs, f, s);
    case IncrementOne(_, f, field, amount) =>
      var i := FirstMatch(docs, f);
      if i < |docs| {
        assert InShard(docs[i], s);
        if field !in docs[i] {
          OthersReplace(docs, i, docs[i][field := Num(amount)], s);
        } else if docs[i][field].Num? {
          OthersReplace(docs, i, docs[i][field := Num(docs[i][field].n + amount)], s);
        }
      }
  }

  /** Shard isolation: operations scoped to shard `s` leave every other
      shard's records untouched, in every collection. */
  lemma {:induction false} ShardIsolation(st: Store, ops: seq<Op>, s: int)
    requires forall op :: op in ops ==> ScopedTo(op, s)
    ensures Apply(st, ops).Keys == st.Keys
    ensures forall c :: c in st ==> Others(Apply(st, ops)[c], s) == Others(st[c], s)
    decreases |ops|
  {
    if ops != [] {
      assert ops[0] in ops;
      var st' := ApplyOp(st, ops[0]);
      if ops[0].coll in st {
        ScopedOpKeepsOthers(st[ops[0].coll], ops[0], s);
      }
      assert forall op :: op in ops[1..] ==> op in ops;
      ShardIsolation(st', ops[1..], s);
    }
  }

  /** Deleting every record of shard `s` keeps exactly the other shards'
      records, and doing it twice is the same as doing it once. */
  lemma {:induction false} ShardWipe(docs: seq<Doc>, s: int)
    ensures forall d :: d in Others(docs, s) <==> d in docs && !InShard(d, s)
    ensures Others(Others(docs, s), s) == Others(docs, s)
    decreases |docs|
  {
    forall d | true ensures Matches(d, ShardFilter(s)) <==> InShard(d, s) {}
    if docs != [] {
      ShardWipe(docs[1..], s);
      OthersAfterDeleteAll(docs, ShardFilter(s), s);
    }
  }

  // ---------------------------------------------------------------------
  // Key uniqueness

  /** The filter fields are exactly `fields`, and the update never contradicts
      the filter on them. */
  ghost predicate KeyedUpsert(w: Upsert, fields: seq<string>)
  {
    (forall k :: k in w.filter <==> k in fields) &&
    (forall k :: k in w.update && k in w.filter ==> w.update[k] == w.filter[k])
  }

  /** An operation that cannot make two records agree on `fields`. */
  ghost predicate KeyedBy(op: Op, fields: seq<string>)
  {
    match op
    case BulkWrite(_, ws) => forall w :: w in ws ==> KeyedUpsert(w, fields)
    case DeleteOne(_, _) => true
    case DeleteMany(_, _) => true
    case IncrementOne(_, _, field, _) => field !in fields
  }

  lemma UniqueAfterReplace(docs: seq<Doc>, i: nat, x: Doc, fields: seq<string>)
    requires UniqueOn(docs, fields) && i < |docs|
    requires Agree(x, docs[i], fields)
    ensures UniqueOn(docs[i := x], fields)
  {
  }

  lemma UniqueAfterRemove(docs: seq<Doc>, i: nat, fields: seq<string>)
    requires UniqueOn(docs, fields) && i < |docs|
    ensures UniqueOn(docs[..i] + docs[i + 1..], fields)
  {
    var r := docs[..i] + docs[i + 1..];
    forall a, b | 0 <= a < |r| && 0 <= b < |r| && a != b
      ensures !Agree(r[a], r[b], fields)
    {
      var a' := if a < i then a else a + 1;
      var b' := if b < i then b else b + 1;
      assert r[a] == docs[a'] && r[b] == docs[b'];
    }
  }

  /** The members of `DeleteAll(docs, f)` are the members of `docs` that do
      not match `f`. */
  lemma {:induction false} DeleteAllMembers(docs: seq<Doc>, f: Filter)
    ensures forall d :: d in DeleteAll(docs, f) <==> d in docs && !Matches(d, f)
    decreases |docs|
  {
    if docs != [] {
      DeleteAllMembers(docs[1..], f);
      assert docs == [docs[0]] + docs[1..];
    }
  }

  /** The tail of a unique sequence is unique, and its head agrees with none of it. */
  lemma UniqueTail(docs: seq<Doc>, fields: seq<string>)
    requires docs != [] && UniqueOn(docs, fields)
    ensures UniqueOn(docs[1..], fields)
    ensures forall d :: d in docs[1..] ==> !Agree(docs[0], d, fields) && !Agree(d, docs[0], fields)
  {
    var t := docs[1..];
    forall a, b | 0 <= a < |t| && 0 <= b < |t| && a != b
      ensures !Agree(t[a], t[b], fields)
    {
      assert t[a] == docs[a + 1] && t[b] == docs[b + 1];
    }
    forall d | d in t ensures !Agree(docs[0], d, fields) && !Agree(d, docs[0], fields) {
      var j :| 0 <= j < |t| && t[j] == d;
      assert docs[j + 1] == d;
    }
  }

  /** A record that agrees with none of a unique sequence can lead it. */
  lemma UniqueCons(x: Doc, rest: seq<Doc>, fields: seq<string>)
    requires UniqueOn(rest, fields)
    requires forall d :: d in rest ==> !Agree(x, d, fields) && !Agree(d, x, fields)
    ensures UniqueOn([x] + rest, fields)
  {
    var r := [x] + rest;
    forall a, b | 0 <= a < |r| && 0 <= b < |r| && a != b
      ensures !Agree(r[a], r[b], fields)
    {
      if a == 0 {
        assert r[b] == rest[b - 1];
      } else if b == 0 {
        assert r[a] == rest[a - 1];
      } else {
        assert r[a] == rest[a - 1] && r[b] == rest[b - 1];
      }
    }
  }

  lemma {:induction false} UniqueAfterDeleteAll(docs: seq<Doc>, f: Filter, fields: seq<string>)
    requires UniqueOn(docs, fields)
    ensures UniqueOn(DeleteAll(docs, f), fields)
    decreases |docs|
  {
    if docs != [] {
      var t := docs[1..];
      UniqueTail(docs, fields);
      UniqueAfterDeleteAll(t, f, fields);
      if !Matches(docs[0], f) {
        DeleteAllMembers(t, f);
        UniqueCons(docs[0], DeleteAll(t, f), fields);
      }
    }
  }

  lemma UniqueAfterUpsert(docs: seq<Doc>, u: Upsert, fields: seq<string>)
    requires UniqueOn(docs, fields) && KeyedUpsert(u, fields)
    ensures UniqueOn(UpsertOne(docs, u), fields)
  {
    var i := FirstMatch(docs, u.filter);
    if i < |docs| {
      var x := docs[i] + u.update;
      assert Agree(x, docs[i], fields);
      UniqueAfterReplace(docs, i, x, fields);
    } else {
      var y := u.filter + u.update;
      var r := docs + [y];
      forall j | 0 <= j < |docs| ensures !Agree(docs[j], y, fields) {
        assert !Matches(docs[j], u.filter);
      }
      forall a, b | 0 <= a < |r| && 0 <= b < |r| && a != b
        ensures !Agree(r[a], r[b], fields)
      {
        if a < |docs| && b < |docs| {
          assert r[a] == docs[a] && r[b] == docs[b];
        }
      }
    }
  }

  lemma {:induction false} UniqueAfterUpserts(docs: seq<Doc>, ws: seq<Upsert>, fields: seq<string>)
    requires UniqueOn(docs, fields)
    requires forall w :: w in ws ==> KeyedUpsert(w, fields)
    ensures UniqueOn(UpsertAll(docs, ws), fields)
    decreases |ws|
  {
    if ws != [] {
      assert ws[0] in ws;
      UniqueAfterUpsert(docs, ws[0], fields);
      assert forall w :: w in ws[1..] ==> w in ws;
      UniqueAfterUpserts(UpsertOne(docs, ws[0]), ws[1..], fields);
    }
  }

  lemma UniqueAfterOp(docs: seq<Doc>, op: Op, fields: seq<string>)
    requires UniqueOn(docs, fields) && KeyedBy(op, fields)
    ensures UniqueOn(ApplyDocs(docs, op), fields)
  {
    match op
    case BulkWrite(_, ws) =>
      UniqueAfterUpserts(docs, ws, fields);
    case DeleteOne(_, f) =>
      var i := FirstMatch(docs, f);
      if i < |docs| {
        UniqueAfterRemove(docs, i, fields);
      }
    case DeleteMany(_, f) =>
      UniqueAfterDeleteAll(docs, f, fields);
    case IncrementOne(_, f, field, amount) =>
      UniqueAfterIncrement(docs, f, field, amount, fields);
  }

  lemma UniqueAfterIncrement(docs: seq<Doc>, f: Filter, field: string, amount: int, fields: seq<string>)
    requires UniqueOn(docs, fields) && field !in fields
    ensures UniqueOn(Increment(docs, f, field, amount), fields)
  {
    var i := FirstMatch(docs, f);
    var r := Increment(docs, f, field, amount);
    if i < |docs| {
      var d := docs[i];
      if field !in d {
        UniqueAfterSet(docs, i, field, Num(amount), fields);
        assert r == docs[i := d[field := Num(amount)]];
      } else if d[field].Num? {
        UniqueAfterSet(docs, i, field, Num(d[field].n + amount), fields);
        assert r == docs[i := d[field := Num(d[field].n + amount)]];
      } else {
        assert r == docs;
      }
    } else {
      assert r == docs;
    }
  }

  /** Setting a field outside the key keeps the records unique. */
  lemma UniqueAfterSet(docs: seq<Doc>, i: nat, field: string, v: Value, fields: seq<string>)
    requires UniqueOn(docs, fields) && field !in fields && i < |docs|
    ensures UniqueOn(docs[i := docs[i][field := v]], fields)
  {
    var x := docs[i][field := v];
    forall k | k in fields ensures Get(x, k) == Get(docs[i], k) {
      assert k != field;
    }
    UniqueAfterReplace(docs, i, x, fields);
  }

  /** Key uniqueness is an invariant of every keyed run of operations. */
  lemma {:induction false} UniqueAfterRun(docs: seq<Doc>, ops: seq<Op>, fields: seq<string>)
    requires UniqueOn(docs, fields)
    requires forall op :: op in ops ==> KeyedBy(op, fields)
    ensures UniqueOn(Run(docs, ops), fields)
    decreases |ops|
  {
    if ops != [] {
      assert ops[0] in ops;
      UniqueAfterOp(docs, ops[0], fields);
      assert forall op :: op in ops[1..] ==> op in ops;
      UniqueAfterRun(ApplyDocs(docs, ops[0]), ops[1..], fields);
    }
  }

  /** When records are unique on the filter's fields, deleting the first
      match deletes the only one: nothing matching the filter remains, and
      every other record stays. */
  lemma DeleteFirstLeavesNone(docs: seq<Doc>, f: Filter, fields: seq<string>)
    requires UniqueOn(docs, fields)
    requires forall k :: k in f <==> k in fields
    ensures forall d :: d in DeleteFirst(docs, f) ==> !Matches(d, f)
    ensures forall d :: d in docs && !Matches(d, f) ==> d in DeleteFirst(docs, f)
  {
    var i := FirstMatch(docs, f);
    if i < |docs| {
      var r := docs[..i] + docs[i + 1..];
      forall j | 0 <= j < |r| ensures !Matches(r[j], f) {
        var j' := if j < i then j else j + 1;
        assert docs[j'] == r[j] && j' != i;
        assert !Agree(docs[j'], docs[i], fields);
      }
      forall d | d in docs && !Matches(d, f) ensures d in r {
        var j :| 0 <= j < |docs| && docs[j] == d;
        if j < i {
          assert r[j] == d;
        } else {
          assert r[j - 1] == d;
        }
      }
    }
  }

  // ---------------------------------------------------------------------
  // What a write leaves behind

  /** The update never contradicts the filter on a field both fix. */
  predicate Consistent(w: Upsert)
  {
    forall k :: k in w.update && k in w.filter ==> w.update[k] == w.filter[k]
  }

  /** Record `d` holds every field of `u` with `u`'s value. */
  predicate Carries(d: Doc, u: Doc)
  {
    forall k :: k in u ==> k in d && d[k] == u[k]
  }

  /** Some record matches the write's filter and carries its whole update. */
  ghost predicate Stored(docs: seq<Doc>, w: Upsert)
  {
    exists j :: 0 <= j < |docs| && Matches(docs[j], w.filter) && Carries(docs[j], w.update)
  }

  /** Two filters fixing some common field to different values: no record
      matches both. */
  ghost predicate Disjoint(f: Filter, g: Filter)
  {
    exists k :: k in f && k in g && f[k] != g[k]
  }

  /** An upsert leaves a record that matches its filter and carries its
      update, whether it merged into an existing record or inserted one. */
  lemma UpsertStores(docs: seq<Doc>, w: Upsert)
    requires Consistent(w)
    ensures Stored(UpsertOne(docs, w), w)
  {
    var r := UpsertOne(docs, w);
    var i := FirstMatch(docs, w.filter);
    if i < |docs| {
      assert Matches(r[i], w.filter) && Carries(r[i], w.update);
    } else {
      assert Matches(r[|docs|], w.filter) && Carries(r[|docs|], w.update);
    }
  }

  /** An upsert whose filter is disjoint from `w`'s cannot touch the record
      that stores `w`. */
  lemma UpsertKeepsStored(docs: seq<Doc>, w: Upsert, v: Upsert)
    requires Stored(docs, w) && Disjoint(w.filter, v.filter)
    ensures Stored(UpsertOne(docs, v), w)
  {
    var j :| 0 <= j < |docs| && Matches(docs[j], w.filter) && Carries(docs[j], w.update);
    var k :| k in w.filter && k in v.filter && w.filter[k] != v.filter[k];
    var r := UpsertOne(docs, v);
    var i := FirstMatch(docs, v.filter);
    if i < |docs| {
      assert Get(docs[i], k) == v.filter[k];
      assert i != j;
      assert r[j] == docs[j];
    } else {
      assert r[j] == docs[j];
    }
  }

  lemma {:induction false} UpsertAllKeepsStored(docs: seq<Doc>, ws: seq<Upsert>, w: Upsert)
    requires Stored(docs, w)
    requires forall v :: v in ws ==> Disjoint(w.filter, v.filter)
    ensures Stored(UpsertAll(docs, ws), w)
    decreases |ws|
  {
    if ws != [] {
      assert ws[0] in ws;
      UpsertKeepsStored(docs, w, ws[0]);
      assert forall v :: v in ws[1..] ==> v in ws;
      UpsertAllKeepsStored(UpsertOne(docs, ws[0]), ws[1..], w);
    }
  }

  /** After a bulk write, every write whose filter is disjoint from the
      filters of all later writes is stored: the last write for a key wins. */
  lemma {:induction false} UpsertAllStores(docs: seq<Doc>, ws: seq<Upsert>, i: nat)
    requires i < |ws| && Consistent(ws[i])
    requires forall j :: i < j < |ws| ==> Disjoint(ws[i].filter, ws[j].filter)
    ensures Stored(UpsertAll(docs, ws), ws[i])
    decreases |ws|
  {
    if i == 0 {
      UpsertStores(docs, ws[0]);
      forall v | v in ws[1..] ensures Disjoint(ws[0].filter, v.filter) {
        var j :| 0 <= j < |ws[1..]| && ws[1..][j] == v;
        assert ws[j + 1] == v;
      }
      UpsertAllKeepsStored(UpsertOne(docs, ws[0]), ws[1..], ws[0]);
    } else {
      assert ws[1..][i - 1] == ws[i];
      forall j | i - 1 < j < |ws[1..]| ensures Disjoint(ws[1..][i - 1].filter, ws[1..][j].filter) {
        assert ws[1..][j] == ws[j + 1];
      }
      UpsertAllStores(UpsertOne(docs, ws[0]), ws[1..], i - 1);
    }
  }

  /** After deleting by `f`, no record matches `f`, and every record that
      did not match is still there. */
  lemma DeleteAllLeavesNone(docs: seq<Doc>, f: Filter)
    ensures forall d :: d in DeleteAll(docs, f) ==> !Matches(d, f)
    ensures forall d :: d in docs && !Matches(d, f) ==> d in DeleteAll(docs, f)
  {
    DeleteAllMembers(docs, f);
  }

  // ---------------------------------------------------------------------
  // Runs of deletes, increments, and what a bulk write brings in

  /** Operations none of which addresses `c` leave nothing for `c`. */
  lemma OnOther(ops: seq<Op>, c: Coll)
    requires forall op :: op in ops ==> op.coll != c
    ensures On(ops, c) == []
  {
  }

  lemma OnAll(ops: seq<Op>, c: Coll)
    requires forall op :: op in ops ==> op.coll == c
    ensures On(ops, c) == ops
  {
  }

  predicate IsDelete(op: Op)
  {
    op.DeleteOne? || op.DeleteMany?
  }

  /** A run of deletes only ever removes records. */
  lemma {:induction false} RunDeletesShrink(docs: seq<Doc>, ops: seq<Op>)
    requires forall op :: op in ops ==> IsDelete(op)
    ensures forall d :: d in Run(docs, ops) ==> d in docs
    decreases |ops|
  {
    if ops != [] {
      assert ops[0] in ops;
      var next := ApplyDocs(docs, ops[0]);
      if ops[0].DeleteMany? {
        DeleteAllMembers(docs, ops[0].filter);
      } else {
        var i := FirstMatch(docs, ops[0].filter);
        if i < |docs| {
          forall d | d in next ensures d in docs {
            var j :| 0 <= j < |next| && next[j] == d;
            if j < i {
              assert next[j] == docs[j];
            } else {
              assert next[j] == docs[j + 1];
            }
          }
        }
      }
      assert forall op :: op in ops[1..] ==> op in ops;
      RunDeletesShrink(next, ops[1..]);
    }
  }

  /** A record that matches none of the delete filters survives them all. */
  lemma {:induction false} RunDeletesKeep(docs: seq<Doc>, ops: seq<Op>, d: Doc)
    requires forall op :: op in ops ==> IsDelete(op) && !Matches(d, op.filter)
    requires d in docs
    ensures d in Run(docs, ops)
    decreases |ops|
  {
    if ops != [] {
      assert ops[0] in ops;
      var next := ApplyDocs(docs, ops[0]);
      if ops[0].DeleteMany? {
        DeleteAllMembers(docs, ops[0].filter);
      } else {
        var i := FirstMatch(docs, ops[0].filter);
        if i < |docs| {
          var j :| 0 <= j < |docs| && docs[j] == d;
          assert j != i;
          if j < i {
            assert next[j] == d;
          } else {
            assert next[j - 1] == d;
          }
        }
      }
      assert forall op :: op in ops[1..] ==> op in ops;
      RunDeletesKeep(next, ops[1..], d);
    }
  }

  /** After a run of deletes that includes a `deleteMany` by `f`, no record
      matching `f` is left. */
  lemma {:induction false} RunDeleteManyLeavesNone(docs: seq<Doc>, ops: seq<Op>, f: Filter)
    requires forall op :: op in ops ==> IsDelete(op)
    requires exists op :: op in ops && op.DeleteMany? && op.filter == f
    ensures forall d :: d in Run(docs, ops) ==> !Matches(d, f)
    decreases |ops|
  {
    assert ops[0] in ops;
    var next := ApplyDocs(docs, ops[0]);
    assert forall op :: op in ops[1..] ==> op in ops;
    if ops[0].DeleteMany? && ops[0].filter == f {
      DeleteAllLeavesNone(docs, f);
      RunDeletesShrink(next, ops[1..]);
    } else {
      var op :| op in ops && op.DeleteMany? && op.filter == f;
      assert op in ops[1..] by {
        assert ops == [ops[0]] + ops[1..];
      }
      RunDeleteManyLeavesNone(next, ops[1..], f);
    }
  }

  /** `$inc` by `a` and then by `-a` on the same filter restores the
      collection, as long as the field is not one the filter selects on and
      the matched record holds a number there (or nothing matches). */
  lemma {:induction false} IncrementInverse(docs: seq<Doc>, f: Filter, field: string, a: int)
    requires field !in f
    requires FirstMatch(docs, f) < |docs| ==>
      field in docs[FirstMatch(docs, f)] && docs[FirstMatch(docs, f)][field].Num?
    ensures Increment(Increment(docs, f, field, a), f, field, -a) == docs
  {
    var i := FirstMatch(docs, f);
    if i < |docs| {
      var d := docs[i];
      var n := d[field].n;
      var x := d[field := Num(n + a)];
      var once := docs[i := x];
      assert Increment(docs, f, field, a) == once by {
        IncrementNumAt(docs, f, field, a, i, n);
      }
      assert FirstMatch(once, f) == i by {
        assert Matches(x, f) by {
          forall k | k in f ensures Get(x, k) == f[k] {
            assert Get(x, k) == Get(d, k);
          }
        }
        IncrementKeepsFirst(docs, f, i, x);
      }
      assert Increment(once, f, field, -a) == docs by {
        IncrementNumAt(once, f, field, -a, i, n + a);
        assert x[field := Num(n + a + -a)] == d;
        assert once[i := d] == docs;
      }
    }
  }

  lemma IncrementNumAt(docs: seq<Doc>, f: Filter, field: string, a: int, i: nat, n: int)
    requires i == FirstMatch(docs, f) && i < |docs|
    requires field in docs[i] && docs[i][field] == Num(n)
    ensures Increment(docs, f, field, a) == docs[i := docs[i][field := Num(n + a)]]
  {
  }

  /** Replacing the first match by a record that still matches keeps it
      the first match. */
  lemma IncrementKeepsFirst(docs: seq<Doc>, f: Filter, i: nat, x: Doc)
    requires i == FirstMatch(docs, f) && i < |docs| && Matches(x, f)
    ensures FirstMatch(docs[i := x], f) == i
  {
    var once := docs[i := x];
    forall j | 0 <= j < i ensures !Matches(once[j], f) {
      assert once[j] == docs[j];
    }
    FirstMatchIs(once, f, i);
  }

  lemma FirstMatchIs(docs: seq<Doc>, f: Filter, i: nat)
    requires i < |docs| && Matches(docs[i], f)
    requires forall j :: 0 <= j < i ==> !Matches(docs[j], f)
    ensures FirstMatch(docs, f) == i
  {
  }

  /** Every record matching `f` carries the update of one of `ws`. */
  ghost predicate FromWrites(docs: seq<Doc>, f: Filter, ws: seq<Upsert>)
  {
    forall d :: d in docs && Matches(d, f) ==> exists w :: w in ws && Carries(d, w.update)
  }

  lemma UpsertKeepsFrom(docs: seq<Doc>, f: Filter, ws: seq<Upsert>, w: Upsert)
    requires FromWrites(docs, f, ws)
    ensures FromWrites(UpsertOne(docs, w), f, ws + [w])
  {
    var r := UpsertOne(docs, w);
    var i := FirstMatch(docs, w.filter);
    forall d | d in r && Matches(d, f) ensures exists v :: v in ws + [w] && Carries(d, v.update) {
      var j :| 0 <= j < |r| && r[j] == d;
      if (i < |docs| && j == i) || (i == |docs| && j == |docs|) {
        assert Carries(d, w.update) && w in ws + [w];
      } else {
        assert d in docs;
        var v :| v in ws && Carries(d, v.update);
        assert v in ws + [w];
      }
    }
  }

  /** Once no record matches `f`, a bulk write leaves only records matching
      `f` that carry the update of one of its writes. */
  lemma {:induction false} UpsertAllFrom(docs: seq<Doc>, f: Filter, prior: seq<Upsert>, ws: seq<Upsert>)
    requires FromWrites(docs, f, prior)
    ensures FromWrites(UpsertAll(docs, ws), f, prior + ws)
    decreases |ws|
  {
    if ws == [] {
      assert prior + ws == prior;
    } else {
      UpsertKeepsFrom(docs, f, prior, ws[0]);
      UpsertAllFrom(UpsertOne(docs, ws[0]), f, prior + [ws[0]], ws[1..]);
      assert prior + [ws[0]] + ws[1..] == prior + ws;
    }
  }
}
