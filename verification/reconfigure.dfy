/**
 * `reconfigure`: a Reconfigure term whose only content is its options
 * object. The options serialiser flattens `replicas` into a `replicas`
 * value and a separate `primary_replica_tag` key.
 */
module ReconfigureCmd {
  import opened Wrappers
  import opened Json
  import opened Reql

  /** `u8` and `usize`, as ranges. */
  type U8 = n: int | 0 <= n < 0x100
  type Usize = n: int | 0 <= n < 0x1_0000_0000_0000_0000

  /** Emergency repair mode, under the names RethinkDB's `reconfigure` command accepts. */
  datatype EmergencyRepair = UnsafeRollback | UnsafeRollbackOrErase

  function EmergencyRepairJson(e: EmergencyRepair): Json {
    match e
    case UnsafeRollback => JStr("unsafe_rollback")
    case UnsafeRollbackOrErase => JStr("unsafe_rollback_or_erase")
  }

  /** One entry of the server-tag map: replicas to put on servers with that tag. */
  datatype TagCount = TagCount(tag: string, count: Usize)

  /** `Replicas`: a count per shard, or counts per server tag plus the primary's tag. */
  datatype Replicas =
    | ReplicasInt(n: Usize)
    | ReplicasMap(replicas: seq<TagCount>, primaryReplicaTag: string)

  datatype ReconfigureOption = ReconfigureOption(
    shards: Option<U8>,
    replicas: Option<Replicas>,
    dryRun: Option<bool>,
    emergencyRepair: Option<EmergencyRepair>)

  /** The tag map as a JSON object (`InnerReplicas::Map`, untagged). */
  function TagCountsJson(tags: seq<TagCount>): (r: Json)
    ensures r.JObj? && |r.fields| == |tags|
    ensures forall i :: 0 <= i < |tags| ==> r.fields[i] == Field(tags[i].tag, JInt(tags[i].count))
  {
    JObj(seq(|tags|, i requires 0 <= i < |tags| => Field(tags[i].tag, JInt(tags[i].count))))
  }

  /**
   * The match on `replicas`: the `replicas` value and the
   * `primary_replica_tag` value, each absent or present.
   */
  function InnerReplicas(r: Option<Replicas>): (p: (Option<Json>, Option<Json>))
    ensures p.1.Some? <==> (r.Some? && r.value.ReplicasMap?)
    ensures p.0.Some? <==> r.Some?
  {
    match r
    case Some(ReplicasInt(i)) => (Some(JInt(i)), None)
    case Some(ReplicasMap(tags, primary)) => (Some(TagCountsJson(tags)), Some(JStr(primary)))
    case None => (None, None)
  }

  /** `InnerOptions`, fields in declaration order; every one skips `None`. */
  function Entries(o: ReconfigureOption): seq<Entry> {
    var (replicas, primaryReplicaTag) := InnerReplicas(o.replicas);
    [ Entry("dry_run", if o.dryRun.Some? then Some(JBool(o.dryRun.value)) else None),
      Entry("emergency_repair", if o.emergencyRepair.Some? then Some(EmergencyRepairJson(o.emergencyRepair.value)) else None),
      Entry("shards", if o.shards.Some? then Some(JInt(o.shards.value)) else None),
      Entry("replicas", replicas),
      Entry("primary_replica_tag", primaryReplicaTag) ]
  }

  /** `impl Serialize for ReconfigureOption`. */
  function OptionFields(o: ReconfigureOption): seq<Field> {
    SparseObject(Entries(o))
  }

  /** The serialised object, key by key. */
  lemma OptionFieldsKeys(o: ReconfigureOption)
    ensures Get(OptionFields(o), "dry_run") == if o.dryRun.Some? then Some(JBool(o.dryRun.value)) else None
    ensures Get(OptionFields(o), "emergency_repair") == if o.emergencyRepair.Some? then Some(EmergencyRepairJson(o.emergencyRepair.value)) else None
    ensures Get(OptionFields(o), "shards") == if o.shards.Some? then Some(JInt(o.shards.value)) else None
    ensures Get(OptionFields(o), "replicas") == InnerReplicas(o.replicas).0
    ensures Get(OptionFields(o), "primary_replica_tag") == InnerReplicas(o.replicas).1
  {
    var e := Entries(o);
    assert DistinctKeys(e) by {
      assert e[0].key == "dry_run" && e[1].key == "emergency_repair" && e[2].key == "shards";
      assert e[3].key == "replicas" && e[4].key == "primary_replica_tag";
    }
    SparseObjectGet(e, 0);
    SparseObjectGet(e, 1);
    SparseObjectGet(e, 2);
    SparseObjectGet(e, 3);
    SparseObjectGet(e, 4);
  }

  /**
   * The three shapes of `replicas`: an integer count is sent bare with no
   * primary tag; a tag map is sent as an object with the primary tag beside
   * it; no replicas sends neither key. So the primary tag is present
   * exactly when `replicas` is a map.
   */
  lemma ReplicasShapes(o: ReconfigureOption)
    ensures o.replicas.Some? && o.replicas.value.ReplicasInt? ==>
      && Get(OptionFields(o), "replicas") == Some(JInt(o.replicas.value.n))
      && Get(OptionFields(o), "primary_replica_tag") == None
    ensures o.replicas.Some? && o.replicas.value.ReplicasMap? ==>
      && Get(OptionFields(o), "replicas") == Some(TagCountsJson(o.replicas.value.replicas))
      && Get(OptionFields(o), "primary_replica_tag") == Some(JStr(o.replicas.value.primaryReplicaTag))
    ensures o.replicas.None? ==>
      && Get(OptionFields(o), "replicas") == None
      && Get(OptionFields(o), "primary_replica_tag") == None
    ensures Get(OptionFields(o), "primary_replica_tag").Some? <==> (o.replicas.Some? && o.replicas.value.ReplicasMap?)
  {
    OptionFieldsKeys(o);
  }

  /**
   * No range check on `shards`: every `u8`, including 0 and values above
   * the documented 64, is sent as given.
   */
  lemma ShardsUnchecked(o: ReconfigureOption, n: U8)
    ensures Get(OptionFields(o.(shards := Some(n))), "shards") == Some(JInt(n))
  {
    OptionFieldsKeys(o.(shards := Some(n)));
  }

  /** `new(opts)`: a Reconfigure term with no arguments and the options attached. */
  function New(opts: ReconfigureOption): (c: TermCmd)
    ensures c.typ == Reconfigure && c.args == []
    ensures c.opts.Some? && Get(c.opts.value, "primary_replica_tag").Some? <==> (opts.replicas.Some? && opts.replicas.value.ReplicasMap?)
    ensures c.opts == Some(OptionFields(opts))
  {
    ReplicasShapes(opts);
    WithOpts(Reql.New(Reconfigure), OptionFields(opts))
  }

  /** The test call: `shards(2).replicas(Int(1))` sends `{"shards": 2, "replicas": 1}`. */
  lemma TwoShardsOneReplica()
    ensures New(ReconfigureOption(Some(2), Some(ReplicasInt(1)), None, None)).opts
      == Some([Field("shards", JInt(2)), Field("replicas", JInt(1))])
  {
    var e := Entries(ReconfigureOption(Some(2), Some(ReplicasInt(1)), None, None));
    assert e == [Entry("dry_run", None), Entry("emergency_repair", None), Entry("shards", Some(JInt(2))),
                 Entry("replicas", Some(JInt(1))), Entry("primary_replica_tag", None)];
    assert SparseObject(e[4..]) == [];
    assert SparseObject(e[3..]) == [Field("replicas", JInt(1))] by { assert e[3..][1..] == e[4..]; }
    assert SparseObject(e[2..]) == [Field("shards", JInt(2)), Field("replicas", JInt(1))] by { assert e[2..][1..] == e[3..]; }
    assert SparseObject(e[1..]) == SparseObject(e[2..]) by { assert e[1..][1..] == e[2..]; }
  }
}
