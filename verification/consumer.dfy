/**
 * The consumer: who owns which partitions, which of them are paused, where it will read next in
 * each, and what it commits for its group. The cluster it reads from and commits to is shared with
 * other consumers of the same group.
 */
module Consumer {
  import opened Types
  import opened Broker
  import opened Delivery
  import opened OwnershipRules

  /** `auto.offset.reset`: where to start in a partition for which the group has committed nothing. */
  datatype OffsetReset = Earliest | Latest

  /** The position a partition starts from when it is assigned. */
  function StartOffset(committed: TopicPartitionOffsets, tp: TopicPartition, log: seq<Message>, reset: OffsetReset): (o: Offset)
    ensures tp in committed ==> o == committed[tp]
    ensures tp !in committed && reset == Earliest ==> o == 0
    ensures tp !in committed && reset == Latest ==> o == |log|
  {
    if tp in committed then committed[tp] else if reset == Earliest then 0 else |log|
  }

  /** The single-entry commit of a record: its partition maps to the offset after it. */
  function RecordCommit(record: ConsumerRecord): (tpos: TopicPartitionOffsets)
    ensures |tpos| == 1 && record.tp in tpos && tpos[record.tp] == record.offset + 1
  {
    map[record.tp := record.offset + 1]
  }

  /** Committing the last record a poll delivered from a partition commits that partition's new position. */
  lemma CommitLastRecordIsPosition(records: seq<ConsumerRecord>, before: map<TopicPartition, Offset>,
                                   after: map<TopicPartition, Offset>, fetchable: set<TopicPartition>,
                                   logs: Logs, max: nat, tp: TopicPartition)
    requires PollOutcome(records, before, after, fetchable, logs, max)
    requires tp in fetchable && OfPartition(records, tp) != []
    ensures var own := OfPartition(records, tp); RecordCommit(own[|own| - 1]) == map[tp := after[tp]]
  {
    PositionFollowsLastRecord(records, before, after, fetchable, logs, max, tp);
  }

  /**
   * A partition assigned at its start offset resumes where the group left it: the first record a
   * poll delivers from it is the committed offset, or offset 0 under `earliest` when nothing was
   * committed; under `latest` with nothing committed it delivers none of the records already there.
   */
  lemma ResumeFromCommitted(records: seq<ConsumerRecord>, before: map<TopicPartition, Offset>,
                            after: map<TopicPartition, Offset>, fetchable: set<TopicPartition>,
                            logs: Logs, max: nat, committed: TopicPartitionOffsets, tp: TopicPartition,
                            reset: OffsetReset)
    requires PollOutcome(records, before, after, fetchable, logs, max)
    requires tp in fetchable && before[tp] == StartOffset(committed, tp, LogOf(logs, tp), reset)
    requires OfPartition(records, tp) != []
    ensures tp in committed ==> OfPartition(records, tp)[0].offset == committed[tp]
    ensures tp !in committed ==> reset == Earliest && OfPartition(records, tp)[0].offset == 0
  {
    PositionFollowsLastRecord(records, before, after, fetchable, logs, max, tp);
  }

  class KafkaConsumer {
    const cluster: Cluster
    const groupId: string
    /** `max.poll.records` */
    const maxPollRecords: nat
    const autoOffsetReset: OffsetReset
    /** `enable.auto.commit`: positions are committed before each poll and when partitions are released. */
    const autoCommit: bool
    var ownership: Ownership
    /** The partitions the application paused; a paused partition delivers nothing while it is assigned. */
    var paused: set<TopicPartition>
    /** The offset of the next record to deliver, for every assigned partition. */
    var positions: map<TopicPartition, Offset>

    ghost predicate Valid()
      reads this
    {
      && maxPollRecords >= 1
      && WellFormed(ownership)
      && positions.Keys == Assignment()
    }

    constructor (cluster: Cluster, groupId: string, maxPollRecords: nat, autoOffsetReset: OffsetReset, autoCommit: bool)
      requires maxPollRecords >= 1
      ensures Valid()
      ensures this.cluster == cluster && this.groupId == groupId && this.maxPollRecords == maxPollRecords
      ensures this.autoOffsetReset == autoOffsetReset && this.autoCommit == autoCommit
      ensures ownership == Unowned && paused == {} && positions == map[]
    {
      this.cluster := cluster;
      this.groupId := groupId;
      this.maxPollRecords := maxPollRecords;
      this.autoOffsetReset := autoOffsetReset;
      this.autoCommit := autoCommit;
      ownership := Unowned;
      paused := {};
      positions := map[];
    }

    /** `subscription()` */
    function Subscription(): (r: set<Topic>)
      reads this
      ensures WellFormed(ownership) ==> (r == {} <==> !ownership.Subscribed?)
    {
      OwnershipRules.Subscription(ownership)
    }

    /** `assignment()` */
    function Assignment(): (r: set<TopicPartition>)
      reads this
      ensures WellFormed(ownership) && ownership.Subscribed? ==> forall tp :: tp in r ==> tp.topic in ownership.topics
      ensures WellFormed(ownership) && ownership.Assigned? ==> r != {}
    {
      OwnershipRules.Assignment(ownership)
    }

    /** `position(tp)`: the offset of the next record to deliver; none for a partition not assigned. */
    function Position(tp: TopicPartition): (r: Option<Offset>)
      reads this
      ensures Valid() ==> (r.Some? <==> tp in Assignment())
    {
      if tp in positions then Some(positions[tp]) else None
    }

    /** `committed(tp)`: what the group last committed for `tp`, if anything. */
    function Committed(tp: TopicPartition): Option<Offset>
      reads this, cluster
    {
      var c := cluster.Committed(groupId);
      if tp in c then Some(c[tp]) else None
    }

    /** `offsetsForTime(tps, ts)`, answered from the cluster's logs. */
    function OffsetsForTime(tps: set<TopicPartition>, ts: Timestamp): (r: Result<TopicPartitionOffsets>)
      reads this, cluster
      ensures r.Ok? ==> forall tp :: tp in r.value ==> tp in tps && r.value[tp] <= |cluster.Log(tp)|
    {
      Broker.OffsetsForTime(cluster.logs, tps, ts)
    }

    /** Where each of `tps` starts when it is assigned now. */
    function StartPositions(tps: set<TopicPartition>): map<TopicPartition, Offset>
      reads this, cluster
    {
      map tp | tp in tps :: StartOffset(cluster.Committed(groupId), tp, cluster.Log(tp), autoOffsetReset)
    }

    /** The committed offsets of the group once the positions are auto-committed (if enabled). */
    function AfterAutoCommit(): map<string, TopicPartitionOffsets>
      reads this, cluster
    {
      if autoCommit then cluster.committed[groupId := cluster.Committed(groupId) + positions] else cluster.committed
    }

    method AutoCommit()
      modifies cluster
      ensures cluster.committed == old(AfterAutoCommit())
      ensures cluster.logs == old(cluster.logs)
    {
      if autoCommit {
        cluster.Commit(groupId, positions);
      }
    }

    /** `subscribe(topics)`; the partitions arrive with the next rebalance. */
    method Subscribe(topics: set<Topic>) returns (r: Result<()>)
      requires Valid()
      modifies this, cluster
      ensures Valid()
      ensures var next := OwnershipRules.Subscribe(old(ownership), topics);
              && (next.Err? ==> r == Err(next.error) && ownership == old(ownership) && positions == old(positions)
                                && cluster.committed == old(cluster.committed))
              && (next.Ok? ==> r == Ok(()) && ownership == next.value && positions == map[]
                               && cluster.committed == old(AfterAutoCommit()))
      ensures paused == old(paused) && cluster.logs == old(cluster.logs)
    {
      var next := OwnershipRules.Subscribe(ownership, topics);
      if next.Err? {
        return Err(next.error);
      }
      AutoCommit();
      ownership := next.value;
      positions := map[];
      r := Ok(());
    }

    /** `unsubscribe()` */
    method Unsubscribe()
      requires Valid()
      modifies this, cluster
      ensures Valid()
      ensures ownership == OwnershipRules.Unsubscribe(old(ownership))
      ensures old(ownership).Subscribed? ==> positions == map[] && cluster.committed == old(AfterAutoCommit())
      ensures !old(ownership).Subscribed? ==> positions == old(positions) && cluster.committed == old(cluster.committed)
      ensures paused == old(paused) && cluster.logs == old(cluster.logs)
    {
      if ownership.Subscribed? {
        AutoCommit();
        ownership := Unowned;
        positions := map[];
      }
    }

    /** `assign(tps)`: each partition starts from the group's committed offset or the reset policy. */
    method Assign(tps: set<TopicPartition>) returns (r: Result<()>)
      requires Valid()
      modifies this, cluster
      ensures Valid()
      ensures var next := OwnershipRules.Assign(old(ownership), tps);
              && (next.Err? ==> r == Err(next.error) && ownership == old(ownership) && positions == old(positions)
                                && cluster.committed == old(cluster.committed))
              && (next.Ok? ==> r == Ok(()) && ownership == next.value && cluster.committed == old(AfterAutoCommit())
                               && positions == StartPositions(tps))
      ensures paused == old(paused) && cluster.logs == old(cluster.logs)
    {
      var next := OwnershipRules.Assign(ownership, tps);
      if next.Err? {
        return Err(next.error);
      }
      AutoCommit();
      ownership := next.value;
      positions := StartPositions(tps);
      r := Ok(());
    }

    /**
     * The group hands this subscribed consumer a new set of partitions. The old partitions are
     * released first (auto-committed if enabled); every new one starts afresh from the committed
     * offset or the reset policy. Paused partitions stay paused.
     */
    method Rebalance(tps: set<TopicPartition>)
      requires Valid() && ownership.Subscribed?
      modifies this, cluster
      ensures Valid()
      ensures ownership == OwnershipRules.Rebalance(old(ownership), tps)
      ensures cluster.committed == old(AfterAutoCommit())
      ensures positions == StartPositions(Assignment())
      ensures paused == old(paused) && cluster.logs == old(cluster.logs)
    {
      AutoCommit();
      ownership := OwnershipRules.Rebalance(ownership, tps);
      positions := StartPositions(Assignment());
    }

    /** `pause()`: every assigned partition. */
    method PauseAll()
      requires Valid()
      modifies this
      ensures Valid()
      ensures paused == old(paused) + Assignment()
      ensures ownership == old(ownership) && positions == old(positions)
    {
      paused := paused + Assignment();
    }

    /** `pause(tps)`: refused with invalid-argument unless every partition is assigned. */
    method Pause(tps: set<TopicPartition>) returns (r: Result<()>)
      requires Valid()
      modifies this
      ensures Valid()
      ensures r.Err? <==> !(tps <= Assignment())
      ensures r.Err? ==> r.error == ErrInvalidArg && paused == old(paused)
      ensures r.Ok? ==> paused == old(paused) + tps
      ensures ownership == old(ownership) && positions == old(positions)
    {
      if !(tps <= Assignment()) {
        return Err(ErrInvalidArg);
      }
      paused := paused + tps;
      r := Ok(());
    }

    /** `resume()`: every assigned partition. */
    method ResumeAll()
      requires Valid()
      modifies this
      ensures Valid()
      ensures paused == old(paused) - Assignment()
      ensures ownership == old(ownership) && positions == old(positions)
    {
      paused := paused - Assignment();
    }

    /** `resume(tps)`: refused with invalid-argument unless every partition is assigned. */
    method Resume(tps: set<TopicPartition>) returns (r: Result<()>)
      requires Valid()
      modifies this
      ensures Valid()
      ensures r.Err? <==> !(tps <= Assignment())
      ensures r.Err? ==> r.error == ErrInvalidArg && paused == old(paused)
      ensures r.Ok? ==> paused == old(paused) - tps
      ensures ownership == old(ownership) && positions == old(positions)
    {
      if !(tps <= Assignment()) {
        return Err(ErrInvalidArg);
      }
      paused := paused - tps;
      r := Ok(());
    }

    /** `seek(tp, o)`: refused with unknown-partition unless `tp` is assigned. */
    method Seek(tp: TopicPartition, o: Offset) returns (r: Result<()>)
      requires Valid()
      modifies this
      ensures Valid()
      ensures r.Err? <==> tp !in Assignment()
      ensures r.Err? ==> r.error == ErrUnknownPartition && positions == old(positions)
      ensures r.Ok? ==> positions == old(positions)[tp := o]
      ensures ownership == old(ownership) && paused == old(paused)
    {
      if tp !in positions {
        return Err(ErrUnknownPartition);
      }
      positions := positions[tp := o];
      r := Ok(());
    }

    /** `seekToBeginning()`: every assigned partition goes back to its first offset. */
    method SeekToBeginning()
      requires Valid()
      modifies this
      ensures Valid()
      ensures positions.Keys == old(positions).Keys && forall tp :: tp in positions ==> positions[tp] == 0
      ensures ownership == old(ownership) && paused == old(paused)
    {
      positions := map tp | tp in positions :: 0;
    }

    /** `seekToEnd()`: every assigned partition goes past its last record. */
    method SeekToEnd()
      requires Valid()
      modifies this
      ensures Valid()
      ensures positions.Keys == old(positions).Keys
      ensures forall tp :: tp in positions ==> positions[tp] == |cluster.Log(tp)|
      ensures ownership == old(ownership) && paused == old(paused)
    {
      positions := map tp | tp in positions :: |cluster.Log(tp)|;
    }

    /**
     * `poll()`: auto-commits the positions (if enabled), then takes the partitions that may be
     * fetched one by one and delivers from each of them as many records as are pending and fit.
     */
    method Poll() returns (records: seq<ConsumerRecord>)
      requires Valid()
      modifies this, cluster
      ensures Valid()
      ensures cluster.committed == old(AfterAutoCommit())
      ensures PollOutcome(records, old(positions), positions, old(Assignment() - paused), cluster.logs, maxPollRecords)
      ensures ownership == old(ownership) && paused == old(paused) && cluster.logs == old(cluster.logs)
    {
      AutoCommit();
      var fetchable := Assignment() - paused;
      var todo := fetchable;
      ghost var before := positions;
      records := [];
      PollProgressStart(before, fetchable, cluster.logs, maxPollRecords);
      while todo != {} && |records| < maxPollRecords
        invariant PollProgress(records, before, positions, fetchable, todo, cluster.logs, maxPollRecords)
        invariant Valid() && ownership == old(ownership) && paused == old(paused)
        invariant cluster.committed == old(AfterAutoCommit()) && cluster.logs == old(cluster.logs)
        decreases todo
      {
        var tp :| tp in todo;
        var log := cluster.Log(tp);
        var to := ChunkEnd(positions[tp], |log|, maxPollRecords - |records|);
        PollProgressStep(records, before, positions, fetchable, todo, cluster.logs, maxPollRecords, tp);
        records := records + Fetched(tp, log, positions[tp], to);
        positions := positions[tp := to];
        todo := todo - {tp};
      }
      PollProgressDone(records, before, positions, fetchable, todo, cluster.logs, maxPollRecords);
    }

    /** `commitSync(record)` / `commitAsync(record)`: commits the offset after the record. */
    method CommitRecord(record: ConsumerRecord) returns (tpos: TopicPartitionOffsets)
      modifies cluster
      ensures tpos == RecordCommit(record)
      ensures cluster.committed == old(cluster.committed)[groupId := old(cluster.Committed(groupId)) + tpos]
      ensures Committed(record.tp) == Some(record.offset + 1)
      ensures forall tp :: tp != record.tp ==> Committed(tp) == old(Committed(tp))
      ensures cluster.logs == old(cluster.logs)
    {
      tpos := RecordCommit(record);
      cluster.Commit(groupId, tpos);
    }

    /** `commitSync(tpos)` / `commitAsync(tpos)` */
    method CommitOffsets(tpos: TopicPartitionOffsets)
      modifies cluster
      ensures cluster.committed == old(cluster.committed)[groupId := old(cluster.Committed(groupId)) + tpos]
      ensures forall tp :: tp in tpos ==> Committed(tp) == Some(tpos[tp])
      ensures forall tp :: tp !in tpos ==> Committed(tp) == old(Committed(tp))
      ensures cluster.logs == old(cluster.logs)
    {
      cluster.Commit(groupId, tpos);
    }

    /** `commitSync()` / `commitAsync()`: commits the position of every assigned partition. */
    method CommitAll()
      modifies cluster
      ensures cluster.committed == old(cluster.committed)[groupId := old(cluster.Committed(groupId)) + old(positions)]
      ensures forall tp :: tp in positions ==> Committed(tp) == Position(tp)
      ensures forall tp :: tp !in positions ==> Committed(tp) == old(Committed(tp))
      ensures cluster.logs == old(cluster.logs)
    {
      cluster.Commit(groupId, positions);
    }

    /** `close()`: releases every partition, auto-committing the positions first if enabled. */
    method Close()
      requires Valid()
      modifies this, cluster
      ensures Valid()
      ensures cluster.committed == old(AfterAutoCommit()) && cluster.logs == old(cluster.logs)
      ensures ownership == Unowned && positions == map[] && paused == {}
    {
      AutoCommit();
      ownership := Unowned;
      positions := map[];
      paused := {};
    }
  }
}
