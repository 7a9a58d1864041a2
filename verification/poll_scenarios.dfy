/**
 * Polling tests of the consumer replayed against the model: the messages are produced to the
 * in-memory cluster, and each method states in its postcondition what the test expects of the
 * records it polls.
 */
module PollScenarios {
  import opened Types
  import opened Headers
  import opened Broker
  import opened Delivery
  import opened Consumer

  /** A message with the given key and value text, no headers. */
  function Plain(key: string, value: string): (m: Message)
    requires forall i :: 0 <= i < |key| ==> key[i] as int < 256
    requires forall i :: 0 <= i < |value| ==> value[i] as int < 256
    ensures m.key == StringBytes(key) && m.value == StringBytes(value) && m.headers == []
  {
    Message(0, StringBytes(key), StringBytes(value), [])
  }

  /** Appends `messages` to the log of `tp`, in order. */
  method ProduceMessages(cluster: Cluster, tp: TopicPartition, messages: seq<Message>)
    modifies cluster
    ensures cluster.Log(tp) == old(cluster.Log(tp)) + messages
    ensures forall other :: other != tp ==> cluster.Log(other) == old(cluster.Log(other))
    ensures cluster.logs.Keys == old(cluster.logs).Keys + (if messages == [] then {} else {tp})
    ensures cluster.committed == old(cluster.committed)
  {
    var i := 0;
    while i < |messages|
      invariant 0 <= i <= |messages|
      invariant cluster.Log(tp) == old(cluster.Log(tp)) + messages[..i]
      invariant forall other :: other != tp ==> cluster.Log(other) == old(cluster.Log(other))
      invariant cluster.logs.Keys == old(cluster.logs).Keys + (if i == 0 then {} else {tp})
      invariant cluster.committed == old(cluster.committed)
    {
      var _ := cluster.Produce(tp, messages[i]);
      assert messages[..i + 1] == messages[..i] + [messages[i]];
      i := i + 1;
    }
    assert messages[..i] == messages;
  }

  /**
   * A new consumer of `group` subscribes to the topic of `tp` and joins the group, which hands it
   * `tp`; it starts from the group's committed offset or else from where `reset` says.
   */
  method JoinGroup(cluster: Cluster, group: string, tp: TopicPartition, max: nat, reset: OffsetReset, autoCommit: bool)
    returns (c: KafkaConsumer)
    requires max >= 1
    modifies cluster
    ensures fresh(c) && c.cluster == cluster && c.Valid()
    ensures c.groupId == group && c.maxPollRecords == max && c.autoOffsetReset == reset && c.autoCommit == autoCommit
    ensures c.Subscription() == {tp.topic} && c.Assignment() == {tp} && c.paused == {}
    ensures cluster.logs == old(cluster.logs) && cluster.Committed(group) == old(cluster.Committed(group))
    ensures !autoCommit ==> cluster.committed == old(cluster.committed)
    ensures c.positions == map[tp := StartOffset(cluster.Committed(group), tp, cluster.Log(tp), reset)]
  {
    c := new KafkaConsumer(cluster, group, max, reset, autoCommit);
    var _ := c.Subscribe({tp.topic});
    c.Rebalance({tp});
    assert c.Assignment() == {tp};
  }

  /** The partitions `c` may fetch from. */
  function Fetchable(c: KafkaConsumer): set<TopicPartition>
    reads c
  {
    c.Assignment() - c.paused
  }

  /** `tp` is the only fetchable partition of `c` that may have records pending. */
  ghost predicate OnlyPending(c: KafkaConsumer, tp: TopicPartition)
    reads c, c.cluster
  {
    && c.Valid()
    && tp in Fetchable(c)
    && c.positions[tp] <= |c.cluster.Log(tp)|
    && forall other :: other in Fetchable(c) && other != tp ==> c.positions[other] >= |c.cluster.Log(other)|
  }

  /** Nothing is pending in any fetchable partition of `c`. */
  ghost predicate NonePending(c: KafkaConsumer)
    reads c, c.cluster
  {
    && c.Valid()
    && forall tp :: tp in Fetchable(c) ==> c.positions[tp] >= |c.cluster.Log(tp)|
  }

  /** One `poll()` when only `tp` has records pending: the next records of `tp`, up to `max.poll.records`. */
  method PollPending(c: KafkaConsumer, tp: TopicPartition) returns (records: seq<ConsumerRecord>)
    requires OnlyPending(c, tp)
    modifies c, c.cluster
    ensures c.ownership == old(c.ownership) && c.paused == old(c.paused) && c.cluster.logs == old(c.cluster.logs)
    ensures OnlyPending(c, tp)
    ensures var from := old(c.positions[tp]);
            var to := if from + c.maxPollRecords <= |c.cluster.Log(tp)| then from + c.maxPollRecords else |c.cluster.Log(tp)|;
            c.positions == old(c.positions)[tp := to] && records == Fetched(tp, c.cluster.Log(tp), from, to)
    ensures c.cluster.committed == old(c.AfterAutoCommit())
  {
    var before := c.positions;
    ghost var fetchable := Fetchable(c);
    records := c.Poll();
    OnePendingPartitionPoll(records, before, c.positions, fetchable, c.cluster.logs, c.maxPollRecords, tp);
  }

  /** One `poll()` when nothing is pending: no records, and no position moves. */
  method PollIdle(c: KafkaConsumer) returns (records: seq<ConsumerRecord>)
    requires NonePending(c)
    modifies c, c.cluster
    ensures NonePending(c)
    ensures records == [] && c.positions == old(c.positions)
    ensures c.ownership == old(c.ownership) && c.paused == old(c.paused) && c.cluster.logs == old(c.cluster.logs)
    ensures c.cluster.committed == old(c.AfterAutoCommit())
  {
    var before := c.positions;
    ghost var fetchable := Fetchable(c);
    records := c.Poll();
    NothingPendingNothingDelivered(records, before, c.positions, fetchable, c.cluster.logs, c.maxPollRecords);
    forall tp | tp in before
      ensures c.positions[tp] == before[tp]
    {
      if tp in fetchable {
        assert |Fetched(tp, c.cluster.Log(tp), before[tp], c.positions[tp])| == 0;
      }
    }
  }

  /** Polls until `tp`, the only partition with records pending, is drained; these are all its remaining records. */
  method ConsumeAll(c: KafkaConsumer, tp: TopicPartition) returns (records: seq<ConsumerRecord>)
    requires OnlyPending(c, tp)
    modifies c, c.cluster
    ensures c.ownership == old(c.ownership) && c.paused == old(c.paused) && c.cluster.logs == old(c.cluster.logs)
    ensures OnlyPending(c, tp) && NonePending(c)
    ensures records == Fetched(tp, c.cluster.Log(tp), old(c.positions[tp]), |c.cluster.Log(tp)|)
    ensures c.positions == old(c.positions)[tp := |c.cluster.Log(tp)|]
    ensures !c.autoCommit ==> c.cluster.committed == old(c.cluster.committed)
  {
    var from := c.positions[tp];
    var log := c.cluster.Log(tp);
    records := [];
    while c.positions[tp] < |log|
      invariant OnlyPending(c, tp)
      invariant c.cluster.Log(tp) == log && from <= c.positions[tp]
      invariant records == Fetched(tp, log, from, c.positions[tp])
      invariant c.positions == old(c.positions)[tp := c.positions[tp]]
      invariant c.ownership == old(c.ownership) && c.paused == old(c.paused) && c.cluster.logs == old(c.cluster.logs)
      invariant !c.autoCommit ==> c.cluster.committed == old(c.cluster.committed)
      decreases |log| - c.positions[tp]
    {
      var mid := c.positions[tp];
      var more := PollPending(c, tp);
      FetchedConcat(tp, log, from, mid, c.positions[tp]);
      records := records + more;
    }
  }
}

module PauseScenarios {
  import opened Types
  import opened Headers
  import opened Broker
  import opened Delivery
  import opened Consumer
  import opened PollScenarios

  const Tp1 := TopicPartition("topic1", 0)
  const Tp2 := TopicPartition("topic2", 0)
  const Topic1Log := [Plain("", "msg1"), Plain("", "msg2"), Plain("", "msg3")]

  /** The consumer of the pause test: both partitions assigned, one record per poll, at the given positions. */
  ghost predicate PauseTestState(c: KafkaConsumer, p1: Offset, p2: Offset, paused: set<TopicPartition>, topic2Log: seq<Message>)
    reads c, c.cluster
  {
    && c.Valid() && c.maxPollRecords == 1
    && c.Assignment() == {Tp1, Tp2} && c.positions == map[Tp1 := p1, Tp2 := p2] && c.paused == paused
    && c.cluster.Log(Tp1) == Topic1Log && c.cluster.Log(Tp2) == topic2Log
  }

  /**
   * A new auto-commit consumer of "group", one record per poll, subscribed to both topics and handed
   * both partitions by the group, which has committed nothing.
   */
  method JoinBoth(cluster: Cluster, reset: OffsetReset) returns (c: KafkaConsumer)
    requires cluster.Committed("group") == map[]
    modifies cluster
    ensures fresh(c) && c.cluster == cluster && c.Valid()
    ensures c.groupId == "group" && c.maxPollRecords == 1 && c.autoOffsetReset == reset && c.autoCommit
    ensures c.ownership == OwnershipRules.Subscribed({"topic1", "topic2"}, {Tp1, Tp2}) && c.paused == {}
    ensures cluster.logs == old(cluster.logs) && cluster.Committed("group") == map[]
    ensures c.positions == map[Tp1 := StartOffset(map[], Tp1, cluster.Log(Tp1), reset),
                               Tp2 := StartOffset(map[], Tp2, cluster.Log(Tp2), reset)]
  {
    c := new KafkaConsumer(cluster, "group", 1, reset, true);
    var _ := c.Subscribe({"topic1", "topic2"});
    c.Rebalance({Tp1, Tp2});
    assert c.Assignment() == {Tp1, Tp2};
  }

  /** Produces msg1..msg3 to topic1, then subscribes an auto-commit consumer to both topics and lets it join. */
  method StartPauseTest() returns (c: KafkaConsumer)
    ensures fresh(c) && fresh(c.cluster)
    ensures PauseTestState(c, 0, 0, {}, [])
  {
    var cluster := new Cluster();
    assert cluster.Log(Tp1) == [] && cluster.Log(Tp2) == [];
    ProduceMessages(cluster, Tp1, Topic1Log);
    assert cluster.Log(Tp1) == Topic1Log;
    c := JoinBoth(cluster, Earliest);
  }

  /** One poll while topic1-0 is the only fetchable partition with a record pending: its next record. */
  method PollTopic1(c: KafkaConsumer, p1: Offset, p2: Offset, paused: set<TopicPartition>, topic2Log: seq<Message>)
    returns (records: seq<ConsumerRecord>)
    requires PauseTestState(c, p1, p2, paused, topic2Log)
    requires Tp1 !in paused && p1 < |Topic1Log| && (Tp2 in paused || p2 >= |topic2Log|)
    modifies c, c.cluster
    ensures PauseTestState(c, p1 + 1, p2, paused, topic2Log)
    ensures records == [RecordAt(Tp1, Topic1Log, p1)]
  {
    assert Fetchable(c) == {Tp1, Tp2} - paused;
    records := PollPending(c, Tp1);
  }

  /** One poll while topic2-0 is the only fetchable partition with a record pending: its next record. */
  method PollTopic2(c: KafkaConsumer, p1: Offset, p2: Offset, paused: set<TopicPartition>, topic2Log: seq<Message>)
    returns (records: seq<ConsumerRecord>)
    requires PauseTestState(c, p1, p2, paused, topic2Log)
    requires Tp2 !in paused && p2 < |topic2Log| && (Tp1 in paused || p1 >= |Topic1Log|)
    modifies c, c.cluster
    ensures PauseTestState(c, p1, p2 + 1, paused, topic2Log)
    ensures records == [RecordAt(Tp2, topic2Log, p2)]
  {
    assert Fetchable(c) == {Tp1, Tp2} - paused;
    records := PollPending(c, Tp2);
  }

  /** One poll while no fetchable partition has a record pending: nothing, and no position moves. */
  method PollNothing(c: KafkaConsumer, p1: Offset, p2: Offset, paused: set<TopicPartition>, topic2Log: seq<Message>)
    returns (records: seq<ConsumerRecord>)
    requires PauseTestState(c, p1, p2, paused, topic2Log)
    requires (Tp1 in paused || p1 >= |Topic1Log|) && (Tp2 in paused || p2 >= |topic2Log|)
    modifies c, c.cluster
    ensures PauseTestState(c, p1, p2, paused, topic2Log)
    ensures records == []
  {
    assert Fetchable(c) == {Tp1, Tp2} - paused;
    records := PollIdle(c);
  }

  /** Poll one record, pause everything and poll nothing, resume everything and poll the next record. */
  method PauseAllPhase(c: KafkaConsumer) returns (first: seq<ConsumerRecord>, whilePaused: seq<ConsumerRecord>, resumed: seq<ConsumerRecord>)
    requires PauseTestState(c, 0, 0, {}, [])
    modifies c, c.cluster
    ensures PauseTestState(c, 2, 0, {}, [])
    ensures |first| == 1 && first[0].value == StringBytes("msg1")
    ensures whilePaused == []
    ensures |resumed| == 1 && resumed[0].value == StringBytes("msg2")
  {
    first := PollTopic1(c, 0, 0, {}, []);
    c.PauseAll();
    whilePaused := PollNothing(c, 1, 0, {Tp1, Tp2}, []);
    c.ResumeAll();
    assert c.paused == {};
    resumed := PollTopic1(c, 1, 0, {}, []);
  }

  /** Pausing an unknown partition fails; with topic1 paused only topic2 delivers, including a message produced meanwhile. */
  method PausePartitionPhase(c: KafkaConsumer)
    returns (pauseUnknown: Result<()>, topic1Paused: seq<ConsumerRecord>, fromTopic2: seq<ConsumerRecord>,
             topic2Drained: seq<ConsumerRecord>)
    requires PauseTestState(c, 2, 0, {}, [])
    modifies c, c.cluster
    ensures PauseTestState(c, 2, 1, {Tp1}, [Plain("", "msg4")])
    ensures pauseUnknown == Err(ErrInvalidArg)
    ensures topic1Paused == []
    ensures |fromTopic2| == 1 && fromTopic2[0].value == StringBytes("msg4")
    ensures topic2Drained == []
  {
    pauseUnknown := c.Pause({TopicPartition("invalid_topic", 12345)});
    var _ := c.Pause({Tp1});
    topic1Paused := PollNothing(c, 2, 0, {Tp1}, []);
    var _ := c.cluster.Produce(Tp2, Plain("", "msg4"));
    assert c.cluster.Log(Tp2) == [Plain("", "msg4")];
    fromTopic2 := PollTopic2(c, 2, 0, {Tp1}, [Plain("", "msg4")]);
    topic2Drained := PollNothing(c, 2, 1, {Tp1}, [Plain("", "msg4")]);
  }

  /** TEST(KafkaAutoCommitConsumer, PauseAndResume) */
  method PauseAndResume()
    returns (first: seq<ConsumerRecord>, whilePaused: seq<ConsumerRecord>, resumed: seq<ConsumerRecord>,
             pauseUnknown: Result<()>, topic1Paused: seq<ConsumerRecord>, fromTopic2: seq<ConsumerRecord>,
             topic2Drained: seq<ConsumerRecord>, topic1Resumed: seq<ConsumerRecord>)
    ensures |first| == 1 && first[0].value == StringBytes("msg1")
    ensures whilePaused == []
    ensures |resumed| == 1 && resumed[0].value == StringBytes("msg2")
    ensures pauseUnknown == Err(ErrInvalidArg)
    ensures topic1Paused == []
    ensures |fromTopic2| == 1 && fromTopic2[0].value == StringBytes("msg4")
    ensures topic2Drained == []
    ensures |topic1Resumed| == 1 && topic1Resumed[0].value == StringBytes("msg3")
  {
    var c := StartPauseTest();
    first, whilePaused, resumed := PauseAllPhase(c);
    pauseUnknown, topic1Paused, fromTopic2, topic2Drained := PausePartitionPhase(c);
    var _ := c.Resume({Tp1});
    assert c.paused == {};
    topic1Resumed := PollTopic1(c, 2, 1, {}, [Plain("", "msg4")]);
    c.Close();
  }

  /** A consumer of both topics, with topic1-0 paused, after the group handed it `tps` and then both partitions. */
  method RebalanceWhilePaused(c: KafkaConsumer, tps: set<TopicPartition>)
    requires c.Valid() && c.ownership == OwnershipRules.Subscribed({"topic1", "topic2"}, {Tp1, Tp2}) && c.paused == {Tp1}
    requires c.autoCommit && c.autoOffsetReset == Latest && c.cluster.logs == map[]
    requires c.positions == map[Tp1 := 0, Tp2 := 0]
    requires forall tp :: tp in c.cluster.Committed(c.groupId) ==> c.cluster.Committed(c.groupId)[tp] == 0
    modifies c, c.cluster
    ensures c.Valid() && c.Assignment() == {Tp1, Tp2} && c.paused == {Tp1} && c.cluster.logs == map[]
    ensures c.positions == map[Tp1 := 0, Tp2 := 0]
  {
    c.Rebalance(tps);
    c.Rebalance({Tp1, Tp2});
    assert c.Assignment() == {Tp1, Tp2};
  }

  /** Subscribes an auto-commit consumer to both (empty) topics, lets it join, pauses topic1-0 and polls. */
  method PauseBeforeRebalance() returns (c: KafkaConsumer, records: seq<ConsumerRecord>)
    ensures fresh(c) && fresh(c.cluster) && records == []
    ensures c.Valid() && c.ownership == OwnershipRules.Subscribed({"topic1", "topic2"}, {Tp1, Tp2}) && c.paused == {Tp1}
    ensures c.autoCommit && c.autoOffsetReset == Latest && c.maxPollRecords == 1 && c.cluster.logs == map[]
    ensures c.positions == map[Tp1 := 0, Tp2 := 0]
    ensures forall tp :: tp in c.cluster.Committed(c.groupId) ==> c.cluster.Committed(c.groupId)[tp] == 0
  {
    var cluster := new Cluster();
    c := JoinBoth(cluster, Latest);
    var _ := c.Pause({Tp1});
    records := PollIdle(c);
  }

  /**
   * TEST(KafkaAutoCommitConsumer, PauseStillWorksAfterRebalance): a partition paused before the group
   * rebalances (a second consumer joins, takes some partitions, and leaves) stays paused afterwards,
   * and delivers once resumed.
   */
  method PauseStillWorksAfterRebalance(secondConsumerTakes: set<TopicPartition>)
    returns (beforeRebalance: seq<ConsumerRecord>, whilePaused: seq<ConsumerRecord>, afterResume: seq<ConsumerRecord>)
    ensures beforeRebalance == [] && whilePaused == []
    ensures |afterResume| == 1 && afterResume[0].key == StringBytes("key1") && afterResume[0].value == StringBytes("value1")
  {
    var c;
    c, beforeRebalance := PauseBeforeRebalance();
    RebalanceWhilePaused(c, {Tp1, Tp2} - secondConsumerTakes);
    var _ := c.cluster.Produce(Tp1, Plain("key1", "value1"));
    whilePaused := PollIdle(c);
    c.ResumeAll();
    afterResume := ConsumeAll(c, Tp1);
  }
}
