/**
 * The commit tests of the consumer replayed against the model: several consumers of one group
 * take turns on a partition holding four messages, and what each commits decides where the next
 * one starts.
 */
module CommitScenarios {
  import opened Types
  import opened Broker
  import opened Delivery
  import opened Consumer
  import opened PollScenarios

  const Tp := TopicPartition("topic", 0)
  const Group := "group"
  const FourMessages := [Plain("key1", "value1"), Plain("key2", "value2"), Plain("key3", "value3"), Plain("key4", "value4")]

  /** The partition holds `log` and the group has committed `committed`. */
  ghost predicate GroupProgress(cluster: Cluster, log: seq<Message>, committed: TopicPartitionOffsets)
    reads cluster
  {
    cluster.Log(Tp) == log && cluster.Committed(Group) == committed
  }

  method ProduceFour() returns (cluster: Cluster)
    ensures fresh(cluster) && GroupProgress(cluster, FourMessages, map[])
  {
    cluster := new Cluster();
    ProduceMessages(cluster, Tp, FourMessages);
  }

  /** The manual-commit consumer of the callback test has read and committed `polled` of the three messages in `log`. */
  ghost predicate CallbackTestState(c: KafkaConsumer, log: seq<Message>, polled: Offset)
    reads c, c.cluster
  {
    && OnlyPending(c, Tp) && c.groupId == Group && !c.autoCommit && c.maxPollRecords == 1
    && c.cluster.Log(Tp) == log && |log| == 3
    && polled <= 3 && c.positions == map[Tp := polled]
    && c.cluster.Committed(Group) == if polled == 0 then map[] else map[Tp := polled]
  }

  /** Three messages are produced, and a manual-commit consumer reading one record per poll joins the group. */
  method StartCallbackTest(log: seq<Message>) returns (c: KafkaConsumer)
    requires |log| == 3
    ensures fresh(c) && fresh(c.cluster) && CallbackTestState(c, log, 0)
  {
    var cluster := new Cluster();
    ProduceMessages(cluster, Tp, log);
    c := JoinGroup(cluster, Group, Tp, 1, Earliest, false);
  }

  /** One poll of one record, then `commitAsync(record)`. */
  method PollAndCommit(c: KafkaConsumer, log: seq<Message>, polled: Offset) returns (tpos: TopicPartitionOffsets)
    requires CallbackTestState(c, log, polled) && polled < 3
    modifies c, c.cluster
    ensures CallbackTestState(c, log, polled + 1)
    ensures tpos == map[Tp := polled + 1]
  {
    var records := PollPending(c, Tp);
    assert records == Fetched(Tp, log, polled, polled + 1);
    tpos := c.CommitRecord(records[0]);
  }

  /** TEST(KafkaManualCommitConsumer, OffsetCommitCallback): every commit of a polled record carries that record's offset + 1. */
  method OffsetCommitCallback() returns (payloads: seq<TopicPartitionOffsets>, committed: Option<Offset>)
    ensures payloads == [map[Tp := 1], map[Tp := 2], map[Tp := 3]]
    ensures committed == Some(3)
  {
    var log := FourMessages[..3];
    var c := StartCallbackTest(log);
    payloads := [];
    var polled := 0;
    while polled < 3
      invariant CallbackTestState(c, log, polled) && fresh(c) && fresh(c.cluster)
      invariant |payloads| == polled && forall j :: 0 <= j < polled ==> payloads[j] == map[Tp := j + 1]
      decreases 3 - polled
    {
      var tpos := PollAndCommit(c, log, polled);
      payloads := payloads + [tpos];
      polled := polled + 1;
    }
    assert payloads[0] == map[Tp := 1] && payloads[1] == map[Tp := 2] && payloads[2] == map[Tp := 3];
    committed := c.Committed(Tp);
    c.Close();
  }

  /** The first consumer of the group seeks to the beginning once it is assigned, reads all four and commits the first. */
  method FirstManualSession(cluster: Cluster, log: seq<Message>) returns (records: seq<ConsumerRecord>)
    requires |log| == 4 && GroupProgress(cluster, log, map[])
    modifies cluster
    ensures records == Fetched(Tp, log, 0, 4)
    ensures GroupProgress(cluster, log, map[Tp := 1])
  {
    var c := JoinAtBeginning(cluster, log);
    records := ConsumeAll(c, Tp);
    assert records[0].tp == Tp && records[0].offset == 0;
    var _ := c.CommitRecord(records[0]);
    c.Close();
  }

  /** A manual-commit consumer joins the group and seeks to the beginning of the partition. */
  method JoinAtBeginning(cluster: Cluster, log: seq<Message>) returns (c: KafkaConsumer)
    requires GroupProgress(cluster, log, map[])
    modifies cluster
    ensures fresh(c) && c.cluster == cluster && OnlyPending(c, Tp) && c.groupId == Group && !c.autoCommit
    ensures c.positions == map[Tp := 0] && GroupProgress(cluster, log, map[])
  {
    c := JoinGroup(cluster, Group, Tp, 1, Latest, false);
    c.SeekToBeginning();
  }

  /** How a later consumer commits after reading its records. */
  datatype CommitStep =
    | CommitFirstRecord      // `commitSync(record)` of the first record read
    | CommitFirstOffset      // `commitSync(tpos)` with the first record's offset + 1
    | CommitPositions        // `commitSync()`
    | NoCommit

  /**
   * What the group has committed after a consumer that started at `start` read everything up to
   * `end` and committed as `step` says: a commit never moves the group back or past the end, and
   * every commit of something read moves it forward.
   */
  function CommittedAfter(step: CommitStep, start: Offset, end: Offset): (r: Offset)
    requires start <= end
    requires step == CommitFirstRecord || step == CommitFirstOffset ==> start < end
    ensures start <= r <= end
    ensures step != NoCommit && start < end ==> start < r
  {
    match step
    case NoCommit => start
    case CommitPositions => end
    case _ => start + 1
  }

  /** Commits as `step` says, after reading the records from `start` to the end. */
  method CommitAfterReading(c: KafkaConsumer, log: seq<Message>, records: seq<ConsumerRecord>, start: Offset, step: CommitStep)
    requires c.groupId == Group && |log| == 4 && GroupProgress(c.cluster, log, map[Tp := start]) && start <= 4
    requires step == CommitFirstRecord || step == CommitFirstOffset ==> start < 4
    requires records == Fetched(Tp, log, start, 4) && c.positions == map[Tp := 4]
    modifies c.cluster
    ensures GroupProgress(c.cluster, log, map[Tp := CommittedAfter(step, start, 4)])
  {
    match step {
      case CommitFirstRecord =>
        var _ := c.CommitRecord(records[0]);
      case CommitFirstOffset =>
        c.CommitOffsets(map[Tp := records[0].offset + 1]);
      case CommitPositions =>
        c.CommitAll();
      case NoCommit =>
    }
  }

  /** A later consumer of the group starts at the committed offset and reads what is left, then commits as `step` says. */
  method ManualSession(cluster: Cluster, log: seq<Message>, start: Offset, step: CommitStep) returns (records: seq<ConsumerRecord>)
    requires |log| == 4 && GroupProgress(cluster, log, map[Tp := start]) && start <= 4
    requires step == CommitFirstRecord || step == CommitFirstOffset ==> start < 4
    modifies cluster
    ensures records == Fetched(Tp, log, start, 4)
    ensures GroupProgress(cluster, log, map[Tp := CommittedAfter(step, start, 4)])
  {
    var c := JoinGroup(cluster, Group, Tp, 1, Latest, false);
    records := ConsumeAll(c, Tp);
    CommitAfterReading(c, log, records, start, step);
    c.Close();
  }

  /**
   * TEST(KafkaManualCommitConsumer, OffsetCommitAndPosition): each consumer of the group receives the
   * messages from the one after the last committed on, and after `commitSync()` nothing is left.
   */
  method ManualCommitSessions()
    returns (first: seq<ConsumerRecord>, second: seq<ConsumerRecord>, third: seq<ConsumerRecord>,
             fourth: seq<ConsumerRecord>, fifth: seq<ConsumerRecord>)
    ensures first == Fetched(Tp, FourMessages, 0, 4) && |first| == 4
    ensures second == Fetched(Tp, FourMessages, 1, 4) && |second| == 3
    ensures third == Fetched(Tp, FourMessages, 2, 4) && |third| == 2
    ensures fourth == Fetched(Tp, FourMessages, 3, 4) && |fourth| == 1
    ensures fifth == []
  {
    var cluster := ProduceFour();
    var log := FourMessages;
    first := FirstManualSession(cluster, log);
    second := ManualSession(cluster, log, 1, CommitFirstRecord);
    third := ManualSession(cluster, log, 2, CommitFirstOffset);
    fourth := ManualSession(cluster, log, 3, CommitPositions);
    fifth := ManualSession(cluster, log, 4, NoCommit);
  }

  /**
   * The first auto-commit consumer reads two records one poll at a time: its position follows each
   * record, the second poll commits the position the first left, and closing commits the rest.
   */
  method AutoCommitFirstSession(cluster: Cluster, log: seq<Message>)
    returns (r1: seq<ConsumerRecord>, pos1: Option<Offset>, r2: seq<ConsumerRecord>, pos2: Option<Offset>,
             committed2: Option<Offset>)
    requires |log| == 4 && GroupProgress(cluster, log, map[])
    modifies cluster
    ensures |r1| == 1 && |r2| == 1 && r1[0].offset == 0 && r2[0].offset == 1
    ensures pos1 == Some(r1[0].offset + 1) && pos2 == Some(r2[0].offset + 1)
    ensures committed2 == Some(r1[0].offset + 1)
    ensures GroupProgress(cluster, log, map[Tp := 2])
  {
    var c := JoinGroup(cluster, Group, Tp, 1, Latest, true);
    c.SeekToBeginning();
    r1, pos1 := AutoCommitPoll(c, log, 0);
    r2, pos2 := AutoCommitPoll(c, log, 1);
    committed2 := c.Committed(Tp);
    c.Close();
  }

  /** The auto-commit consumer reading one record per poll stands at offset `k` of `log`. */
  ghost predicate AutoCommitState(c: KafkaConsumer, log: seq<Message>, k: Offset)
    reads c, c.cluster
  {
    && OnlyPending(c, Tp) && c.groupId == Group && c.autoCommit && c.maxPollRecords == 1
    && c.cluster.Log(Tp) == log && k <= |log| && c.positions == map[Tp := k]
  }

  /** One poll, which first commits the position `k`, delivers record `k`; then `position()`. */
  method AutoCommitPoll(c: KafkaConsumer, log: seq<Message>, k: Offset) returns (records: seq<ConsumerRecord>, pos: Option<Offset>)
    requires AutoCommitState(c, log, k) && k < |log|
    modifies c, c.cluster
    ensures AutoCommitState(c, log, k + 1)
    ensures |records| == 1 && records[0].offset == k && pos == Some(k + 1)
    ensures c.cluster.Committed(Group) == old(c.cluster.Committed(Group))[Tp := k]
  {
    records := PollPending(c, Tp);
    pos := c.Position(Tp);
  }

  /**
   * TEST(KafkaAutoCommitConsumer, OffsetCommitAndPosition): the next consumer of the group receives
   * exactly the records the first did not.
   */
  method AutoCommitSessions()
    returns (r1: seq<ConsumerRecord>, pos1: Option<Offset>, r2: seq<ConsumerRecord>, pos2: Option<Offset>,
             committed2: Option<Offset>, rest: seq<ConsumerRecord>)
    ensures |r1| == 1 && |r2| == 1
    ensures pos1 == Some(r1[0].offset + 1) && pos2 == Some(r2[0].offset + 1)
    ensures committed2 == Some(r1[0].offset + 1)
    ensures |FourMessages| == 2 + |rest| && rest == Fetched(Tp, FourMessages, 2, 4)
  {
    var cluster := ProduceFour();
    var log := FourMessages;
    r1, pos1, r2, pos2, committed2 := AutoCommitFirstSession(cluster, log);
    var c := JoinGroup(cluster, Group, Tp, 1, Latest, true);
    rest := ConsumeAll(c, Tp);
  }
}
