/**
 * Fetching tests of the consumer replayed against the model: polling a single partition from an
 * empty start, seeking, headers carried through a poll, and offsets looked up by timestamp.
 */
module FetchScenarios {
  import opened Types
  import opened Headers
  import opened Broker
  import opened Delivery
  import opened Consumer
  import opened PollScenarios

  const Tp := TopicPartition("topic", 0)
  const Group := "group"
  const ThreeMessages := [Plain("key1", "value1"), Plain("key2", "value2"), Plain("key3", "value3")]

  /** An auto-commit consumer joins before anything is produced, so it starts at offset 0 whatever its reset policy. */
  method JoinEmptyTopic(max: nat, reset: OffsetReset) returns (c: KafkaConsumer)
    requires max >= 1
    ensures fresh(c) && fresh(c.cluster) && OnlyPending(c, Tp)
    ensures c.positions == map[Tp := 0] && c.cluster.Log(Tp) == [] && c.maxPollRecords == max
  {
    var cluster := new Cluster();
    c := JoinGroup(cluster, Group, Tp, max, reset, true);
  }

  /**
   * A consumer joins before anything is produced and polls nothing; `messages` are then produced,
   * and polling until the end delivers them all, in order.
   */
  method ProduceAfterJoin(max: nat, reset: OffsetReset, messages: seq<Message>)
    returns (c: KafkaConsumer, before: seq<ConsumerRecord>, records: seq<ConsumerRecord>)
    requires max >= 1
    ensures fresh(c) && fresh(c.cluster) && OnlyPending(c, Tp) && NonePending(c)
    ensures c.positions == map[Tp := |messages|] && c.cluster.Log(Tp) == messages && c.maxPollRecords == max
    ensures before == [] && records == Fetched(Tp, messages, 0, |messages|)
  {
    c := JoinEmptyTopic(max, reset);
    before := ConsumeAll(c, Tp);
    ProduceMessages(c.cluster, Tp, messages);
    records := ConsumeAll(c, Tp);
  }

  /** Records fetched from the start to the end of a log carry its messages' fields, in order. */
  lemma FetchedFields(tp: TopicPartition, log: seq<Message>, records: seq<ConsumerRecord>)
    requires records == Fetched(tp, log, 0, |log|)
    ensures |records| == |log|
    ensures forall i :: 0 <= i < |records| ==>
              && records[i].tp == tp && records[i].offset == i && records[i].headers == log[i].headers
              && records[i].key == log[i].key && records[i].value == log[i].value
  {
  }

  /** TEST(KafkaAutoCommitConsumer, BasicPoll): nothing before the messages are produced, then all of them in order. */
  method BasicPoll() returns (before: seq<ConsumerRecord>, records: seq<ConsumerRecord>)
    ensures before == []
    ensures |records| == 3 && records == Fetched(Tp, ThreeMessages, 0, 3)
    ensures forall i :: 0 <= i < |records| ==>
              && records[i].tp == Tp && records[i].headers == []
              && records[i].key == ThreeMessages[i].key && records[i].value == ThreeMessages[i].value
  {
    var c;
    c, before, records := ProduceAfterJoin(500, Latest, ThreeMessages);
    FetchedFields(Tp, ThreeMessages, records);
    c.Close();
  }

  const HeaderMessages := [Message(0, StringBytes("key1"), StringBytes("value1"), DuplicateKeyHeaders),
                           Plain("key2", "value2"), Plain("key3", "value3")]

  /**
   * TEST(KafkaAutoCommitConsumer, PollWithHeaders): records carry the headers of their messages in
   * order, and the lookups on the first record's headers find the last "k1" and no "nonexist".
   */
  method PollWithHeaders() returns (before: seq<ConsumerRecord>, records: seq<ConsumerRecord>, k1: HeaderValue, nonexist: HeaderValue)
    ensures before == [] && |records| == 3
    ensures forall i :: 0 <= i < |records| ==>
              && records[i].key == HeaderMessages[i].key && records[i].value == HeaderMessages[i].value
              && records[i].headers == HeaderMessages[i].headers
    ensures ValueSize(k1) == 4 && k1.Some? && Int32Value(k1.value) == 134
    ensures nonexist.None? && ValueSize(nonexist) == 0
  {
    var c;
    c, before, records := ProduceAfterJoin(500, Latest, HeaderMessages);
    FetchedFields(Tp, HeaderMessages, records);
    assert records[0].headers == DuplicateKeyHeaders;
    k1, nonexist := DuplicateKeyLookup();
    c.Close();
  }

  /** The first part of the seek test: nothing at first, the three messages once produced, then nothing more. */
  method ConsumeThree() returns (c: KafkaConsumer, before: seq<ConsumerRecord>, first: seq<ConsumerRecord>, again: seq<ConsumerRecord>)
    ensures fresh(c) && fresh(c.cluster) && OnlyPending(c, Tp)
    ensures c.positions == map[Tp := 3] && c.cluster.Log(Tp) == ThreeMessages
    ensures before == [] && first == Fetched(Tp, ThreeMessages, 0, 3) && again == []
  {
    c, before, first := ProduceAfterJoin(1, Earliest, ThreeMessages);
    again := ConsumeAll(c, Tp);
  }

  /**
   * TEST(KafkaAutoCommitConsumer, SeekAndPoll): after the end is reached, seeking to the end
   * delivers nothing, and seeking to the beginning delivers every message again.
   */
  method SeekAndPoll()
    returns (before: seq<ConsumerRecord>, first: seq<ConsumerRecord>, again: seq<ConsumerRecord>,
             afterEnd: seq<ConsumerRecord>, fromStart: seq<ConsumerRecord>)
    ensures before == [] && again == [] && afterEnd == []
    ensures |first| == 3 && first == Fetched(Tp, ThreeMessages, 0, 3)
    ensures fromStart == first
  {
    var c;
    c, before, first, again := ConsumeThree();
    c.SeekToEnd();
    afterEnd := ConsumeAll(c, Tp);
    c.SeekToBeginning();
    fromStart := ConsumeAll(c, Tp);
    c.Close();
  }

  /** A message with no key, value or headers, stamped `ts`. */
  function Stamped(ts: Timestamp): (m: Message)
    ensures m.timestamp == ts
  {
    Message(ts, [], [], [])
  }

  /** Five messages produced 10 time units apart, the first at `skew`. */
  function TimedLog(skew: int): (log: seq<Message>)
    ensures |log| == 5 && forall j :: 0 <= j < 5 ==> log[j].timestamp == 10 * j + skew
  {
    seq(5, j requires 0 <= j < 5 => Stamped(10 * j + skew))
  }

  /**
   * In a log whose message `j` is stamped `10 * j + skew`, a timestamp after message `i - 1` and
   * no later than message `i` is answered with offset `i`.
   */
  lemma EvenlyStampedAnswer(log: seq<Message>, skew: int, ts: Timestamp, i: nat)
    requires forall j :: 0 <= j < |log| ==> log[j].timestamp == 10 * j + skew
    requires i <= |log| && 10 * (i - 1) + skew < ts && (i < |log| ==> ts <= 10 * i + skew)
    ensures EarliestAtOrAfter(log, ts) == i
  {
    var o := EarliestAtOrAfter(log, ts);
    assert o < |log| ==> log[o].timestamp == 10 * o + skew;
    assert i < |log| ==> log[i].timestamp == 10 * i + skew;
  }

  const Tp1 := TopicPartition("topic1", 0)
  const Tp2 := TopicPartition("topic2", 1)

  /**
   * TEST(KafkaManualCommitConsumer, OffsetsForTime): message `i` of each partition is produced after
   * checkpoint `i` (at `10 * i`), so each checkpoint is answered with offset `i` in both partitions,
   * with or without a subscription; a request of only unknown partitions fails, and an unknown
   * partition added to a valid request is left out of the answer.
   */
  method OffsetsForTimeAtCheckpoint(i: nat)
    returns (subscribed: Result<TopicPartitionOffsets>, unsubscribed: Result<TopicPartitionOffsets>,
             allUnknown: Result<TopicPartitionOffsets>, partial: Result<TopicPartitionOffsets>)
    requires i < 5
    ensures subscribed == Ok(map[Tp1 := i, Tp2 := i])
    ensures unsubscribed == subscribed && partial == subscribed
    ensures allUnknown == Err(ErrUnknownPartition)
  {
    var cluster := TimedCluster();
    var logs := cluster.logs;
    CheckpointAnswers(logs, i);
    var c1 := new KafkaConsumer(cluster, Group, 500, Latest, false);
    var _ := c1.Subscribe({"topic1", "topic2"});
    subscribed := c1.OffsetsForTime({Tp1, Tp2}, 10 * i);
    var c2 := new KafkaConsumer(cluster, Group, 500, Latest, false);
    unsubscribed := c2.OffsetsForTime({Tp1, Tp2}, 10 * i);
    allUnknown := c2.OffsetsForTime({Unknown}, 10 * i);
    partial := c2.OffsetsForTime({Tp1, Tp2, Unknown}, 10 * i);
  }

  /** The cluster of the offsets-for-time test: five messages in each partition, the second partition's one unit later. */
  method TimedCluster() returns (cluster: Cluster)
    ensures fresh(cluster)
    ensures LogOf(cluster.logs, Tp1) == TimedLog(1) && LogOf(cluster.logs, Tp2) == TimedLog(2) && Unknown !in cluster.logs
  {
    cluster := new Cluster();
    ProduceMessages(cluster, Tp1, TimedLog(1));
    ProduceMessages(cluster, Tp2, TimedLog(2));
  }

  const Unknown := TopicPartition("unknown", 100)

  /** The answers of the offsets-for-time test at checkpoint `i`, from the logs alone. */
  lemma CheckpointAnswers(logs: Logs, i: nat)
    requires LogOf(logs, Tp1) == TimedLog(1) && LogOf(logs, Tp2) == TimedLog(2) && Unknown !in logs
    requires i < 5
    ensures OffsetsForTime(logs, {Tp1, Tp2}, 10 * i) == Ok(map[Tp1 := i, Tp2 := i])
    ensures OffsetsForTime(logs, {Tp1, Tp2, Unknown}, 10 * i) == Ok(map[Tp1 := i, Tp2 := i])
    ensures OffsetsForTime(logs, {Unknown}, 10 * i) == Err(ErrUnknownPartition)
  {
    CheckpointKnown(logs, i);
    assert Tp1 in {Tp1, Tp2} && Tp1 in logs;
    UnknownPartitionsDropped(logs, {Tp1, Tp2}, {Unknown}, 10 * i);
    assert {Tp1, Tp2} + {Unknown} == {Tp1, Tp2, Unknown};
  }

  /** Both partitions answer checkpoint `i` with offset `i`. */
  lemma CheckpointKnown(logs: Logs, i: nat)
    requires LogOf(logs, Tp1) == TimedLog(1) && LogOf(logs, Tp2) == TimedLog(2)
    requires i < 5
    ensures OffsetsForTime(logs, {Tp1, Tp2}, 10 * i) == Ok(map[Tp1 := i, Tp2 := i])
  {
    assert Tp1 in logs && Tp2 in logs;
    EvenlyStampedAnswer(logs[Tp1], 1, 10 * i, i);
    EvenlyStampedAnswer(logs[Tp2], 2, 10 * i, i);
    KnownPartitionsAnswered(logs, {Tp1, Tp2}, 10 * i, map[Tp1 := i, Tp2 := i]);
  }

  /** Five messages, one every 10 time units from 1 on. */
  const FiveMessages := [Message(1, StringBytes("key1"), StringBytes("value1"), []),
                         Message(11, StringBytes("key2"), StringBytes("value2"), []),
                         Message(21, StringBytes("key3"), StringBytes("value3"), []),
                         Message(31, StringBytes("key4"), StringBytes("value4"), []),
                         Message(41, StringBytes("key5"), StringBytes("value5"), [])]

  /** The first consumer reads every message but processes only three before it fails at the fourth, whose timestamp it keeps. */
  method FailingSession(cluster: Cluster) returns (processed: seq<ConsumerRecord>, persisted: Timestamp)
    requires cluster.Log(Tp) == FiveMessages && cluster.Committed(Group) == map[]
    modifies cluster
    ensures cluster.Log(Tp) == FiveMessages && cluster.Committed(Group) == map[]
    ensures processed == Fetched(Tp, FiveMessages, 0, 3) && persisted == FiveMessages[3].timestamp
  {
    var c := JoinGroup(cluster, Group, Tp, 500, Earliest, false);
    var records := ConsumeAll(c, Tp);
    persisted := records[3].timestamp;
    processed := records[..3];
    c.Close();
  }

  /** The kept timestamp is answered with the offset of the message the first consumer failed at. */
  lemma RecoveryAnswer(logs: Logs)
    requires LogOf(logs, Tp) == FiveMessages
    ensures OffsetsForTime(logs, {Tp}, FiveMessages[3].timestamp) == Ok(map[Tp := 3])
  {
    assert Tp in logs;
    EvenlyStampedAnswer(FiveMessages, 1, FiveMessages[3].timestamp, 3);
    KnownPartitionsAnswered(logs, {Tp}, FiveMessages[3].timestamp, map[Tp := 3]);
  }

  /** The next consumer of the group starts at the end, looks up the kept timestamp and seeks to the answer. */
  method CatchUpSession(cluster: Cluster, persisted: Timestamp) returns (none: seq<ConsumerRecord>, rest: seq<ConsumerRecord>)
    requires cluster.Log(Tp) == FiveMessages && cluster.Committed(Group) == map[] && persisted == FiveMessages[3].timestamp
    modifies cluster
    ensures none == [] && rest == Fetched(Tp, FiveMessages, 3, 5)
  {
    var c := JoinGroup(cluster, Group, Tp, 500, Latest, false);
    none := ConsumeAll(c, Tp);
    var offsets := c.OffsetsForTime(c.Assignment(), persisted);
    RecoveryAnswer(cluster.logs);
    var _ := c.Seek(Tp, offsets.value[Tp]);
    rest := ConsumeAll(c, Tp);
    c.Close();
  }

  /**
   * TEST(KafkaManualCommitConsumer, RecoverByTime): what the failing consumer processed, followed by
   * what its successor read after seeking by timestamp, is every message exactly once and in order.
   */
  method RecoverByTime() returns (none: seq<ConsumerRecord>, processed: seq<ConsumerRecord>)
    ensures none == []
    ensures |processed| == |FiveMessages| && processed == Fetched(Tp, FiveMessages, 0, 5)
  {
    var cluster := new Cluster();
    ProduceMessages(cluster, Tp, FiveMessages);
    var first, persisted := FailingSession(cluster);
    var rest;
    none, rest := CatchUpSession(cluster, persisted);
    FetchedConcat(Tp, FiveMessages, 0, 3, 5);
    processed := first + rest;
  }
}
