# modern-cpp-kafka: broker metadata and consumer contract in Dafny

This project models two parts of the modern-cpp-kafka client library as its unit and integration
tests pin them down.

1. **The broker-metadata snapshot.**
   - A `Node` is an id, a host and a port. It renders as `host:port/id`.
   - A `PartitionInfo` is a builder for one partition's leader and its ordered sets of replica
     and in-sync-replica ids.
   - A `BrokerMetadata` holds a topic, the originating node's name, the nodes keyed by id, and an
     ordered map from partition to partition info.
   - `toString()` renders it as
     `originatingNode[..], topic[..], partitions{<p>: leader[..], replicas[..], inSyncReplicas[..]; ...}`.
     A node id that was never added renders as `-:-/<id>`.
   - The builders are classes whose methods update their fields in place (`metadata.dfy`). The
     formatter is a pure function over that state. `metadata_tests.dfy` replays the two
     formatting tests against the model.
2. **The consumer.**
   - Ownership is one of three states: unowned, subscribed to topics (partitions handed out by
     group rebalances), or manually assigned. The two owning modes exclude each other
     (`ownership.dfy`).
   - The consumer also has a set of paused partitions, a position per assigned partition, and the
     offsets its group committed.
   - The cluster is in memory: an append-only log per topic-partition plus the committed offsets
     of every group (`broker.dfy`). `offsetsForTime` is answered from these logs.
   - `poll()` is specified by the relation `Delivery.PollOutcome` (`delivery.dfy`). Each fetchable
     partition delivers a contiguous run of records from its position on, in offset order. At most
     `max.poll.records` records are delivered. A poll stops early only at that bound.
   - `Consumer.KafkaConsumer` (`consumer.dfy`) implements subscribe, unsubscribe, assign, pause,
     resume, seek, poll, commit, position, committed and close. Poll is a loop proved against that
     relation.
   - Record headers are an ordered list in which keys may repeat. The header lookup scans it from
     the back (`headers.dfy`).
   - The scenario files (`ownership_scenarios.dfy`, `poll_scenarios.dfy`, `commit_scenarios.dfy`,
     `fetch_scenarios.dfy`) replay the integration tests. Each method builds the cluster and
     consumers as its test does. Its postcondition states what the test expects.

The library sources (`kafka/KafkaConsumer.h`, `kafka/BrokerMetadata.h`) are not part of this
model. The behaviour modelled is what the two test files state.

These choices follow the tests:
- Subscribe/assign conflicts fail with the generic failure `RD_KAFKA_RESP_ERR__FAIL`
  (tests/integration/TestKafkaConsumer.cc:1088 and :1107), not with a dedicated
  invalid-state code.
- Seeking a partition that is not owned fails with unknown-partition.
- Pausing a partition that is not owned fails with invalid-argument
  (tests/integration/TestKafkaConsumer.cc:1223 pauses a partition of an unknown topic).
- A rebalance keeps the whole paused set, including partitions the group takes away: the test at
  tests/integration/TestKafkaConsumer.cc:1253-1324 needs `topic1:0` still paused after the group
  hands it to another consumer and back.

These choices are the model's own, where the tests say nothing:
- Resuming a partition that is not owned fails with invalid-argument, like pausing it.

## Model

| member | source | states |
|---|---|---|
| BrokerMetadataTests.NodeFieldsAndText | tests/unit/TestBrokerMetadata.cc:7-19 | a node keeps the id, host and port it was built with and renders as `127.0.0.1:9000/1` |
| Decimal.NatToStringRoundTrip | tests/unit/TestBrokerMetadata.cc:18 | the decimal text of a natural number reads back as that number |
| Decimal.IntToStringRoundTrip | tests/unit/TestBrokerMetadata.cc:18 | the decimal text of any integer, with its sign, parses back to that integer |
| Decimal.IntToStringHasNo | tests/unit/TestBrokerMetadata.cc:18 | rendered numbers never contain the separators `/ : , ; [ ]` placed around them |
| Metadata.DescriptionRoundTrip | tests/unit/TestBrokerMetadata.cc:96-100 | a node description parses back to the stored node, or to its id alone (`-:-/id`) when no node with that id was added |
| Metadata.FirstIndexOf | tests/unit/TestBrokerMetadata.cc:63-66 | the index found holds the character and none occurs before it; no index means the character does not occur |
| Metadata.SplitJoin | tests/unit/TestBrokerMetadata.cc:63-66 | splitting a `sep`-joined list at `sep` gives back the list, when no part is empty or contains the separator's first character |
| Metadata.DescriptionHasNo | tests/unit/TestBrokerMetadata.cc:97-99 | a node description is non-empty and contains no `,` or `;` unless a host does |
| Metadata.NodeListRoundTrip | tests/unit/TestBrokerMetadata.cc:97-99 | a rendered replica list splits at `, ` into one piece per id, in order, each parsing back to that id's node or to the bare id |
| Metadata.PartitionTextHasNoSemicolon | tests/unit/TestBrokerMetadata.cc:63-66 | a partition's line is non-empty and contains no `;` unless a host does |
| Metadata.MetadataTextPartitions | tests/unit/TestBrokerMetadata.cc:63-67 | the snapshot text is `originatingNode[..], topic[..], partitions{` + body + `}`, and the body splits at `; ` into one line per partition in ascending partition order |
| Metadata.KnownAddressRoundTrip | tests/unit/TestBrokerMetadata.cc:18 | the `host:port` part of a known node's text parses back to that node |
| Metadata.Insert | tests/unit/TestBrokerMetadata.cc:43-48 | inserting into an ordered id set keeps it strictly ascending, adds exactly the new id, and grows it by one unless the id was present |
| Metadata.InsertAll | tests/unit/TestBrokerMetadata.cc:44-48 | inserting ids one by one gives an ascending list of exactly the old and the new ids |
| Metadata.SortedUnique | tests/unit/TestBrokerMetadata.cc:64-66 | two ascending duplicate-free lists with the same elements are equal |
| Metadata.ListingIgnoresInsertionOrder | tests/unit/TestBrokerMetadata.cc:44-48 | the rendered order of a replica set depends only on its ids, not on the order they were added |
| Metadata.InsertGreatest | tests/unit/TestBrokerMetadata.cc:44-47 | adding an id above every listed one appends it |
| Metadata.PartitionInfo.constructor | tests/unit/TestBrokerMetadata.cc:42 | a new partition info has no replicas and no in-sync replicas |
| Metadata.PartitionInfo.SetLeader | tests/unit/TestBrokerMetadata.cc:43 | sets the leader and nothing else |
| Metadata.PartitionInfo.AddReplica | tests/unit/TestBrokerMetadata.cc:46 | inserts the id into the ordered replica set; the set grows by one unless the id was present |
| Metadata.PartitionInfo.AddInSyncReplica | tests/unit/TestBrokerMetadata.cc:47 | inserts the id into the ordered in-sync-replica set; the set grows by one unless the id was present |
| Metadata.BrokerMetadata.constructor | tests/unit/TestBrokerMetadata.cc:28 | keeps the topic; no nodes and no partitions yet |
| Metadata.BrokerMetadata.SetOrigNodeName | tests/unit/TestBrokerMetadata.cc:29 | sets the originating node's name and nothing else |
| Metadata.BrokerMetadata.AddNode | tests/unit/TestBrokerMetadata.cc:32-37 | stores the node under its id; the node count grows by one for a new id |
| Metadata.BrokerMetadata.AddPartitionInfo | tests/unit/TestBrokerMetadata.cc:40-53 | stores a copy of the info under the partition, keeps the partition ids ascending, and grows the count by one for a new partition |
| BrokerMetadataTests.FullPartitionInfo | tests/unit/TestBrokerMetadata.cc:42-48 | the builder loop gives the chosen leader and replica and in-sync sets `[1, 2, 3]` |
| BrokerMetadataTests.ServerNodes | tests/unit/TestBrokerMetadata.cc:32-35 | the node map after adding the first `n` servers holds exactly ids `1..n`, each with its server |
| BrokerMetadataTests.ServerPartitions | tests/unit/TestBrokerMetadata.cc:40-50 | the partition map built by the test has exactly partitions `0..n-1` |
| BrokerMetadataTests.AddServers | tests/unit/TestBrokerMetadata.cc:32-35 | the node loop leaves exactly the servers' nodes in the snapshot |
| BrokerMetadataTests.AddServerPartitions | tests/unit/TestBrokerMetadata.cc:40-50 | the partition loop leaves partitions `[0, 1, 2]`, partition `p` led by server `p + 1` with all three servers as replicas |
| BrokerMetadataTests.ServerCounts | tests/unit/TestBrokerMetadata.cc:37-53 | three nodes and three partitions |
| BrokerMetadataTests.ServerPartitionsAt | tests/unit/TestBrokerMetadata.cc:55-61 | partition `p` has leader `p + 1` and three replicas and in-sync replicas |
| BrokerMetadataTests.ServerTexts | tests/unit/TestBrokerMetadata.cc:64 | each server renders as `serverN:9000/N` |
| BrokerMetadataTests.ServerListText | tests/unit/TestBrokerMetadata.cc:64-66 | a full replica list renders as `server1:9000/1, server2:9000/2, server3:9000/3` |
| BrokerMetadataTests.BasicPartitionText | tests/unit/TestBrokerMetadata.cc:64-66 | each partition line of the full snapshot has the expected leader and lists |
| BrokerMetadataTests.BasicMetadataText | tests/unit/TestBrokerMetadata.cc:63-67 | the full snapshot renders exactly as the expected text |
| BrokerMetadataTests.Basic | tests/unit/TestBrokerMetadata.cc:21-68 | topic, node and partition counts, leaders `[1, 2, 3]`, replica counts and the rendered text are those the test expects |
| BrokerMetadataTests.MissingTexts | tests/unit/TestBrokerMetadata.cc:97-99 | ids 2 and 3 with no node render as `-:-/2` and `-:-/3` |
| BrokerMetadataTests.PartialListText | tests/unit/TestBrokerMetadata.cc:97-99 | with only node 1 added, a full replica list renders as `server1:9000/1, -:-/2, -:-/3` |
| BrokerMetadataTests.IncompleteMetadataText | tests/unit/TestBrokerMetadata.cc:96-100 | the snapshot with only one node renders with placeholders and does not fail |
| BrokerMetadataTests.IncompleteInfo | tests/unit/TestBrokerMetadata.cc:70-101 | the incomplete snapshot renders exactly as the expected text |
| Headers.LastValue | tests/integration/TestKafkaConsumer.cc:150-163 | the lookup finds nothing exactly when no header has the key; otherwise the value of a header with the key that no later header repeats |
| Headers.LastHeaderValue | tests/integration/TestKafkaConsumer.cc:150-163 | the backwards scan returns exactly the last matching header's value |
| Headers.AppendSameKey | tests/integration/TestKafkaConsumer.cc:112-116 | a header added last wins the lookup of its key |
| Headers.AppendOtherKey | tests/integration/TestKafkaConsumer.cc:112-116 | a header added with another key does not change a lookup |
| Headers.WithKey | tests/integration/TestKafkaConsumer.cc:112-116 | filtering keeps only headers with the key |
| Headers.WithKeyAppend | tests/integration/TestKafkaConsumer.cc:112-116 | filtering distributes over appending one header |
| Headers.LastValueOfFiltered | tests/integration/TestKafkaConsumer.cc:150-158 | the lookup sees only the headers with its key |
| Headers.Int32RoundTrip | tests/integration/TestKafkaConsumer.cc:155-158 | an `int` header value read back through its data pointer is the `int` written |
| Headers.DuplicateKeyHeadersLookup | tests/integration/TestKafkaConsumer.cc:108-163 | in the test's headers, "k1" yields the bytes of 134 and "nonexist" yields nothing |
| Headers.DuplicateKeyLookup | tests/integration/TestKafkaConsumer.cc:150-163 | the lookups return a four-byte value reading 134, and the null value of size 0 |
| Broker.EarliestAtOrAfter | tests/integration/TestKafkaConsumer.cc:1501-1511 | the answer is the first offset whose message is stamped at or after the timestamp; every earlier message is stamped before it |
| Broker.EarliestAtOrAfterSplits | tests/integration/TestKafkaConsumer.cc:1367-1375 | in a log with non-decreasing timestamps, exactly the messages from the answer on are at or after the timestamp |
| Broker.OffsetsForTime | tests/integration/TestKafkaConsumer.cc:1364-1422 | fails with unknown-partition exactly when every requested partition is unknown; otherwise answers each known requested partition and no other |
| Broker.UnknownPartitionsDropped | tests/integration/TestKafkaConsumer.cc:1408-1422 | adding unknown partitions to a request with a known one does not change the answer |
| Broker.KnownPartitionsAnswered | tests/integration/TestKafkaConsumer.cc:1364-1376 | a request of known partitions is answered with each one's timestamp lookup |
| Broker.Cluster.constructor | tests/integration/TestKafkaConsumer.cc:1335-1361 | a new cluster has no logs and no commits |
| Broker.Cluster.Produce | tests/integration/TestKafkaConsumer.cc:1349-1355 | appends the message to the partition's log and answers the offset it got |
| Broker.Cluster.Commit | tests/integration/TestKafkaConsumer.cc:582-588 | stores the offsets for the group, replacing only the same partitions' earlier commits |
| Delivery.FetchedConcat | tests/integration/TestKafkaConsumer.cc:840-842 | consecutive fetches deliver what one fetch over both ranges does |
| Delivery.OfPartition | tests/integration/TestKafkaConsumer.cc:1226-1248 | the records of one partition, drawn from the delivered ones |
| Delivery.OfPartitionContains | tests/integration/TestKafkaConsumer.cc:1226-1248 | every delivered record appears among its partition's records |
| Delivery.PositionFollowsLastRecord | tests/integration/TestKafkaConsumer.cc:812-813 | after a poll a partition's position is one past the last record it delivered, whose run started at the old position |
| Delivery.NothingPendingNothingDelivered | tests/integration/TestKafkaConsumer.cc:1240-1242 | a poll with nothing pending in any fetchable partition delivers nothing |
| Delivery.OnePendingPartitionPoll | tests/integration/TestKafkaConsumer.cc:1206-1209 | when one fetchable partition has records pending, a poll delivers its next `max` records (or the rest of its log) and moves no other position |
| Delivery.SingleRecordPoll | tests/integration/TestKafkaConsumer.cc:804-813 | with `max.poll.records` 1 a poll delivers at most one record, and the position moves just past it |
| Delivery.ChunkEnd | tests/integration/TestKafkaConsumer.cc:804-805 | a poll's run in one partition stays within the log and the room left, and stops short only at one of them |
| OwnershipRules.Subscribe | tests/integration/TestKafkaConsumer.cc:1091-1107 | fails with the generic failure exactly when partitions are assigned manually; otherwise the subscription is the given topics and nothing is assigned yet |
| OwnershipRules.Unsubscribe | tests/integration/TestKafkaConsumer.cc:1010-1014 | the subscription is empty afterwards; a manual assignment is kept |
| OwnershipRules.Assign | tests/integration/TestKafkaConsumer.cc:1071-1088 | fails with the generic failure exactly when subscribed; otherwise the assignment is the given partitions and the subscription is empty |
| OwnershipRules.Rebalance | tests/integration/TestKafkaConsumer.cc:1155-1168 | keeps the subscription and assigns exactly the handed-out partitions of subscribed topics |
| OwnershipRules.StepNeverSwitchesMode | tests/integration/TestKafkaConsumer.cc:1071-1107 | no single operation moves a consumer from manual assignment to subscription, or back |
| OwnershipRules.SubscribeAfterAssignNeedsRelease | tests/integration/TestKafkaConsumer.cc:1026-1056 | an assigned consumer that ends up subscribed was released by an assignment of nothing on the way |
| OwnershipRules.AssignAfterSubscribeNeedsRelease | tests/integration/TestKafkaConsumer.cc:994-1023 | a subscribed consumer that ends up assigned was released by an unsubscribe or an empty subscription on the way |
| Consumer.ResumeFromCommitted | tests/integration/TestKafkaConsumer.cc:601-615 | when a partition starts at its start offset, the first record a poll delivers from it has the group's committed offset; with nothing committed it is offset 0, and only under `earliest`, since `latest` delivers none of the records already there |
| Consumer.CommitLastRecordIsPosition | tests/integration/TestKafkaConsumer.cc:812-813 | committing the last record a poll delivered from a partition commits that partition's new position |
| Consumer.KafkaConsumer.constructor | tests/integration/TestKafkaConsumer.cc:1196-1200 | a new consumer owns nothing, pauses nothing and has no positions |
| Consumer.KafkaConsumer.AutoCommit | tests/integration/TestKafkaConsumer.cc:815-823 | an auto-commit consumer commits its positions for its group; a manual one commits nothing |
| Consumer.KafkaConsumer.Subscribe | tests/integration/TestKafkaConsumer.cc:1049-1055 | follows the ownership rule; on success the old partitions are released, auto-committed if enabled, and no positions remain |
| Consumer.KafkaConsumer.Unsubscribe | tests/integration/TestKafkaConsumer.cc:1010-1014 | follows the ownership rule; a subscribed consumer's positions are auto-committed and dropped |
| Consumer.KafkaConsumer.Assign | tests/integration/TestKafkaConsumer.cc:1016-1022 | follows the ownership rule; each new partition starts from the committed offset or the reset policy |
| Consumer.KafkaConsumer.Rebalance | tests/integration/TestKafkaConsumer.cc:1297-1321 | replaces the assignment, auto-commits the old positions first, starts every new partition afresh, and keeps the paused set |
| Consumer.KafkaConsumer.PauseAll | tests/integration/TestKafkaConsumer.cc:1211-1213 | every assigned partition becomes paused |
| Consumer.KafkaConsumer.Pause | tests/integration/TestKafkaConsumer.cc:1222-1227 | fails with invalid-argument, changing nothing, exactly when a partition is not assigned; otherwise pauses them |
| Consumer.KafkaConsumer.ResumeAll | tests/integration/TestKafkaConsumer.cc:1216-1220 | no assigned partition stays paused |
| Consumer.KafkaConsumer.Resume | tests/integration/TestKafkaConsumer.cc:1244-1248 | fails with invalid-argument exactly when a partition is not assigned; otherwise resumes them |
| Consumer.KafkaConsumer.Seek | tests/integration/TestKafkaConsumer.cc:1505-1511 | fails with unknown-partition exactly when the partition is not assigned; otherwise sets its position and only its position |
| Consumer.KafkaConsumer.SeekToBeginning | tests/integration/TestKafkaConsumer.cc:250-256 | every assigned partition's position becomes 0 |
| Consumer.KafkaConsumer.SeekToEnd | tests/integration/TestKafkaConsumer.cc:242-248 | every assigned partition's position becomes its log's end |
| Consumer.KafkaConsumer.Poll | tests/integration/TestKafkaConsumer.cc:797-813 | the records and new positions satisfy the poll relation over the assigned, unpaused partitions; auto-commit happens first |
| Consumer.KafkaConsumer.CommitRecord | tests/integration/TestKafkaConsumer.cc:582-588 | commits, and returns, the record's partition at offset + 1; afterwards `committed(tp)` reads offset + 1 for that partition and is unchanged for every other |
| Consumer.KafkaConsumer.CommitOffsets | tests/integration/TestKafkaConsumer.cc:681-683 | commits exactly the given offsets for the group; afterwards `committed(tp)` reads back each given offset and is unchanged for every other partition |
| Consumer.KafkaConsumer.CommitAll | tests/integration/TestKafkaConsumer.cc:727 | commits every assigned partition's position; afterwards `committed(tp)` equals `position(tp)` for each of them and is unchanged for every other partition |
| Consumer.KafkaConsumer.Position | tests/integration/TestKafkaConsumer.cc:812-813 | in a consistent consumer, a partition has a position exactly when it is assigned |
| Consumer.KafkaConsumer.Subscription | tests/integration/TestKafkaConsumer.cc:1007-1014 | in a consistent consumer, the subscription is empty exactly when the consumer is not subscribed by topic |
| Consumer.KafkaConsumer.Assignment | tests/integration/TestKafkaConsumer.cc:1040-1055 | while subscribed, every assigned partition belongs to a subscribed topic; a manual assignment is never empty |
| Consumer.KafkaConsumer.OffsetsForTime | tests/integration/TestKafkaConsumer.cc:1372-1403 | answers only requested partitions, each with an offset no later than the end of its log |
| Consumer.KafkaConsumer.Close | tests/integration/TestKafkaConsumer.cc:827-828 | auto-commits the positions if enabled and releases everything |
| OwnershipScenarios.PartitionAssignment | tests/integration/TestKafkaConsumer.cc:956-974 | a partition listed twice is assigned once, and the subscription is empty |
| OwnershipScenarios.TopicSubscription | tests/integration/TestKafkaConsumer.cc:976-992 | three topics are subscribed and nothing is assigned |
| OwnershipScenarios.SubscribeUnsubscribeThenAssign | tests/integration/TestKafkaConsumer.cc:994-1024 | after unsubscribe the subscription is empty and an assign succeeds with that assignment |
| OwnershipScenarios.AssignUnassignAndSubscribe | tests/integration/TestKafkaConsumer.cc:1026-1057 | after assigning nothing the assignment is empty and a subscribe succeeds with that subscription |
| OwnershipScenarios.SeekBeforePartitionsAssigned | tests/integration/TestKafkaConsumer.cc:1059-1069 | seeking before any assignment fails with unknown-partition |
| OwnershipScenarios.SubscribeThenAssign | tests/integration/TestKafkaConsumer.cc:1071-1089 | an assign while subscribed fails with the generic failure |
| OwnershipScenarios.AssignThenSubscribe | tests/integration/TestKafkaConsumer.cc:1091-1108 | a subscribe while assigned fails with the generic failure |
| PauseScenarios.PauseAllPhase | tests/integration/TestKafkaConsumer.cc:1205-1220 | one record, then nothing while everything is paused, then the next record once resumed |
| PauseScenarios.PausePartitionPhase | tests/integration/TestKafkaConsumer.cc:1222-1241 | pausing an unknown partition fails; with topic1 paused only topic2's new message arrives |
| PauseScenarios.PauseAndResume | tests/integration/TestKafkaConsumer.cc:1182-1251 | each poll of the test delivers exactly the record, or nothing, that the test expects, in produce order |
| PauseScenarios.PauseStillWorksAfterRebalance | tests/integration/TestKafkaConsumer.cc:1253-1324 | a partition paused before the group rebalances delivers nothing afterwards, and its message arrives once resumed |
| CommitScenarios.OffsetCommitCallback | tests/integration/TestKafkaConsumer.cc:323-383 | each commit of a polled record carries exactly one entry, the record's offset + 1 |
| CommitScenarios.FirstManualSession | tests/integration/TestKafkaConsumer.cc:533-597 | after seeking to the beginning, the first consumer reads all four messages and commits the first |
| CommitScenarios.ManualSession | tests/integration/TestKafkaConsumer.cc:601-730 | a later consumer reads from the committed offset to the end and then commits as its session does |
| CommitScenarios.CommittedAfter | tests/integration/TestKafkaConsumer.cc:578-727 | what a session leaves committed lies between where it started and the end of the log, and any commit after reading moves the group forward |
| CommitScenarios.ManualCommitSessions | tests/integration/TestKafkaConsumer.cc:507-745 | the five consumers receive 4, 3, 2, 1 and 0 records, each the messages after the last commit |
| CommitScenarios.AutoCommitFirstSession | tests/integration/TestKafkaConsumer.cc:772-829 | the position is offset + 1 after each poll, and the second poll has committed the first record's offset + 1 |
| CommitScenarios.AutoCommitSessions | tests/integration/TestKafkaConsumer.cc:747-860 | the next consumer receives exactly the two messages the first did not |
| FetchScenarios.BasicPoll | tests/integration/TestKafkaConsumer.cc:19-81 | nothing before the messages exist, then all three in order with their keys, values and no headers |
| FetchScenarios.PollWithHeaders | tests/integration/TestKafkaConsumer.cc:83-171 | records carry their messages' headers, and the lookups on the first find the last "k1" and no "nonexist" |
| FetchScenarios.SeekAndPoll | tests/integration/TestKafkaConsumer.cc:173-277 | all three messages, then nothing, nothing after seeking to the end, and all three again after seeking to the beginning |
| FetchScenarios.TimedLog | tests/integration/TestKafkaConsumer.cc:1341-1360 | five messages stamped 10 time units apart |
| FetchScenarios.EvenlyStampedAnswer | tests/integration/TestKafkaConsumer.cc:1367-1375 | in an evenly stamped log, a timestamp between two messages is answered with the later one's offset |
| FetchScenarios.CheckpointAnswers | tests/integration/TestKafkaConsumer.cc:1364-1422 | checkpoint `i` is answered with offset `i` in both partitions, with or without an extra unknown partition; only unknown partitions fail |
| FetchScenarios.OffsetsForTimeAtCheckpoint | tests/integration/TestKafkaConsumer.cc:1326-1424 | subscribed and unsubscribed consumers get the same answer, a request of only unknown partitions fails with unknown-partition, and a partially valid request is answered like the valid one |
| FetchScenarios.RecoveryAnswer | tests/integration/TestKafkaConsumer.cc:1501-1502 | the kept timestamp is answered with the offset of the message the first consumer failed at |
| FetchScenarios.FailingSession | tests/integration/TestKafkaConsumer.cc:1460-1482 | the first consumer processes three records and keeps the fourth's timestamp |
| FetchScenarios.CatchUpSession | tests/integration/TestKafkaConsumer.cc:1484-1522 | the next consumer reads nothing at first, then the rest from the seeked offset |
| FetchScenarios.RecoverByTime | tests/integration/TestKafkaConsumer.cc:1426-1532 | the two consumers together process every message exactly once, in order |

## Left out
- Broker.OffsetsForTime: a partition counts as existing only once a message was produced to it. The cluster has no separate topic creation, so an existing but empty partition is answered as unknown. The tests only ask about a topic that does not exist (tests/integration/TestKafkaConsumer.cc:1399-1404).

- The library sources, the test fixtures and the `KafkaTestUtility` helpers are not part of this
  model. Producing goes straight into the in-memory log. "Consume until timeout" is a loop of
  polls that stops once the partition is drained.
- Network round trips, threads and asynchronous callbacks are not modelled. Offset-commit
  callbacks fire later from `pollEvents` or `close`; only their payload is modelled.
- NoOffsetCommitCallback, OffsetCommitCallbackTriggeredBeforeClose and
  OffsetCommitCallback_ManuallyPollEvents (tests/integration/TestKafkaConsumer.cc:279-505) are
  not replayed separately. They repeat OffsetCommitCallback's poll-and-commit loop. They differ
  only in when the callbacks run, which is not modelled.
- GetBrokerMetadata (tests/integration/TestKafkaConsumer.cc:1110-1141) is not modelled. It asks
  the cluster for a metadata snapshot over the network.
- Library thread counts (tests/integration/TestKafkaConsumer.cc:940-954) are not modelled.
- The three-assignment rebalance test (tests/integration/TestKafkaConsumer.cc:862-938) is not
  modelled. It relies on a second consumer on another thread and on the coordinator's timing.
  Rebalance is an abstract event here; the application decides which partitions it hands out.
- Wall-clock time and sleeps are not modelled. Timestamps are abstract integers. The offsets-for-time
  tests use evenly spaced stamps in place of produce times.
- Partition-EOF pseudo-records are not modelled (tests/integration/TestKafkaConsumer.cc:1143-1180).
  Consequently SubscribeAndPoll's EOF count is absent.
- `fetchBrokerMetadata`, `beginningOffsets`, `name()`, `properties()` and logging are not modelled.
- Consumer.KafkaConsumer.Subscribe: in the library, subscribe waits for the group to hand out
  partitions. Here the assignment arrives with a separate `Rebalance` call.
- Consumer.KafkaConsumer.AutoCommit: the background cadence of auto-commit is not modelled.
  Positions are committed at the start of every poll and whenever partitions are released.
- Consumer.KafkaConsumer.Poll: the partitions are visited in an arbitrary order. The result is
  specified by a relation rather than one sequence. A real broker may also return fewer records
  than are available, which the model does not allow.
- Broker.EarliestAtOrAfter: when no message is stamped at or after the timestamp, the answer is
  the end of the log. Kafka reports a sentinel in that case; no test reaches it.
- Consumer.KafkaConsumer.Seek: seeking beyond the end of the log is accepted as is. The broker's
  out-of-range reset is not modelled.
- Consumer.KafkaConsumer.Pause and Consumer.KafkaConsumer.Resume: a request naming any partition
  that is not assigned is refused as a whole.
- Metadata.PartitionInfo.constructor: the initial leader is 0 when none is set.
- Headers.Int32Bytes: an `int` header value is four bytes, least significant first, as on the
  little-endian machines the tests run on.
- 32-bit overflow of partition numbers, ports and node ids is not modelled. They are unbounded
  integers.
