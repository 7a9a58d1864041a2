/**
 * The subscription and assignment tests of the consumer, replayed against the model. Each method
 * builds a fresh consumer and states in its postcondition what the test expects.
 */
module OwnershipScenarios {
  import opened Types
  import opened Broker
  import opened Consumer

  method NewConsumer() returns (c: KafkaConsumer)
    ensures fresh(c) && fresh(c.cluster) && c.Valid()
    ensures c.ownership.Unowned? && c.positions == map[] && c.paused == {}
  {
    var cluster := new Cluster();
    c := new KafkaConsumer(cluster, "group", 500, Latest, true);
  }

  /** TEST(KafkaAutoCommitConsumer, PartitionAssignment): the same partition listed twice is assigned once. */
  method PartitionAssignment() returns (assignment: set<TopicPartition>, subscription: set<Topic>)
    ensures assignment == {TopicPartition("topic", 0)} && subscription == {}
  {
    var c := NewConsumer();
    var tps := {TopicPartition("topic", 0), TopicPartition("topic", 0)};
    var _ := c.Assign(tps);
    assignment, subscription := c.Assignment(), c.Subscription();
  }

  /** TEST(KafkaAutoCommitConsumer, TopicSubscription): three topics subscribed, nothing assigned yet. */
  method TopicSubscription() returns (subscription: set<Topic>, assignment: set<TopicPartition>)
    ensures |subscription| == 3 && "topic1" in subscription && "topic2" in subscription && "topic3" in subscription
    ensures assignment == {}
  {
    var c := NewConsumer();
    var _ := c.Subscribe({"topic1", "topic2", "topic3"});
    subscription, assignment := c.Subscription(), c.Assignment();
  }

  /** TEST(KafkaAutoCommitConsumer, SubscribeUnsubscribeThenAssign) */
  method SubscribeUnsubscribeThenAssign()
    returns (subscribed: set<Topic>, unsubscribed: set<Topic>, assignResult: Result<()>,
             assignment: set<TopicPartition>, subscription: set<Topic>)
    ensures subscribed == {"topic"} && unsubscribed == {}
    ensures assignResult.Ok? && assignment == {TopicPartition("topic", 0)} && subscription == {}
  {
    var c := NewConsumer();
    var _ := c.Subscribe({"topic"});
    subscribed := c.Subscription();
    c.Unsubscribe();
    unsubscribed := c.Subscription();
    assignResult := c.Assign({TopicPartition("topic", 0)});
    assignment, subscription := c.Assignment(), c.Subscription();
  }

  /** TEST(KafkaAutoCommitConsumer, AssignUnassignAndSubscribe) */
  method AssignUnassignAndSubscribe()
    returns (afterAssign: set<TopicPartition>, unassigned: set<TopicPartition>, subscribed: Result<()>,
             subscription: set<Topic>, assignment: set<TopicPartition>)
    ensures afterAssign == {TopicPartition("topic", 0)} && unassigned == {}
    ensures subscribed.Ok? && subscription == {"topic"} && assignment == {}
  {
    var c := NewConsumer();
    var _ := c.Assign({TopicPartition("topic", 0)});
    afterAssign := c.Assignment();
    var _ := c.Assign({});
    unassigned := c.Assignment();
    subscribed := c.Subscribe({"topic"});
    subscription, assignment := c.Subscription(), c.Assignment();
  }

  /** TEST(KafkaAutoCommitConsumer, WrongOperation_SeekBeforePartitionsAssigned) */
  method SeekBeforePartitionsAssigned() returns (r: Result<()>)
    ensures r == Err(ErrUnknownPartition)
  {
    var c := NewConsumer();
    r := c.Seek(TopicPartition("unassigned_topic", 0), 0);
  }

  /** TEST(KafkaAutoCommitConsumer, WrongOperation_SubscribeThenAssign) */
  method SubscribeThenAssign() returns (subscription: set<Topic>, r: Result<()>)
    ensures subscription == {"topic"}
    ensures r == Err(ErrFail)
  {
    var c := NewConsumer();
    var _ := c.Subscribe({"topic"});
    subscription := c.Subscription();
    r := c.Assign({TopicPartition("topic", 0)});
  }

  /** TEST(KafkaAutoCommitConsumer, WrongOperation_AssignThenSubscribe) */
  method AssignThenSubscribe() returns (assignment: set<TopicPartition>, r: Result<()>)
    ensures assignment == {TopicPartition("topic", 0)}
    ensures r == Err(ErrFail)
  {
    var c := NewConsumer();
    var _ := c.Assign({TopicPartition("topic", 0)});
    assignment := c.Assignment();
    r := c.Subscribe({"topic"});
  }
}
