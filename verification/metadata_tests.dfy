/**
 * The broker-metadata unit tests replayed against the model: each method builds the snapshot the
 * way the test does and its postcondition states what the test expects.
 */
module BrokerMetadataTests {
  import opened Types
  import opened Decimal
  import opened Metadata

  const Servers: seq<Node> := [Node(1, "server1", 9000), Node(2, "server2", 9000), Node(3, "server3", 9000)]

  /** A node keeps the id, host and port it was built from and renders as `host:port/id`. */
  lemma NodeFieldsAndText()
    ensures var node := Node(1, "127.0.0.1", 9000);
            node.id == 1 && node.host == "127.0.0.1" && node.port == 9000
            && node.ToString() == "127.0.0.1:9000/1"
  {
  }

  /** One partition as the tests build it: the given leader, every server as replica and in-sync replica. */
  method FullPartitionInfo(leader: NodeId) returns (info: PartitionInfo)
    ensures fresh(info) && info.Valid()
    ensures info.State() == PartitionState(leader, [1, 2, 3], [1, 2, 3])
  {
    info := new PartitionInfo();
    info.SetLeader(leader);
    for k := 0 to |Servers|
      invariant info.Valid()
      invariant info.leader == leader
      invariant info.replicas == [1, 2, 3][..k]
      invariant info.inSyncReplicas == [1, 2, 3][..k]
    {
      AddServerReplica(info, k);
    }
    assert [1, 2, 3][..3] == [1, 2, 3];
  }

  /** Registers server `k` as replica and in-sync replica after the servers before it. */
  method AddServerReplica(info: PartitionInfo, k: nat)
    requires k < |Servers|
    requires info.Valid() && info.replicas == [1, 2, 3][..k] && info.inSyncReplicas == [1, 2, 3][..k]
    modifies info
    ensures info.Valid() && info.leader == old(info.leader)
    ensures info.replicas == [1, 2, 3][..k + 1] && info.inSyncReplicas == [1, 2, 3][..k + 1]
  {
    var ids := [1, 2, 3];
    var id := Servers[k].id;
    assert id == ids[k];
    assert ids[..k] == [] || ids[..k][k - 1] < id;
    InsertGreatest(ids[..k], id);
    PrefixExtend(ids, k);
    info.AddReplica(id);
    info.AddInSyncReplica(id);
  }

  lemma PrefixExtend(s: seq<int>, k: nat)
    requires k < |s|
    ensures s[..k] + [s[k]] == s[..k + 1]
  {
  }

  /** The partitions of the first `n` servers: partition `j` is led by server `j + 1`. */
  function ServerPartitions(n: nat): (m: map<Partition, PartitionState>)
    ensures forall j :: j in m <==> 0 <= j < n
  {
    if n == 0 then map[] else ServerPartitions(n - 1)[n - 1 := PartitionState(n, [1, 2, 3], [1, 2, 3])]
  }

  /** Adds one partition per server, numbered from 0, with that server as leader. */
  method AddServerPartitions(metadata: BrokerMetadata)
    requires metadata.Valid() && metadata.partitionIds == [] && metadata.partitions == map[]
    modifies metadata
    ensures metadata.Valid()
    ensures metadata.partitionIds == [0, 1, 2]
    ensures metadata.partitions == ServerPartitions(3)
    ensures metadata.nodes == old(metadata.nodes) && metadata.origNodeName == old(metadata.origNodeName)
  {
    for p := 0 to |Servers|
      invariant metadata.Valid()
      invariant metadata.partitionIds == [0, 1, 2][..p]
      invariant metadata.partitions == ServerPartitions(p)
      invariant metadata.nodes == old(metadata.nodes) && metadata.origNodeName == old(metadata.origNodeName)
    {
      AddServerPartition(metadata, p);
    }
    assert [0, 1, 2][..3] == [0, 1, 2];
  }

  /** Adds partition `p`, led by server `p + 1`, after the partitions before it. */
  method AddServerPartition(metadata: BrokerMetadata, p: nat)
    requires p < |Servers|
    requires metadata.Valid() && metadata.partitionIds == [0, 1, 2][..p] && metadata.partitions == ServerPartitions(p)
    modifies metadata
    ensures metadata.Valid()
    ensures metadata.partitionIds == [0, 1, 2][..p + 1] && metadata.partitions == ServerPartitions(p + 1)
    ensures metadata.nodes == old(metadata.nodes) && metadata.origNodeName == old(metadata.origNodeName)
  {
    var ids := [0, 1, 2];
    assert Servers[p].id == p + 1;
    var info := FullPartitionInfo(Servers[p].id);
    assert ids[..p] == [] || ids[..p][p - 1] < p;
    InsertGreatest(ids[..p], p);
    assert p == ids[p];
    PrefixExtend(ids, p);
    metadata.AddPartitionInfo(p, info);
  }

  /** The cluster of the tests: every server registered under its id. */
  function ServerNodes(n: nat): (m: map<NodeId, Node>)
    requires n <= |Servers|
    ensures forall id :: id in m <==> 1 <= id <= n
    ensures forall id :: id in m ==> m[id] == Servers[id - 1]
  {
    if n == 0 then map[] else ServerNodes(n - 1)[n := Servers[n - 1]]
  }

  lemma ServerTexts()
    ensures Servers[0].ToString() == "server1:9000/1"
    ensures Servers[1].ToString() == "server2:9000/2"
    ensures Servers[2].ToString() == "server3:9000/3"
  {
  }

  lemma ServerPartitionsAt(p: Partition)
    requires 0 <= p < 3
    ensures ServerPartitions(3)[p] == PartitionState(p + 1, [1, 2, 3], [1, 2, 3])
  {
  }

  /** The servers as the tests expect them listed: "server1:9000/1, server2:9000/2, server3:9000/3". */
  const ServerList := "server1:9000/1" + ", " + "server2:9000/2" + ", " + "server3:9000/3"

  lemma JoinThree(sep: string, a: string, b: string, c: string)
    ensures Join(sep, [a, b, c]) == a + sep + b + sep + c
  {
    JoinCons(sep, b, [c]);
    JoinCons(sep, a, [b, c]);
    assert [a] + [b, c] == [a, b, c];
    assert [b] + [c] == [b, c];
  }

  lemma ServerListText()
    ensures Join(", ", Descriptions([1, 2, 3], ServerNodes(3))) == ServerList
  {
    var nodes := ServerNodes(3);
    ServerTexts();
    var d := Descriptions([1, 2, 3], nodes);
    assert d[0] == Servers[0].ToString() by { assert 1 in nodes; }
    assert d[1] == Servers[1].ToString() by { assert 2 in nodes; }
    assert d[2] == Servers[2].ToString() by { assert 3 in nodes; }
    assert d == [d[0], d[1], d[2]];
    JoinThree(", ", d[0], d[1], d[2]);
  }

  /** A partition line of the tests: its number, its leader and the same replica and in-sync lists. */
  function Line(num: string, leader: string, list: string): string {
    num + ": leader[" + leader + "], replicas[" + list + "], inSyncReplicas[" + list + "]"
  }

  /** The expected rendering of the Basic test, one partition per server. */
  const BasicText :=
    "originatingNode[" + "server1" + "], topic[" + "topicName" + "], partitions{"
    + (Line("0", "server1:9000/1", ServerList) + "; " + Line("1", "server2:9000/2", ServerList) + "; " + Line("2", "server3:9000/3", ServerList))
    + "}"

  lemma SmallNumbers()
    ensures IntToString(0) == "0" && IntToString(1) == "1" && IntToString(2) == "2"
  {
  }

  lemma BasicPartitionText(p: Partition)
    requires 0 <= p < 3
    ensures PartitionText(p, ServerPartitions(3)[p], ServerNodes(3)) == Line(IntToString(p), Servers[p].ToString(), ServerList)
  {
    ServerPartitionsAt(p);
    ServerListText();
    assert 1 + p in ServerNodes(3);
  }

  /** Three partitions render as the three given lines, in order. */
  lemma ThreePartitionTexts(partitions: map<Partition, PartitionState>, nodes: map<NodeId, Node>, a: string, b: string, c: string)
    requires 0 in partitions && 1 in partitions && 2 in partitions
    requires PartitionText(0, partitions[0], nodes) == a
    requires PartitionText(1, partitions[1], nodes) == b
    requires PartitionText(2, partitions[2], nodes) == c
    ensures PartitionTexts([0, 1, 2], partitions, nodes) == [a, b, c]
  {
    var texts := PartitionTexts([0, 1, 2], partitions, nodes);
    assert texts[0] == a && texts[1] == b && texts[2] == c;
  }

  /** The three partition lines of the Basic test. */
  lemma BasicPartitionTexts()
    ensures PartitionTexts([0, 1, 2], ServerPartitions(3), ServerNodes(3))
            == [Line("0", "server1:9000/1", ServerList), Line("1", "server2:9000/2", ServerList),
                Line("2", "server3:9000/3", ServerList)]
  {
    var partitions, nodes := ServerPartitions(3), ServerNodes(3);
    SmallNumbers();
    ServerTexts();
    BasicPartitionText(0);
    BasicPartitionText(1);
    BasicPartitionText(2);
    ThreePartitionTexts(partitions, nodes, Line("0", "server1:9000/1", ServerList), Line("1", "server2:9000/2", ServerList),
                        Line("2", "server3:9000/3", ServerList));
  }

  lemma BasicMetadataText()
    ensures MetadataText("server1", "topicName", ServerNodes(3), [0, 1, 2], ServerPartitions(3)) == BasicText
  {
    var l0, l1, l2 := Line("0", "server1:9000/1", ServerList), Line("1", "server2:9000/2", ServerList), Line("2", "server3:9000/3", ServerList);
    BasicPartitionTexts();
    JoinThree("; ", l0, l1, l2);
  }

  lemma ServerCounts()
    ensures |ServerNodes(3)| == 3 && |ServerPartitions(3)| == 3
  {
    assert ServerNodes(3).Keys == {1, 2, 3};
    assert ServerPartitions(3).Keys == {0, 1, 2};
  }

  /** Registers the first `n` servers, in order. */
  method AddServers(metadata: BrokerMetadata, n: nat)
    requires metadata.Valid() && metadata.nodes == map[] && n <= |Servers|
    modifies metadata
    ensures metadata.Valid()
    ensures metadata.nodes == ServerNodes(n)
    ensures metadata.origNodeName == old(metadata.origNodeName)
    ensures metadata.partitionIds == old(metadata.partitionIds) && metadata.partitions == old(metadata.partitions)
  {
    for i := 0 to n
      invariant metadata.Valid()
      invariant metadata.nodes == ServerNodes(i)
      invariant metadata.origNodeName == old(metadata.origNodeName)
      invariant metadata.partitionIds == old(metadata.partitionIds) && metadata.partitions == old(metadata.partitions)
    {
      metadata.AddNode(Servers[i].id, Servers[i].host, Servers[i].port);
    }
  }

  /** Partition `p` of the Basic test is led by server `p + 1` and lists all three servers. */
  lemma BasicPartitionFacts(ps: map<Partition, PartitionState>)
    requires ps == ServerPartitions(3)
    ensures 0 in ps && 1 in ps && 2 in ps
    ensures ps[0].leader == 1 && ps[1].leader == 2 && ps[2].leader == 3
    ensures |ps[0].replicas| == 3 && |ps[1].replicas| == 3 && |ps[2].replicas| == 3
    ensures |ps[0].inSyncReplicas| == 3 && |ps[1].inSyncReplicas| == 3 && |ps[2].inSyncReplicas| == 3
  {
    ServerPartitionsAt(0);
    ServerPartitionsAt(1);
    ServerPartitionsAt(2);
  }

  /** The snapshot the Basic test builds: every server as a node, one partition per server. */
  method BuildBasic() returns (metadata: BrokerMetadata)
    ensures fresh(metadata) && metadata.Valid()
    ensures metadata.topic == "topicName" && metadata.origNodeName == "server1"
    ensures metadata.nodes == ServerNodes(3) && metadata.partitionIds == [0, 1, 2]
    ensures metadata.partitions == ServerPartitions(3)
  {
    metadata := new BrokerMetadata("topicName");
    metadata.SetOrigNodeName(Servers[0].host);
    AddServers(metadata, |Servers|);
    AddServerPartitions(metadata);
  }

  /** What the Basic test reads back from its snapshot: the topic, the counts and each partition's leader and list sizes. */
  method ReadBasic(metadata: BrokerMetadata)
    returns (topic: Topic, nodeCount: nat, partitionCount: nat, leaders: seq<NodeId>, replicaCounts: seq<nat>,
             inSyncReplicaCounts: seq<nat>)
    requires metadata.topic == "topicName" && metadata.nodes == ServerNodes(3) && metadata.partitions == ServerPartitions(3)
    ensures topic == "topicName"
    ensures nodeCount == 3 && partitionCount == 3
    ensures leaders == [1, 2, 3]
    ensures replicaCounts == [3, 3, 3] && inSyncReplicaCounts == [3, 3, 3]
  {
    topic := metadata.topic;
    ServerCounts();
    nodeCount := |metadata.nodes|;
    partitionCount := |metadata.partitions|;
    BasicPartitionFacts(metadata.partitions);
    var p0, p1, p2 := metadata.partitions[0], metadata.partitions[1], metadata.partitions[2];
    leaders := [p0.leader, p1.leader, p2.leader];
    var n0, n1, n2 := |p0.replicas|, |p1.replicas|, |p2.replicas|;
    replicaCounts := [n0, n1, n2];
    var m0, m1, m2 := |p0.inSyncReplicas|, |p1.inSyncReplicas|, |p2.inSyncReplicas|;
    inSyncReplicaCounts := [m0, m1, m2];
  }

  /** TEST(BrokerMetadata, Basic): three nodes, three partitions, every node a replica. */
  method Basic() returns (topic: Topic, nodeCount: nat, partitionCount: nat, leaders: seq<NodeId>,
                          replicaCounts: seq<nat>, inSyncReplicaCounts: seq<nat>, text: string)
    ensures topic == "topicName"
    ensures nodeCount == 3 && partitionCount == 3
    ensures leaders == [1, 2, 3]
    ensures replicaCounts == [3, 3, 3] && inSyncReplicaCounts == [3, 3, 3]
    ensures text == BasicText
  {
    var metadata := BuildBasic();
    topic, nodeCount, partitionCount, leaders, replicaCounts, inSyncReplicaCounts := ReadBasic(metadata);
    text := metadata.ToString();
    BasicMetadataText();
  }

  const PartialList := "server1:9000/1, -:-/2, -:-/3"

  /** The expected rendering of the IncompleteInfo test: only server 1 is known. */
  const IncompleteText :=
    "originatingNode[" + "server1" + "], topic[" + "topicName" + "], partitions{"
    + (Line("0", "server1:9000/1", PartialList) + "; " + Line("1", "-:-/2", PartialList) + "; "
       + Line("2", "-:-/3", PartialList))
    + "}"

  lemma MissingTexts()
    ensures NodeDescription(2, ServerNodes(1)) == "-:-/2"
    ensures NodeDescription(3, ServerNodes(1)) == "-:-/3"
  {
    assert 2 !in ServerNodes(1) && 3 !in ServerNodes(1);
  }

  lemma PartialListOf(a: string, b: string, c: string)
    requires a == "server1:9000/1" && b == "-:-/2" && c == "-:-/3"
    ensures a + ", " + b + ", " + c == PartialList
  {
  }

  lemma PartialListText()
    ensures Join(", ", Descriptions([1, 2, 3], ServerNodes(1))) == PartialList
  {
    var nodes := ServerNodes(1);
    ServerTexts();
    MissingTexts();
    var d := Descriptions([1, 2, 3], nodes);
    assert d[0] == Servers[0].ToString() by { assert 1 in nodes; }
    assert d == [d[0], d[1], d[2]];
    JoinThree(", ", d[0], d[1], d[2]);
    PartialListOf(d[0], d[1], d[2]);
  }

  /** The three partition lines of the IncompleteInfo test. */
  lemma IncompletePartitionTexts()
    ensures PartitionTexts([0, 1, 2], ServerPartitions(3), ServerNodes(1))
            == [Line("0", "server1:9000/1", PartialList), Line("1", "-:-/2", PartialList), Line("2", "-:-/3", PartialList)]
  {
    var partitions, nodes := ServerPartitions(3), ServerNodes(1);
    PartialListText();
    SmallNumbers();
    MissingTexts();
    assert NodeDescription(1, nodes) == "server1:9000/1" by { ServerTexts(); assert 1 in nodes; }
    assert PartitionText(0, partitions[0], nodes) == Line("0", "server1:9000/1", PartialList) by { ServerPartitionsAt(0); }
    assert PartitionText(1, partitions[1], nodes) == Line("1", "-:-/2", PartialList) by { ServerPartitionsAt(1); }
    assert PartitionText(2, partitions[2], nodes) == Line("2", "-:-/3", PartialList) by { ServerPartitionsAt(2); }
    ThreePartitionTexts(partitions, nodes, Line("0", "server1:9000/1", PartialList), Line("1", "-:-/2", PartialList),
                        Line("2", "-:-/3", PartialList));
  }

  lemma IncompleteMetadataText()
    ensures MetadataText("server1", "topicName", ServerNodes(1), [0, 1, 2], ServerPartitions(3)) == IncompleteText
  {
    var l0, l1, l2 := Line("0", "server1:9000/1", PartialList), Line("1", "-:-/2", PartialList), Line("2", "-:-/3", PartialList);
    IncompletePartitionTexts();
    JoinThree("; ", l0, l1, l2);
  }

  /** TEST(BrokerMetadata, IncompleteInfo): partitions mention nodes that were never added. */
  method IncompleteInfo() returns (text: string)
    ensures text == IncompleteText
  {
    var metadata := new BrokerMetadata("topicName");
    metadata.SetOrigNodeName(Servers[0].host);
    metadata.AddNode(Servers[0].id, Servers[0].host, Servers[0].port);
    assert metadata.nodes == ServerNodes(1);
    AddServerPartitions(metadata);
    text := metadata.ToString();
    IncompleteMetadataText();
  }
}
