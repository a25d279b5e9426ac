/**
 * Traces of the two node classes, built only from their method contracts: the
 * handshake unit tests of protocol.py (lines 173-324) and two-node exchanges
 * in each dialect.
 */
module Scenarios {
  import opened Wrappers
  import opened Messages
  import opened Handshake
  import Swarm
  import HostPort

  /** The address the handshake tests talk to. */
  const TestPeer: Address := Address("0.0.0.0", 555)

  /** A message whose only key is `action`. */
  function Say(action: string): seq<Field>
  {
    [Field("action", Str(action))]
  }

  /** A fresh node: `PeerProtocol(encoder)` followed by `connection_made`. */
  method Connected() returns (p: PeerProtocol)
    ensures fresh(p) && p.Valid()
    ensures p.order == [] && p.peers == map[] && p.outbox == []
  {
    p := new PeerProtocol();
    p.ConnectionMade();
  }

  /** A fresh node that already holds `{'mutual?': False}` for the test peer. */
  method ConnectedKnowingTestPeer() returns (p: PeerProtocol)
    ensures fresh(p) && p.Valid()
    ensures p.order == [TestPeer] && p.peers == map[TestPeer := PeerRecord(Some(Bool(false)), None)] && p.outbox == []
  {
    p := Connected();
    p.SetRecord(TestPeer, PeerRecord(Some(Bool(false)), None));
  }

  /** A message without an action draws no reply and adds nobody. */
  method NoActionIsIgnored(now: nat) returns (sent: seq<Datagram>, peers: map<Address, PeerRecord>)
    ensures sent == [] && peers == map[]
  {
    var p := Connected();
    p.Receive([], TestPeer, now);
    sent, peers := p.outbox, p.peers;
  }

  /**
   * `peer:add` from a stranger: one `{action: peer:ack-add, added?: true}` to
   * it, and it is recorded, not mutual, seen now.
   */
  method PeerAddAddsPeer(now: nat) returns (sent: seq<Datagram>, peers: map<Address, PeerRecord>)
    ensures sent == [Datagram(AckAdd, TestPeer)]
    ensures peers == map[TestPeer := PeerRecord(Some(Bool(false)), Some(now))]
  {
    var p := Connected();
    assert Action(Say("peer:add")) == Str("peer:add");
    p.Receive(Say("peer:add"), TestPeer, now);
    sent, peers := p.outbox, p.peers;
  }

  /** `peer:ack-add`, `peer:beat` and `peer:ack-beat` from a stranger: no reply, nobody added. */
  method StrangerIsIgnored(message: seq<Field>, now: nat) returns (sent: seq<Datagram>, peers: map<Address, PeerRecord>)
    requires message in {[Field("action", Str("peer:ack-add")), Field("added?", Bool(true))], Say("peer:beat"), Say("peer:ack-beat")}
    ensures sent == [] && peers == map[]
  {
    var p := Connected();
    assert Action(message) != Str("peer:add") by {
      assert message[0].key == "action";
    }
    p.Receive(message, TestPeer, now);
    sent, peers := p.outbox, p.peers;
  }

  /** `peer:ack-add` from a known peer: its `mutual?` becomes `added?` and it is seen now; no reply. */
  method AckAddSetsMutual(added: bool, now: nat) returns (sent: seq<Datagram>, record: PeerRecord)
    ensures sent == [] && record == PeerRecord(Some(Bool(added)), Some(now))
  {
    var p := ConnectedKnowingTestPeer();
    var message := [Field("action", Str("peer:ack-add")), Field("added?", Bool(added))];
    assert Action(message) == Str("peer:ack-add") && GetOr(message, "added?", Bool(false)) == Bool(added) by {
      assert message[0].key == "action" && message[0].key != "added?";
      assert message[1..] == [Field("added?", Bool(added))];
      assert Get(message[1..], "added?") == Some(Bool(added));
    }
    p.Receive(message, TestPeer, now);
    sent, record := p.outbox, p.peers[TestPeer];
  }

  /** `peer:beat` from a known peer: one `peer:ack-beat` to it, and it is seen now. */
  method BeatIsAcknowledged(now: nat) returns (sent: seq<Datagram>, record: PeerRecord)
    ensures sent == [Datagram(AckBeat, TestPeer)] && record == PeerRecord(Some(Bool(false)), Some(now))
  {
    var p := ConnectedKnowingTestPeer();
    assert Action(Say("peer:beat")) == Str("peer:beat");
    p.Receive(Say("peer:beat"), TestPeer, now);
    sent, record := p.outbox, p.peers[TestPeer];
  }

  /** `peer:ack-beat` from a known peer: no reply, and it is seen now. */
  method AckBeatRefreshes(now: nat) returns (sent: seq<Datagram>, record: PeerRecord)
    ensures sent == [] && record == PeerRecord(Some(Bool(false)), Some(now))
  {
    var p := ConnectedKnowingTestPeer();
    assert Action(Say("peer:ack-beat")) == Str("peer:ack-beat");
    p.Receive(Say("peer:ack-beat"), TestPeer, now);
    sent, record := p.outbox, p.peers[TestPeer];
  }

  /** main.py's start: `b` seeded with a `{}` record, then `connection_made` greets it. */
  method Greeter(b: Address) returns (p: PeerProtocol)
    ensures fresh(p) && p.Valid()
    ensures p.order == [b] && p.peers == map[b := PeerRecord(None, None)] && p.outbox == [Datagram(Greeting, b)]
  {
    p := new PeerProtocol();
    p.SetRecord(b, PeerRecord(None, None));
    p.ConnectionMade();
  }

  /** A fresh node that hears the greeting from `a`. */
  method Greeted(a: Address, heard: nat) returns (p: PeerProtocol)
    ensures fresh(p) && p.Valid()
    ensures p.peers == map[a := PeerRecord(Some(Bool(false)), Some(heard))] && p.outbox == [Datagram(AckAdd, a)]
  {
    p := new PeerProtocol();
    GreetingIsNotMutual(p.Current(), a, heard);
    assert Action(Greeting.fields) == Str("peer:add") by {
      assert Greeting.fields[0].key == "action";
    }
    p.Receive(Greeting.fields, a, heard);
  }

  /**
   * Node `a` starts seeded with `b` and greets it; `b` answers and `a` reads
   * the answer. Because the greeting says `mutual` rather than `mutual?`, `b`
   * ends up holding `a` as not mutual while `a` holds `b` as mutual.
   */
  method HandshakePair(a: Address, b: Address, heard: nat, answered: nat)
    returns (aSent: seq<Datagram>, bSent: seq<Datagram>, aPeers: map<Address, PeerRecord>, bPeers: map<Address, PeerRecord>)
    ensures aSent == [Datagram(Greeting, b)] && bSent == [Datagram(AckAdd, a)]
    ensures aPeers == map[b := PeerRecord(Some(Bool(true)), Some(answered))]
    ensures bPeers == map[a := PeerRecord(Some(Bool(false)), Some(heard))]
  {
    var nodeA := Greeter(b);
    var nodeB := Greeted(a, heard);
    assert Action(AckAdd.fields) == Str("peer:ack-add") && GetOr(AckAdd.fields, "added?", Bool(false)) == Bool(true) by {
      assert AckAdd.fields[0].key == "action" && AckAdd.fields[1].key != "action";
    }
    nodeA.Receive(AckAdd.fields, b, answered);
    aSent, bSent, aPeers, bPeers := nodeA.outbox, nodeB.outbox, nodeA.peers, nodeB.peers;
  }

  /** The handling of an answer listing only the receiver's own address: the entry is parsed and refused. */
  lemma OwnEntryDropped(peers: seq<Address>, ownPort: int, own: Address)
    requires own.port == ownPort && ':' !in own.host
    ensures Swarm.Flood(peers, ownPort, Swarm.FormatAll([own])) == Swarm.Outcome(peers, [], false)
  {
    var entries := Swarm.FormatAll([own]);
    HostPort.ParseFormat(own);
    assert Swarm.ParseEntry(entries[0]) == Some(own);
    Swarm.FloodUnfold(peers, ownPort, entries, 0);
    assert entries[0..] == entries && entries[1..] == [];
    assert !Swarm.Insert(peers, ownPort, own).added;
  }

  /** A node that bootstraps from the seed `b`. */
  method Bootstrapped(port: int, b: Address) returns (p: Swarm.UDPSwarm)
    requires b.port != port
    ensures fresh(p) && p.Valid() && p.port == port
    ensures p.peers == [b] && p.outbox == [Datagram(Swarm.AddPeerMessage, b), Datagram(Swarm.RequestPeersMessage, b)]
  {
    p := new Swarm.UDPSwarm(port);
    Swarm.BootstrapSpec([], port, [b]);
    Swarm.SendEachTwiceAt(Swarm.AddPeerMessage, Swarm.RequestPeersMessage, [b], 0);
    p.OnConnect([b]);
  }

  /** A fresh node on `port` that receives `add-peer` and then `request-peers` from `a`. */
  method Answerer(port: int, a: Address) returns (p: Swarm.UDPSwarm)
    requires a.port != port
    ensures fresh(p) && p.Valid() && p.port == port
    ensures p.peers == [a] && p.outbox == [Datagram(Swarm.RespondPeersMessage(Swarm.FormatAll([a])), a)]
  {
    p := new Swarm.UDPSwarm(port);
    assert Swarm.Action(Some(Swarm.AddPeerMessage)) == Str("add-peer");
    var _ := p.MessageHandler(a, Some(Swarm.AddPeerMessage));
    assert p.peers == [a];
    Swarm.RequestAnswered([a], port, a);
    var _ := p.MessageHandler(a, Some(Swarm.RequestPeersMessage));
  }

  /**
   * Flood dialect: node A bootstraps from seed B (for instance ports 5001 and
   * 5002 on one host). A sends `add-peer` and `request-peers` to B and holds
   * B; B learns A from the `add-peer` and so lists A in its answer, which A
   * drops because the entry carries A's own port.
   */
  method SeededPair(a: Address, b: Address)
    returns (aSent: seq<Datagram>, bSent: seq<Datagram>, aPeers: seq<Address>, bPeers: seq<Address>, raised: bool)
    requires a.port != b.port && ':' !in a.host
    ensures aSent == [Datagram(Swarm.AddPeerMessage, b), Datagram(Swarm.RequestPeersMessage, b)]
    ensures bSent == [Datagram(Swarm.RespondPeersMessage([Str(HostPort.Format(a))]), a)]
    ensures aPeers == [b] && bPeers == [a]
    ensures !raised
  {
    var nodeA := Bootstrapped(a.port, b);
    var nodeB := Answerer(b.port, a);
    var answer := nodeB.outbox[0].message;
    assert Swarm.FormatAll([a]) == [Str(HostPort.Format(a))];
    Swarm.AnswerIsFlooded([b], a.port, Swarm.FormatAll([a]), b);
    OwnEntryDropped([b], a.port, a);
    raised := nodeA.MessageHandler(b, Some(answer));
    aSent, bSent, aPeers, bPeers := nodeA.outbox, nodeB.outbox, nodeA.peers, nodeB.peers;
  }
}
