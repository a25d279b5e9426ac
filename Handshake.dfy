/**
 * The handshake dialect (`PeerProtocol` in protocol.py).
 *
 * The node keeps a dictionary from peer address to a record with two
 * optional keys, `mutual?` and `seen-utc`. One decoded message at a time
 * arrives from a sender; the node updates the dictionary and sends replies.
 * The wall clock is the parameter `now`, and sends are appended to `outbox`.
 */
module Handshake {
  import opened Wrappers
  import opened Messages

  /** A peer's record; either key may be missing (main.py seeds `{}`). */
  datatype PeerRecord = PeerRecord(mutual: Option<Value>, seenUtc: Option<nat>)

  /** The `peers` dictionary: its keys in insertion order and the record under each key. */
  datatype Table = Table(order: seq<Address>, records: map<Address, PeerRecord>)

  /** What one received message does: the new dictionary and the messages sent, in order. */
  datatype Step = Step(table: Table, sent: seq<Datagram>)

  /** The key order lists each key of the dictionary exactly once. */
  predicate WellFormed(t: Table)
  {
    && (forall i, j :: 0 <= i < j < |t.order| ==> t.order[i] != t.order[j])
    && (forall i :: 0 <= i < |t.order| ==> t.order[i] in t.records)
    && (forall a :: a in t.records ==> a in t.order)
  }

  const AckAdd: Value := Object([Field("action", Str("peer:ack-add")), Field("added?", Bool(true))])
  const AckBeat: Value := Object([Field("action", Str("peer:ack-beat"))])
  /** What `connection_made` sends; note the key is `mutual`, not `mutual?`. */
  const Greeting: Value := Object([Field("action", Str("peer:add")), Field("mutual", Bool(true))])

  /** `message.get('action')`. */
  function Action(message: seq<Field>): Value
  {
    GetOr(message, "action", Null)
  }

  /**
   * `peers[key] = record`: the record is replaced, and a new key goes to the
   * end of the iteration order while an existing key keeps its place.
   */
  function Assign(t: Table, key: Address, record: PeerRecord): (r: Table)
    ensures r.records == t.records[key := record]
    ensures WellFormed(t) ==> WellFormed(r)
    ensures WellFormed(t) && key in t.records ==> r.order == t.order
    ensures WellFormed(t) && key !in t.records ==> r.order == t.order + [key]
  {
    if key in t.order then Table(t.order, t.records[key := record])
    else Table(t.order + [key], t.records[key := record])
  }

  /**
   * `receive(message, sender)` as a function of the dictionary before it: the
   * dictionary after it and the replies sent. The ensures clauses are the
   * behaviour the unit tests describe, case by case.
   */
  function Transition(t: Table, message: seq<Field>, sender: Address, now: nat): (r: Step)
    requires WellFormed(t)
    ensures WellFormed(r.table)
    // a missing or falsy action: nothing happens
    ensures !Truthy(Action(message)) ==> r == Step(t, [])
    // a stranger is heard only when it says peer:add
    ensures sender !in t.records && Action(message) != Str("peer:add") ==> r == Step(t, [])
    // peer:add from a stranger: appended with the message's mutual? (default False) and seen now,
    // no other record touched, and acknowledged exactly once
    ensures sender !in t.records && Action(message) == Str("peer:add") ==>
      r == Step(Table(t.order + [sender],
                      t.records[sender := PeerRecord(Some(GetOr(message, "mutual?", Bool(false))), Some(now))]),
                [Datagram(AckAdd, sender)])
    // any action from a known sender: same keys in the same order, only the sender's record changes,
    // its seen-utc becomes now and its mutual? is replaced only by peer:ack-add
    ensures sender in t.records && Truthy(Action(message)) ==>
      r.table == Table(t.order, t.records[sender := PeerRecord(
        if Action(message) == Str("peer:ack-add") then Some(GetOr(message, "added?", Bool(false)))
        else t.records[sender].mutual,
        Some(now))])
    // replies to a known sender: peer:add is acknowledged, peer:beat answered, nothing else replied to
    ensures sender in t.records ==>
      r.sent == (if Action(message) == Str("peer:add") then [Datagram(AckAdd, sender)]
                 else if Action(message) == Str("peer:beat") then [Datagram(AckBeat, sender)]
                 else [])
  {
    var action := Action(message);
    if !Truthy(action) then Step(t, [])
    else if sender !in t.records then
      if action == Str("peer:add")
      then Step(Assign(t, sender, PeerRecord(Some(GetOr(message, "mutual?", Bool(false))), Some(now))),
                [Datagram(AckAdd, sender)])
      else Step(t, [])
    else
      var before := t.records[sender];
      var mutual :=
        if action == Str("peer:ack-add") then Some(GetOr(message, "added?", Bool(false))) else before.mutual;
      var sent :=
        if action == Str("peer:add") then [Datagram(AckAdd, sender)]
        else if action == Str("peer:beat") then [Datagram(AckBeat, sender)]
        else [];
      Step(Assign(t, sender, PeerRecord(mutual, Some(now))), sent)
  }

  /** The actions the handshake tells apart are different strings. */
  lemma ActionsDistinct()
    ensures Str("peer:add") != Str("peer:ack-add") && Str("peer:add") != Str("peer:beat")
    ensures Str("peer:ack-add") != Str("peer:beat")
  {
    assert |"peer:add"| != |"peer:ack-add"| && "peer:add"[5] != "peer:beat"[5] && |"peer:ack-add"| != |"peer:beat"|;
  }

  /**
   * The greeting says `mutual`, and a receiver reads `mutual?`: a node that
   * receives another node's greeting records it as not mutual.
   */
  lemma GreetingIsNotMutual(t: Table, sender: Address, now: nat)
    requires WellFormed(t) && sender !in t.records
    ensures Transition(t, Greeting.fields, sender, now).table.records[sender].mutual == Some(Bool(false))
  {
    assert Greeting.fields[0].key == "action";
    assert Action(Greeting.fields) == Str("peer:add");
    assert Get(Greeting.fields, "mutual?") == None;
  }

  class PeerProtocol {
    /** The keys of `self.peers`, in insertion order. */
    var order: seq<Address>
    /** The records of `self.peers`. */
    var peers: map<Address, PeerRecord>
    /** Everything sent so far, oldest first. */
    var outbox: seq<Datagram>

    ghost predicate Valid()
      reads this
    {
      WellFormed(Table(order, peers))
    }

    function Current(): Table
      reads this
    {
      Table(order, peers)
    }

    constructor ()
      ensures Valid() && order == [] && peers == map[] && outbox == []
    {
      order, peers, outbox := [], map[], [];
    }

    /**
     * `peers[peer] = record`: how main.py and the tests seed peers, and how
     * `receive` writes a known peer's changed record back.
     */
    method SetRecord(peer: Address, record: PeerRecord)
      requires Valid()
      modifies this
      ensures Valid()
      ensures Current() == Assign(old(Current()), peer, record)
      ensures outbox == old(outbox)
    {
      if peer !in peers {
        order := order + [peer];
      }
      peers := peers[peer := record];
    }

    /** `add_peer(peer, mutual_p)`: the record `{mutual?: mutual_p, seen-utc: now}`. */
    method AddPeer(peer: Address, mutualP: Value, now: nat)
      requires Valid()
      modifies this
      ensures Valid()
      ensures Current() == Assign(old(Current()), peer, PeerRecord(Some(mutualP), Some(now)))
      ensures outbox == old(outbox)
    {
      if peer !in peers {
        order := order + [peer];
      }
      peers := peers[peer := PeerRecord(Some(mutualP), Some(now))];
    }

    /** `connection_made`: greet every known peer, in iteration order. */
    method ConnectionMade()
      requires Valid()
      modifies this
      ensures Valid()
      ensures order == old(order) && peers == old(peers)
      ensures outbox == old(outbox) + SendEach(Greeting, order)
    {
      var i := 0;
      while i < |order|
        invariant 0 <= i <= |order|
        invariant order == old(order) && peers == old(peers)
        invariant outbox == old(outbox) + SendEach(Greeting, order[..i])
      {
        assert order[..i + 1] == order[..i] + [order[i]];
        SendEachSnoc(Greeting, order[..i], order[i]);
        outbox := outbox + [Datagram(Greeting, order[i])];
        i := i + 1;
      }
      assert order[..i] == order;
    }

    /** `receive(message, sender)`. */
    method Receive(message: seq<Field>, sender: Address, now: nat)
      requires Valid()
      modifies this
      ensures Valid()
      ensures Current() == Transition(old(Current()), message, sender, now).table
      ensures outbox == old(outbox) + Transition(old(Current()), message, sender, now).sent
    {
      var action := Action(message);
      if !Truthy(action) {
        return;
      }

      if action == Str("peer:add") {
        var mutualP := GetOr(message, "mutual?", Bool(false));
        if sender !in peers {
          AddPeer(sender, mutualP, now);
        }
        outbox := outbox + [Datagram(AckAdd, sender)];
      }

      if sender !in peers {
        return;
      }
      ActionsDistinct();
      HearFromPeer(message, sender, now);
    }

    /**
     * The part of `receive` that runs once the sender is known: it is seen
     * now, `peer:ack-add` sets its `mutual?` to the message's `added?`, and
     * `peer:beat` is answered with `peer:ack-beat`.
     */
    method HearFromPeer(message: seq<Field>, sender: Address, now: nat)
      requires Valid() && sender in peers
      modifies this
      ensures Valid()
      ensures Current() == Table(old(order), old(peers)[sender := PeerRecord(
        if Action(message) == Str("peer:ack-add") then Some(GetOr(message, "added?", Bool(false)))
        else old(peers)[sender].mutual,
        Some(now))])
      ensures outbox == old(outbox) + if Action(message) == Str("peer:beat") then [Datagram(AckBeat, sender)] else []
    {
      var action := Action(message);
      SetRecord(sender, peers[sender].(seenUtc := Some(now)));

      if action == Str("peer:ack-add") {
        var addedP := GetOr(message, "added?", Bool(false));
        SetRecord(sender, peers[sender].(mutual := Some(addedP)));
      }

      if action == Str("peer:beat") {
        outbox := outbox + [Datagram(AckBeat, sender)];
      }

      if action == Str("peer:ack-beat") {
        // only refreshes seen-utc, which is done above
      }
    }
  }
}
