/**
 * The flood dialect (`UDPSwarm` in peer.py).
 *
 * The node keeps an ordered list of peer addresses, never two equal ones and
 * never one with its own listening port. It learns addresses from `add-peer`
 * messages, answers `request-peers` with its list written as `"host:port"`
 * strings, and pushes `add-peer` to every address a `respond-peers` message
 * teaches it. Sends are appended to `outbox`.
 */
module Swarm {
  import opened Wrappers
  import opened Messages
  import HostPort

  /** The list invariant `add_peer` keeps: no duplicates and not the node's own port. */
  predicate Admissible(peers: seq<Address>, ownPort: int)
  {
    && (forall i, j :: 0 <= i < j < |peers| ==> peers[i] != peers[j])
    && (forall i :: 0 <= i < |peers| ==> peers[i].port != ownPort)
  }

  /** The result of one `add_peer`: whether it inserted, and the list after it. */
  datatype Insertion = Insertion(added: bool, peers: seq<Address>)

  /** What a handler or the bootstrap does: the list after it, what it sent, and whether it raised. */
  datatype Outcome = Outcome(peers: seq<Address>, sent: seq<Datagram>, raised: bool)

  function Message(action: string): Value
  {
    Object([Field("action", Str(action))])
  }

  const AddPeerMessage: Value := Message("add-peer")
  const RequestPeersMessage: Value := Message("request-peers")

  function RespondPeersMessage(peers: seq<Value>): Value
  {
    Object([Field("action", Str("respond-peers")), Field("peers", List(peers))])
  }

  /**
   * `add_peer(peer)`: refuse the node's own port and a known address,
   * otherwise append.
   */
  function Insert(peers: seq<Address>, ownPort: int, peer: Address): (r: Insertion)
    ensures r.added <==> peer.port != ownPort && peer !in peers
    ensures r.peers == if r.added then peers + [peer] else peers
    ensures Admissible(peers, ownPort) ==> Admissible(r.peers, ownPort)
  {
    if peer.port == ownPort then Insertion(false, peers)
    else if peer in peers then Insertion(false, peers)
    else Insertion(true, peers + [peer])
  }

  /** `add_peer` applied to each address in turn: the list after all of them. */
  function InsertAll(peers: seq<Address>, ownPort: int, addresses: seq<Address>): (r: seq<Address>)
    ensures |peers| <= |r| <= |peers| + |addresses|
    ensures r[..|peers|] == peers
    ensures forall a :: a in r <==> a in peers || (a in addresses && a.port != ownPort)
    ensures Admissible(peers, ownPort) ==> Admissible(r, ownPort)
    decreases |addresses|
  {
    if addresses == [] then peers
    else
      var rest := InsertAll(Insert(peers, ownPort, addresses[0]).peers, ownPort, addresses[1..]);
      assert addresses == [addresses[0]] + addresses[1..];
      rest
  }

  /** `['{}:{}'.format(*peer) for peer in peers]`. */
  function FormatAll(peers: seq<Address>): (r: seq<Value>)
    ensures |r| == |peers|
    ensures forall i :: 0 <= i < |peers| ==> r[i] == Str(HostPort.Format(peers[i]))
  {
    if peers == [] then [] else [Str(HostPort.Format(peers[0]))] + FormatAll(peers[1..])
  }

  /** One entry of a `peers` list: `split(':')` on anything but a string raises, modelled as None. */
  function ParseEntry(entry: Value): (r: Option<Address>)
    // anything but a string raises
    ensures !entry.Str? ==> r.None?
    // a parsed entry held exactly one colon, and its host none
    ensures r.Some? ==> HostPort.Count(entry.s, ':') == 1 && ':' !in r.value.host
  {
    match entry
    case Str(s) => HostPort.Parse(s)
    case _ => None
  }

  /**
   * What `for p in data.get('peers', [])` iterates over: nothing for a missing
   * key, the items of a list, the one-character strings of a string, the keys
   * of an object; None for null, booleans and integers, which raise TypeError.
   */
  function Entries(peers: Option<Value>): (r: Option<seq<Value>>)
    // iterating raises exactly for null, booleans and integers
    ensures r.None? <==> peers.Some? && (peers.value.Null? || peers.value.Bool? || peers.value.Int?)
    // a missing key is iterated as the empty default list
    ensures peers.None? ==> r == Some([])
    // a string yields one entry per character, an object one per key
    ensures peers.Some? && peers.value.Str? ==> r.Some? && |r.value| == |peers.value.s|
    ensures peers.Some? && peers.value.Str? ==>
      forall i :: 0 <= i < |peers.value.s| ==> r.value[i] == Str([peers.value.s[i]])
    ensures peers.Some? && peers.value.Object? ==> r.Some? && |r.value| == |peers.value.fields|
    ensures peers.Some? && peers.value.Object? ==>
      forall i :: 0 <= i < |peers.value.fields| ==> r.value[i] == Str(peers.value.fields[i].key)
    // a list yields its items
    ensures peers.Some? && peers.value.List? ==> r == Some(peers.value.items)
  {
    match peers
    case None => Some([])
    case Some(List(items)) => Some(items)
    case Some(Str(s)) => Some(seq(|s|, i requires 0 <= i < |s| => Str([s[i]])))
    case Some(Object(fields)) => Some(seq(|fields|, i requires 0 <= i < |fields| => Str(fields[i].key)))
    case Some(_) => None
  }

  /** A one-character string is never `"host:port"`: it splits into one piece, or into two with an empty port. */
  lemma OneCharacterNeverParses(c: char)
    ensures ParseEntry(Str([c])).None?
  {
    if c == ':' {
      assert [c][1..] == [];
      assert HostPort.Split([c], ':') == ["", ""];
    } else {
      assert HostPort.Split([c], ':') == [[c]];
    }
  }

  /**
   * A `respond-peers` whose `peers` value is a string: the loop walks its
   * characters, so a non-empty string raises at the first one with nothing
   * learned or sent, and the empty string does nothing.
   */
  lemma {:induction false} StringPeersRaise(peers: seq<Address>, ownPort: int, s: string, sender: Address)
    ensures
      var message := Object([Field("action", Str("respond-peers")), Field("peers", Str(s))]);
      Handle(peers, ownPort, Some(message), sender) == Outcome(peers, [], s != "")
  {
    var fields := [Field("action", Str("respond-peers")), Field("peers", Str(s))];
    assert fields[0].key != "peers" && fields[1..] == [Field("peers", Str(s))];
    assert Get(fields, "action") == Some(Str("respond-peers"));
    assert Get(fields, "peers") == Some(Str(s));
    var entries := Entries(Some(Str(s))).value;
    if s != "" {
      assert entries[0] == Str([s[0]]);
      OneCharacterNeverParses(s[0]);
      FloodUnfold(peers, ownPort, entries, 0);
      assert entries[0..] == entries;
    } else {
      assert entries == [];
    }
  }

  /** The addresses of the entries before the first one that does not parse. */
  function Parsed(entries: seq<Value>): (r: seq<Address>)
    ensures |r| <= |entries|
  {
    if entries == [] then []
    else match ParseEntry(entries[0])
      case None => []
      case Some(a) => [a] + Parsed(entries[1..])
  }

  /** Each address of Parsed is the parse of the entry at its position. */
  lemma {:induction false} ParsedAt(entries: seq<Value>, i: nat)
    requires i < |Parsed(entries)|
    ensures ParseEntry(entries[i]) == Some(Parsed(entries)[i])
  {
    var tail := entries[1..];
    ParsedCons(entries[0], tail, ParseEntry(entries[0]).value);
    assert [entries[0]] + tail == entries;
    if i > 0 {
      ParsedAt(tail, i - 1);
      assert entries[i] == tail[i - 1];
    }
  }

  /** Parsed stops short of the whole list exactly at an entry that does not parse. */
  lemma {:induction false} ParsedStops(entries: seq<Value>)
    ensures |Parsed(entries)| < |entries| ==> ParseEntry(entries[|Parsed(entries)|]).None?
  {
    if entries != [] && ParseEntry(entries[0]).Some? {
      var tail := entries[1..];
      ParsedStops(tail);
      ParsedCons(entries[0], tail, ParseEntry(entries[0]).value);
      assert [entries[0]] + tail == entries;
      if |Parsed(tail)| < |tail| {
        assert entries[|Parsed(entries)|] == tail[|Parsed(tail)|];
      }
    }
  }

  /**
   * The `respond-peers` loop: parse each entry, insert it, push `add-peer` to
   * it if it was new; a malformed entry raises and ends the loop, keeping what
   * was done before it.
   */
  function Flood(peers: seq<Address>, ownPort: int, entries: seq<Value>): (r: Outcome)
    ensures Admissible(peers, ownPort) ==> Admissible(r.peers, ownPort)
    decreases |entries|
  {
    if entries == [] then Outcome(peers, [], false)
    else match ParseEntry(entries[0])
      case None => Outcome(peers, [], true)
      case Some(a) =>
        var step := Insert(peers, ownPort, a);
        var rest := Flood(step.peers, ownPort, entries[1..]);
        Outcome(rest.peers, (if step.added then [Datagram(AddPeerMessage, a)] else []) + rest.sent, rest.raised)
  }

  /** Flood over the entries from position `i`, one entry unrolled. */
  lemma FloodUnfold(peers: seq<Address>, ownPort: int, entries: seq<Value>, i: nat)
    requires i < |entries|
    ensures ParseEntry(entries[i]).None? ==> Flood(peers, ownPort, entries[i..]) == Outcome(peers, [], true)
    ensures ParseEntry(entries[i]).Some? ==>
      var step := Insert(peers, ownPort, ParseEntry(entries[i]).value);
      var next := Flood(step.peers, ownPort, entries[i + 1..]);
      Flood(peers, ownPort, entries[i..]) ==
        Outcome(next.peers, (if step.added then [Datagram(AddPeerMessage, ParseEntry(entries[i]).value)] else []) + next.sent, next.raised)
  {
    assert entries[i..][0] == entries[i] && entries[i..][1..] == entries[i + 1..];
  }

  /**
   * The respond-peers loop raises exactly when some entry is malformed, and
   * the list it leaves is `add_peer` applied to the entries before the first
   * malformed one.
   */
  lemma {:induction false} FloodPeers(peers: seq<Address>, ownPort: int, entries: seq<Value>)
    ensures Flood(peers, ownPort, entries).raised <==> |Parsed(entries)| < |entries|
    ensures Flood(peers, ownPort, entries).peers == InsertAll(peers, ownPort, Parsed(entries))
    decreases |entries|
  {
    if entries != [] {
      match ParseEntry(entries[0])
      case None =>
      case Some(a) =>
        FloodPeers(Insert(peers, ownPort, a).peers, ownPort, entries[1..]);
        var ps := Parsed(entries[1..]);
        assert Parsed(entries) == [a] + ps;
        assert ([a] + ps)[0] == a && ([a] + ps)[1..] == ps;
    }
  }

  /** The loop pushes `add-peer` to the newly added addresses, one push each, in the order they were added. */
  lemma {:induction false} FloodPushes(peers: seq<Address>, ownPort: int, entries: seq<Value>)
    ensures |peers| <= |Flood(peers, ownPort, entries).peers|
    ensures Flood(peers, ownPort, entries).sent == SendEach(AddPeerMessage, Flood(peers, ownPort, entries).peers[|peers|..])
    decreases |entries|
  {
    var r := Flood(peers, ownPort, entries);
    if entries == [] || ParseEntry(entries[0]).None? {
      assert r.peers[|peers|..] == [];
    } else {
      var a := ParseEntry(entries[0]).value;
      var step := Insert(peers, ownPort, a);
      FloodPushes(step.peers, ownPort, entries[1..]);
      if step.added {
        FloodPeers(step.peers, ownPort, entries[1..]);
        FloodPushesAdded(peers, a, Flood(step.peers, ownPort, entries[1..]));
      }
    }
  }

  /** The step of FloodPushes where the first entry was added. */
  lemma FloodPushesAdded(peers: seq<Address>, a: Address, rest: Outcome)
    requires |peers| + 1 <= |rest.peers| && rest.peers[..|peers| + 1] == peers + [a]
    requires rest.sent == SendEach(AddPeerMessage, rest.peers[|peers| + 1..])
    ensures [Datagram(AddPeerMessage, a)] + rest.sent == SendEach(AddPeerMessage, rest.peers[|peers|..])
  {
    assert rest.peers[..|peers| + 1][|peers|] == rest.peers[|peers|];
    assert rest.peers[|peers|..] == [a] + rest.peers[|peers| + 1..];
    SendEachCons(AddPeerMessage, a, rest.peers[|peers| + 1..]);
  }

  /** `data.get('action')` for a decoded datagram: null unless it decoded to an object with that key. */
  function Action(datagram: Option<Value>): Value
  {
    match datagram
    case Some(Object(fields)) => GetOr(fields, "action", Null)
    case _ => Null
  }

  /**
   * `message_handler(transport, sender, data)` with `data` already decoded
   * (None where decoding failed).
   */
  function Handle(peers: seq<Address>, ownPort: int, datagram: Option<Value>, sender: Address): (r: Outcome)
    ensures Admissible(peers, ownPort) ==> Admissible(r.peers, ownPort)
    // undecodable, not an object, no or empty action, or an unknown action: nothing happens
    ensures Action(datagram) !in {Str("add-peer"), Str("request-peers"), Str("respond-peers")} ==>
      r == Outcome(peers, [], false)
    // add-peer: the sender is inserted when admissible, nothing is sent
    ensures Action(datagram) == Str("add-peer") ==>
      r == Outcome(Insert(peers, ownPort, sender).peers, [], false)
    // request-peers: one reply to the sender listing the peers, in order, as "host:port"
    ensures Action(datagram) == Str("request-peers") ==>
      r == Outcome(peers, [Datagram(RespondPeersMessage(FormatAll(peers)), sender)], false)
    // respond-peers: the entries are flooded; a peers value that cannot be iterated raises at once
    ensures Action(datagram) == Str("respond-peers") ==>
      r == match Entries(Get(datagram.value.fields, "peers"))
           case None => Outcome(peers, [], true)
           case Some(entries) => Flood(peers, ownPort, entries)
  {
    match datagram
    case Some(Object(fields)) =>
      var action := GetOr(fields, "action", Null);
      if action == Str("add-peer") then
        Outcome(Insert(peers, ownPort, sender).peers, [], false)
      else if action == Str("request-peers") then
        Outcome(peers, [Datagram(RespondPeersMessage(FormatAll(peers)), sender)], false)
      else if action == Str("respond-peers") then
        match Entries(Get(fields, "peers"))
        case None => Outcome(peers, [], true)
        case Some(entries) => Flood(peers, ownPort, entries)
      else Outcome(peers, [], false)
    case _ => Outcome(peers, [], false)
  }

  /**
   * `on_connect`: for each seed in order, send it `add-peer` and then
   * `request-peers`, then `add_peer` it.
   */
  function Bootstrap(peers: seq<Address>, ownPort: int, seeds: seq<Address>): (r: Outcome)
    ensures !r.raised
    ensures Admissible(peers, ownPort) ==> Admissible(r.peers, ownPort)
    decreases |seeds|
  {
    if seeds == [] then Outcome(peers, [], false)
    else
      var seed := seeds[0];
      var rest := Bootstrap(Insert(peers, ownPort, seed).peers, ownPort, seeds[1..]);
      Outcome(rest.peers, [Datagram(AddPeerMessage, seed), Datagram(RequestPeersMessage, seed)] + rest.sent, false)
  }

  /** Bootstrap over the seeds from position `i`, one seed unrolled. */
  lemma BootstrapUnfold(peers: seq<Address>, ownPort: int, seeds: seq<Address>, i: nat)
    requires i < |seeds|
    ensures
      var next := Bootstrap(Insert(peers, ownPort, seeds[i]).peers, ownPort, seeds[i + 1..]);
      Bootstrap(peers, ownPort, seeds[i..]) ==
        Outcome(next.peers, [Datagram(AddPeerMessage, seeds[i]), Datagram(RequestPeersMessage, seeds[i])] + next.sent, false)
  {
    assert seeds[i..][0] == seeds[i] && seeds[i..][1..] == seeds[i + 1..];
  }

  /** Two messages to each recipient in turn: `first` and then `second`. */
  function SendEachTwice(first: Value, second: Value, recipients: seq<Address>): (r: seq<Datagram>)
    ensures |r| == 2 * |recipients|
  {
    if recipients == [] then []
    else [Datagram(first, recipients[0]), Datagram(second, recipients[0])] + SendEachTwice(first, second, recipients[1..])
  }

  /** The recipient at position `i` gets messages `2 * i` and `2 * i + 1`. */
  lemma {:induction false} SendEachTwiceAt(first: Value, second: Value, recipients: seq<Address>, i: nat)
    requires i < |recipients|
    ensures SendEachTwice(first, second, recipients)[2 * i] == Datagram(first, recipients[i])
    ensures SendEachTwice(first, second, recipients)[2 * i + 1] == Datagram(second, recipients[i])
  {
    if i > 0 {
      SendEachTwiceAt(first, second, recipients[1..], i - 1);
    }
  }

  /**
   * The bootstrap greets every seed, own port included, and then holds
   * `add_peer` applied to the seeds in order.
   */
  lemma {:induction false} BootstrapSpec(peers: seq<Address>, ownPort: int, seeds: seq<Address>)
    ensures Bootstrap(peers, ownPort, seeds).peers == InsertAll(peers, ownPort, seeds)
    ensures Bootstrap(peers, ownPort, seeds).sent == SendEachTwice(AddPeerMessage, RequestPeersMessage, seeds)
    decreases |seeds|
  {
    if seeds != [] {
      BootstrapSpec(Insert(peers, ownPort, seeds[0]).peers, ownPort, seeds[1..]);
    }
  }

  /** Parsing a formatted peer list gives the list back, when no host holds a colon. */
  lemma {:induction false} ParsedFormatAll(peers: seq<Address>)
    requires forall i :: 0 <= i < |peers| ==> ':' !in peers[i].host
    ensures Parsed(FormatAll(peers)) == peers
  {
    if peers != [] {
      HostPort.ParseFormat(peers[0]);
      ParsedFormatAll(peers[1..]);
      ParsedCons(Str(HostPort.Format(peers[0])), FormatAll(peers[1..]), peers[0]);
    }
  }

  /** An entry that parses is kept in front of what the rest parses to. */
  lemma ParsedCons(entry: Value, rest: seq<Value>, a: Address)
    requires ParseEntry(entry) == Some(a)
    ensures Parsed([entry] + rest) == [a] + Parsed(rest)
  {
    assert ([entry] + rest)[1..] == rest;
  }

  /** A `request-peers` is answered with the current list and changes nothing. */
  lemma RequestAnswered(theirs: seq<Address>, theirPort: int, me: Address)
    ensures Handle(theirs, theirPort, Some(RequestPeersMessage), me) ==
      Outcome(theirs, [Datagram(RespondPeersMessage(FormatAll(theirs)), me)], false)
  {
    assert Action(Some(RequestPeersMessage)) == Str("request-peers");
  }

  /** A `respond-peers` answer carrying a list is handled by the flood loop over that list. */
  lemma AnswerIsFlooded(peers: seq<Address>, ownPort: int, entries: seq<Value>, sender: Address)
    ensures Handle(peers, ownPort, Some(RespondPeersMessage(entries)), sender) == Flood(peers, ownPort, entries)
  {
    var reply := RespondPeersMessage(entries);
    assert Action(Some(reply)) == Str("respond-peers");
    assert Entries(Get(reply.fields, "peers")) == Some(entries);
  }

  /** Handling another node's answer inserts its list and pushes to what is new, without raising. */
  lemma {:induction false} AnswerLearned(mine: seq<Address>, ownPort: int, theirs: seq<Address>, them: Address)
    requires forall i :: 0 <= i < |theirs| ==> ':' !in theirs[i].host
    ensures
      var answer := Handle(mine, ownPort, Some(RespondPeersMessage(FormatAll(theirs))), them);
      && !answer.raised
      && answer.peers == InsertAll(mine, ownPort, theirs)
      && answer.sent == SendEach(AddPeerMessage, answer.peers[|mine|..])
  {
    AnswerIsFlooded(mine, ownPort, FormatAll(theirs), them);
    FloodPeers(mine, ownPort, FormatAll(theirs));
    FloodPushes(mine, ownPort, FormatAll(theirs));
    ParsedFormatAll(theirs);
  }

  /**
   * A node asks another for its peers and handles the answer: nothing
   * raises, it ends with `add_peer` applied to the other's list (every
   * address on it except those with its own port), and it pushes `add-peer`
   * to each address it did not know, once.
   */
  lemma Exchange(mine: seq<Address>, ownPort: int, me: Address, theirs: seq<Address>, theirPort: int, them: Address)
    requires forall i :: 0 <= i < |theirs| ==> ':' !in theirs[i].host
    ensures
      var request := Handle(theirs, theirPort, Some(RequestPeersMessage), me);
      && request.peers == theirs
      && |request.sent| == 1 && request.sent[0].to == me
      && var answer := Handle(mine, ownPort, Some(request.sent[0].message), them);
      && !answer.raised
      && answer.peers == InsertAll(mine, ownPort, theirs)
      && answer.sent == SendEach(AddPeerMessage, answer.peers[|mine|..])
  {
    RequestAnswered(theirs, theirPort, me);
    AnswerLearned(mine, ownPort, theirs, them);
  }

  lemma AppendAssociates<T>(a: seq<T>, b: seq<T>, c: seq<T>)
    ensures (a + b) + c == a + (b + c)
  {
  }

  class UDPSwarm {
    /** The listening port. */
    const port: int
    /** `self.peers`. */
    var peers: seq<Address>
    /** Everything sent so far, oldest first. */
    var outbox: seq<Datagram>

    ghost predicate Valid()
      reads this
    {
      Admissible(peers, port)
    }

    constructor (port: int)
      ensures Valid() && this.port == port && peers == [] && outbox == []
    {
      this.port := port;
      peers, outbox := [], [];
    }

    /** `add_peer(peer)`. */
    method AddPeer(peer: Address) returns (added: bool)
      requires Valid()
      modifies this
      ensures Valid()
      ensures Insertion(added, peers) == Insert(old(peers), port, peer)
      ensures outbox == old(outbox)
    {
      if peer.port == port {
        return false;
      }
      if peer in peers {
        return false;
      }
      peers := peers + [peer];
      return true;
    }

    /**
     * `message_handler(transport, sender, data)`, with `data` already decoded
     * (None where `json_decode` raised); `raised` tells whether the handler
     * ended by raising out of the respond-peers loop.
     */
    method MessageHandler(sender: Address, datagram: Option<Value>) returns (raised: bool)
      requires Valid()
      modifies this
      ensures Valid()
      ensures peers == Handle(old(peers), port, datagram, sender).peers
      ensures outbox == old(outbox) + Handle(old(peers), port, datagram, sender).sent
      ensures raised == Handle(old(peers), port, datagram, sender).raised
    {
      raised := false;
      if datagram.None? || !datagram.value.Object? {
        return;
      }
      var data := datagram.value.fields;
      var action := GetOr(data, "action", Null);
      if !Truthy(action) {
        return;
      }

      if action == Str("add-peer") {
        var _ := AddPeer(sender);
      } else if action == Str("request-peers") {
        outbox := outbox + [Datagram(RespondPeersMessage(FormatAll(peers)), sender)];
      } else if action == Str("respond-peers") {
        var entries := Entries(Get(data, "peers"));
        if entries.None? {
          raised := true;
          return;
        }
        raised := RespondPeers(entries.value);
      }
    }

    /** The body of the respond-peers branch: the loop over the entries. */
    method RespondPeers(entries: seq<Value>) returns (raised: bool)
      requires Valid()
      modifies this
      ensures Valid()
      ensures peers == Flood(old(peers), port, entries).peers
      ensures outbox == old(outbox) + Flood(old(peers), port, entries).sent
      ensures raised == Flood(old(peers), port, entries).raised
    {
      ghost var goal := Flood(peers, port, entries);
      var i := 0;
      while i < |entries|
        invariant 0 <= i <= |entries|
        invariant Valid()
        invariant Flood(peers, port, entries[i..]).peers == goal.peers
        invariant Flood(peers, port, entries[i..]).raised == goal.raised
        invariant outbox + Flood(peers, port, entries[i..]).sent == old(outbox) + goal.sent
      {
        var parsed := Learn(entries, i);
        if !parsed {
          return true;
        }
        i := i + 1;
      }
      assert entries[i..] == [];
      return false;
    }

    /**
     * One pass of the respond-peers loop at entry `i`: parse it, `add_peer`
     * it and push `add-peer` to it if it was new. What is left of the loop
     * after the pass, with what the pass sent, is the loop from `i`; a
     * malformed entry ends the loop raising and changing nothing.
     */
    method Learn(entries: seq<Value>, i: nat) returns (parsed: bool)
      requires Valid() && i < |entries|
      modifies this
      ensures Valid()
      ensures parsed == ParseEntry(entries[i]).Some?
      ensures !parsed ==> peers == old(peers) && outbox == old(outbox)
      ensures !parsed ==> Flood(peers, port, entries[i..]) == Outcome(peers, [], true)
      ensures parsed ==> Flood(peers, port, entries[i + 1..]).peers == Flood(old(peers), port, entries[i..]).peers
      ensures parsed ==> Flood(peers, port, entries[i + 1..]).raised == Flood(old(peers), port, entries[i..]).raised
      ensures parsed ==> outbox + Flood(peers, port, entries[i + 1..]).sent == old(outbox) + Flood(old(peers), port, entries[i..]).sent
    {
      FloodUnfold(peers, port, entries, i);
      var address := ParseEntry(entries[i]);
      if address.None? {
        return false;
      }
      var peer := address.value;
      ghost var before := outbox;
      var wasAdded := AddPeer(peer);
      var pushed := if wasAdded then [Datagram(AddPeerMessage, peer)] else [];
      outbox := outbox + pushed;
      AppendAssociates(before, pushed, Flood(peers, port, entries[i + 1..]).sent);
      return true;
    }

    /** The `on_connect` closure of `run(init_peers)`. */
    method OnConnect(seeds: seq<Address>)
      requires Valid()
      modifies this
      ensures Valid()
      ensures peers == Bootstrap(old(peers), port, seeds).peers
      ensures outbox == old(outbox) + Bootstrap(old(peers), port, seeds).sent
    {
      ghost var goal := Bootstrap(peers, port, seeds);
      ghost var before := outbox;
      for i := 0 to |seeds|
        invariant Valid()
        invariant Bootstrap(peers, port, seeds[i..]).peers == goal.peers
        invariant outbox + Bootstrap(peers, port, seeds[i..]).sent == before + goal.sent
      {
        BootstrapUnfold(peers, port, seeds, i);
        var seed := seeds[i];
        ghost var greeted := outbox;
        outbox := outbox + [Datagram(AddPeerMessage, seed), Datagram(RequestPeersMessage, seed)];
        var _ := AddPeer(seed);
        AppendAssociates(greeted, [Datagram(AddPeerMessage, seed), Datagram(RequestPeersMessage, seed)], Bootstrap(peers, port, seeds[i + 1..]).sent);
      }
    }
  }
}
