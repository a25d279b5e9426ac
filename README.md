# Peer discovery over datagrams: a Dafny model

This project models the two peer-table state machines of a small
peer-discovery prototype and proves properties of them. In each state
machine a node handles one decoded datagram at a time. It updates its table
of known peers and sends replies.

- **The handshake dialect.** `PeerProtocol` in protocol.py. The table maps a
  peer address to a record with the optional keys `mutual?` and `seen-utc`.
  A stranger is only heard when it says `peer:add`; the node answers with
  `peer:ack-add`. A known peer's `peer:ack-add` sets its `mutual?`, and
  `peer:beat` is answered with `peer:ack-beat`. Every message with a truthy
  action from a known peer refreshes that peer's `seen-utc`; an empty or
  missing action changes nothing. On start, `connection_made` greets every
  seeded peer with `peer:add`.
- **The flood dialect.** `UDPSwarm` in peer.py. The table is a list of
  addresses with no duplicates and never the node's own port.
  - `add-peer` inserts the sender.
  - `request-peers` is answered with the list, each entry written as
    `"host:port"`.
  - `respond-peers` parses each entry of the list it carries, inserts it
    and pushes `add-peer` to every address that was new.
  - An entry that does not parse raises out of the handler. What was done
    before that entry is kept.
  - On start, the node sends `add-peer` and `request-peers` to each seed and
    inserts the seed.

Modules:

- `Wrappers` holds `Option`.
- `Messages` holds the decoded JSON values, addresses and datagrams, and
  `get` and truthiness as the source uses them.
- `HostPort` holds the `"host:port"` text form: `'{}:{}'.format`,
  `str.split(':')` and `int()`.
- `Handshake` models protocol.py.
- `Swarm` models peer.py.
- `Scenarios` replays the handshake unit tests (protocol.py:173-324) and two
  two-node exchanges, using only the classes' contracts.

The pieces are modelled as follows:

- Each class keeps the source's peer table. `PeerProtocol` drops `encoder`
  (protocol.py:12) and `_transport` (protocol.py:18); `outbox` stands in for
  what they do, which is to encode and send. The handshake dictionary is split
  into `order`, its keys in insertion order, and `peers`, a map of records.
- Every send is appended to `outbox`.
- The clock is the parameter `now`.
- Each method is proved against a pure function. `Receive` is proved
  against `Transition`, `SetRecord` and the handshake `AddPeer` against
  `Assign`, and `ConnectionMade` against `SendEach`; `HearFromPeer` states
  its new record outright. `MessageHandler` is proved against `Handle`, the flood
  `AddPeer` against `Insert`, `RespondPeers` and `Learn` against `Flood`,
  and `OnConnect` against `Bootstrap`. Those functions carry the contracts
  and lemmas for the properties. `Transition` requires `WellFormed`, which says
  that `order` lists each key of the map exactly once. That is the invariant
  of a Python dictionary, not a demand the source makes of its callers.

Some behaviours of the code are easy to misread; the model follows the code:

- `peer:add` from a stranger stores the message's own `mutual?` value, with
  False as the default. It does not store a fixed false (protocol.py:67).
- `seen-utc` is refreshed for any truthy action from a known peer, including
  actions that are not recognised (protocol.py:74-75).
- `connection_made` sends the key `mutual` and not `mutual?`
  (protocol.py:55), so a receiver records the greeter as not mutual.
  `Handshake.GreetingIsNotMutual` and `Scenarios.HandshakePair` state this.
- The handshake dialect has no guard against the node's own address. The
  flood dialect's guard compares ports only (peer.py:38).
- In the two-node bootstrap, B's answer to A is not empty. B inserts A on
  the `add-peer` that arrives first, so its answer lists A, and A drops that
  entry because it carries A's own port (`Scenarios.SeededPair`).
- An undecodable datagram is ignored by the flood dialect. In the handshake
  dialect, `json.loads` raises inside `datagram_received` (protocol.py:21),
  before `receive` runs.

## Model

| member | source | states |
|---|---|---|
| Messages.GetSpec | protocol.py:61 | `d.get(key)` finds nothing exactly when no field has the key; otherwise it gives the value of the first field with that key |
| Messages.FalsyValues | protocol.py:63 | `not action` holds exactly for null, false, zero and the empty string, list and object, as in `if not action` (also peer.py:63) |
| Messages.SendEach | protocol.py:50-58 | one datagram per recipient, in the recipients' order, each carrying the same message |
| Messages.SendEachCons | protocol.py:50-58 | sending to a first recipient and then the rest is that send followed by the sends to the rest |
| HostPort.DigitChar | peer.py:74 | the digit character for a value below ten is a decimal digit denoting that value |
| HostPort.NatToDigits | peer.py:74 | `str(n)` of a natural number is a non-empty string of decimal digits whose value is `n` |
| HostPort.IntToString | peer.py:74 | the decimal text of a port never contains `':'` |
| HostPort.TrimStart | peer.py:82 | `int()` drops exactly the leading run of whitespace characters |
| HostPort.TrimEnd | peer.py:82 | `int()` drops exactly the trailing run of whitespace characters |
| HostPort.Split | peer.py:81 | `s.split(':')` gives one more piece than `s` has colons; no piece contains a colon; joining the pieces with `':'` gives `s` back |
| HostPort.Parse | peer.py:81-83 | an entry parses only when it has exactly one colon, and the parsed host then contains none |
| HostPort.CountConcat | peer.py:81 | the count of colons in a concatenation is the sum of the counts of its parts |
| HostPort.CountZero | peer.py:81 | a string has no colon exactly when its colon count is zero |
| HostPort.SplitAfter | peer.py:81 | a colon-free piece followed by a colon splits off as the first piece |
| HostPort.SplitWhole | peer.py:81 | a colon-free string splits into itself alone |
| HostPort.SplitJoin | peer.py:81 | splitting undoes joining colon-free pieces |
| HostPort.DigitsHaveNoSpace | peer.py:82 | a string of digits is left as it is by the whitespace trimming of `int()` |
| HostPort.ParseIntToString | peer.py:82 | `int(str(n)) == n` for every integer, negative ones included (the digit limit of newer Pythons is left out, see below) |
| HostPort.ParseIntDigits | peer.py:82 | `int()` of a non-empty string of decimal digits is the number they denote |
| HostPort.ParseIntBlank | peer.py:82 | `int()` of an empty or all-whitespace string raises |
| HostPort.ParseIntRejects | peer.py:82 | `int()` raises on any string holding a character that is not whitespace, a sign or a decimal digit |
| HostPort.TrimKeeps | peer.py:82 | a non-whitespace character is never stripped by `int()` |
| HostPort.ReadSignedRejects | peer.py:82 | between the whitespace, `int()` accepts only an optional sign followed by digits: any other character makes it raise |
| HostPort.SeparatorIsNotSpace | peer.py:82 | `int('\x1c5')` raises: the ASCII separators are not whitespace to `int()` |
| HostPort.Format | peer.py:74 | `'{}:{}'.format(host, port)` is the host, one colon, then the colon-free decimal text of the port |
| HostPort.ParseFormat | peer.py:74-83 | parsing `'{}:{}'.format(host, port)` gives `(host, port)` back exactly when the host has no colon, and fails when it has one |
| Handshake.Assign | protocol.py:93-96 | `peers[key] = record` replaces the key's record and no other; a new key goes to the end of the iteration order and an existing key keeps its place; every key stays listed once |
| Handshake.Transition | protocol.py:60-89 | case by case: no or falsy action does nothing; a stranger is heard only on `peer:add`, which appends it with the message's `mutual?` (default False), seen now, and acknowledges it exactly once; a known sender keeps its place, is seen now, has its `mutual?` replaced only by `peer:ack-add` with `added?` (default False), gets `peer:ack-add` for `peer:add`, `peer:ack-beat` for `peer:beat` and no reply otherwise; no other record changes |
| Handshake.GreetingIsNotMutual | protocol.py:52-67 | a node receiving another node's greeting records it with `mutual?` False, because the greeting carries `mutual` and not `mutual?` |
| Handshake.PeerProtocol.constructor | protocol.py:43-45 | a new node has no peers and has sent nothing |
| Handshake.PeerProtocol.SetRecord | main.py:32 | `peers[peer] = record`, as main.py and the tests seed peers: the table becomes `Assign` of the old one and nothing is sent |
| Handshake.PeerProtocol.AddPeer | protocol.py:91-96 | the peer's record becomes `{mutual?: mutual_p, seen-utc: now}`, placed as a dictionary assignment places it; nothing is sent |
| Handshake.PeerProtocol.ConnectionMade | protocol.py:47-58 | exactly one `peer:add` greeting to every key, in iteration order, and the table is left unchanged |
| Handshake.PeerProtocol.Receive | protocol.py:60-77 | the new table and the messages sent are those of `Transition` on the old table |
| Handshake.PeerProtocol.HearFromPeer | protocol.py:74-89 | for a known sender: same keys in the same order; its record is seen now and has its `mutual?` replaced only on `peer:ack-add`; only `peer:beat` draws a reply, one `peer:ack-beat` |
| Swarm.Insert | peer.py:36-46 | `add_peer` inserts exactly when the port is not the node's own and the address is not listed; it then appends at the end, otherwise the list is unchanged; the list stays free of duplicates and of the own port |
| Swarm.InsertAll | peer.py:36-46 | `add_peer` applied to a sequence of addresses keeps the old list as a prefix; afterwards an address is listed exactly when it was before or it was offered and has another port; duplicate-free and own-port-free are preserved |
| Swarm.FormatAll | peer.py:74 | the `peers` field of the answer lists every peer, in order, as `"host:port"` |
| Swarm.ParseEntry | peer.py:81-83 | an entry that is not a string raises on `split`; a parsed entry held exactly one colon and its host holds none |
| Swarm.Entries | peer.py:80 | what `for p in data.get('peers', [])` iterates: a missing key gives nothing; iterating raises exactly for null, booleans and integers; a list gives its items, a string its one-character strings in order and an object its keys in order |
| Swarm.OneCharacterNeverParses | peer.py:81-83 | a one-character entry never parses: it splits into one piece, or for `':'` into two pieces with an empty port |
| Swarm.StringPeersRaise | peer.py:79-83 | a `respond-peers` whose `peers` is a string raises at its first character with nothing learned or sent; the empty string does nothing |
| Swarm.Parsed | peer.py:80-83 | the addresses parsed before the first malformed entry are at most as many as the entries |
| Swarm.ParsedAt | peer.py:81-83 | each parsed address is the parse of the entry at its position |
| Swarm.ParsedStops | peer.py:81-83 | parsing stops short of the whole list only at an entry that does not parse |
| Swarm.ParsedCons | peer.py:80-83 | an entry that parses is kept in front of what the remaining entries parse to |
| Swarm.Flood | peer.py:79-87 | the respond-peers loop keeps the list duplicate-free and own-port-free |
| Swarm.FloodUnfold | peer.py:80-87 | one pass of that loop: a malformed entry raises and changes nothing; otherwise the entry is inserted, pushed to if new, and the loop goes on |
| Swarm.FloodPeers | peer.py:79-87 | the loop raises exactly when some entry is malformed; the list it leaves is `add_peer` applied to the entries before the first malformed one |
| Swarm.FloodPushes | peer.py:85-87 | the loop pushes `add-peer` to exactly the newly added addresses, once each, in the order they were added, so the number of pushes is the growth of the list |
| Swarm.FloodPushesAdded | peer.py:85-87 | a push to a newly added first entry comes first among the pushes to the new part of the list |
| Swarm.Handle | peer.py:48-90 | undecodable input, a non-object, a missing or falsy action, or an unknown action changes nothing and sends nothing; `add-peer` is `add_peer(sender)` with no reply; `request-peers` sends one `respond-peers` with the formatted list to the requester and changes nothing; for `respond-peers`, a `peers` value that cannot be iterated raises at once and anything else goes through the loop; the list stays duplicate-free and own-port-free |
| Swarm.Bootstrap | peer.py:95-100 | the bootstrap never raises and keeps the list duplicate-free and own-port-free |
| Swarm.BootstrapUnfold | peer.py:96-100 | one seed of the bootstrap: `add-peer`, then `request-peers`, then `add_peer(seed)`, then the remaining seeds |
| Swarm.SendEachTwice | peer.py:98-99 | two messages per seed |
| Swarm.SendEachTwiceAt | peer.py:98-99 | the seed at position `i` receives messages `2i` (`add-peer`) and `2i+1` (`request-peers`) |
| Swarm.BootstrapSpec | peer.py:95-100 | the bootstrap sends `add-peer` then `request-peers` to every seed, in order, own port included, and leaves `add_peer` applied to the seeds in order |
| Swarm.ParsedFormatAll | peer.py:74-83 | parsing a formatted list gives the list back when no host contains a colon |
| Swarm.RequestAnswered | peer.py:70-77 | a `request-peers` is answered with the current list and changes nothing |
| Swarm.AnswerIsFlooded | peer.py:79-80 | a `respond-peers` carrying a list is handled by the loop over that list |
| Swarm.AnswerLearned | peer.py:79-87 | handling another node's answer never raises; it inserts that node's list and pushes `add-peer` to what was new |
| Swarm.Exchange | peer.py:70-87 | a request and its answer: the answering node is unchanged and replies once to the requester; the requester then ends with `add_peer` applied to the other node's list and pushes `add-peer` to each address it did not know, once |
| Swarm.UDPSwarm.constructor | peer.py:32-34 | a new node has its port, no peers and no sends |
| Swarm.UDPSwarm.AddPeer | peer.py:36-46 | the result and the new list are those of `Insert`; nothing is sent |
| Swarm.UDPSwarm.MessageHandler | peer.py:48-92 | the new list, the sends and whether it raised are those of `Handle` |
| Swarm.UDPSwarm.RespondPeers | peer.py:79-87 | the loop over the entries leaves the list, the sends and the raise of `Flood` |
| Swarm.UDPSwarm.Learn | peer.py:80-87 | one pass of the loop: it tells whether the entry parsed; a malformed entry changes nothing and the loop raises there; otherwise the rest of the loop after the pass gives what the loop from this entry gives |
| Swarm.UDPSwarm.OnConnect | peer.py:95-100 | the new list and the sends are those of `Bootstrap` |
| Scenarios.Connected | protocol.py:182-183 | a fresh node after `connection_made` with no peers holds nothing and has sent nothing |
| Scenarios.ConnectedKnowingTestPeer | protocol.py:232-236 | a fresh node seeded with `{'mutual?': False}` for the test peer |
| Scenarios.NoActionIsIgnored | protocol.py:178-186 | a message without an action draws no reply and adds nobody |
| Scenarios.PeerAddAddsPeer | protocol.py:188-216 | `peer:add` from a stranger draws exactly one `peer:ack-add` with `added?` true, and the stranger is recorded, not mutual, seen now |
| Scenarios.StrangerIsIgnored | protocol.py:218-226 | `peer:ack-add`, `peer:beat` and `peer:ack-beat` from a stranger draw no reply and add nobody (also the tests at protocol.py:267-275 and 304-312) |
| Scenarios.AckAddSetsMutual | protocol.py:228-265 | `peer:ack-add` from a known peer sets its `mutual?` to `added?`, true or false, and marks it seen now, with no reply |
| Scenarios.BeatIsAcknowledged | protocol.py:277-302 | `peer:beat` from a known peer draws exactly one `peer:ack-beat` and marks it seen now |
| Scenarios.AckBeatRefreshes | protocol.py:314-324 | `peer:ack-beat` from a known peer draws no reply and marks it seen now |
| Scenarios.Greeter | main.py:32 | a node seeded with `{}` for one peer greets it once on `connection_made` |
| Scenarios.Greeted | protocol.py:66-72 | a fresh node hearing a greeting records the greeter as not mutual, seen now, and acknowledges it once |
| Scenarios.HandshakePair | protocol.py:52-82 | after greeting and answer, the greeter holds the other node as mutual while the other holds the greeter as not mutual |
| Scenarios.OwnEntryDropped | peer.py:37-39 | an answer that lists only the receiver's own port leaves the list unchanged, sends nothing and does not raise |
| Scenarios.Bootstrapped | peer.py:95-100 | a node bootstrapping from one seed holds the seed and has sent it `add-peer` and `request-peers` |
| Scenarios.Answerer | peer.py:67-77 | a node that receives `add-peer` and then `request-peers` from A holds A and answers with a list holding A |
| Scenarios.SeededPair | peer.py:67-100 | two-node bootstrap: A sends `add-peer` and `request-peers` to B and holds B; B holds A and answers with `["A"]`; A drops its own address, does not raise and ends holding B only |

## Left out

- The JSON encoder (encoder.py) and the `json_encode`/`json_decode` wrappers (peer.py:5-9) are not modelled. A datagram is taken as already decoded: the flood dialect receives `Option<Value>`, where None stands for input that did not decode. The handshake dialect receives the decoded object. For it, a decode failure or a non-object raises before `receive` changes anything, and that path is not modelled.
- JSON floating-point numbers are not modelled (`Value` has no float), so neither is their truthiness.
- Objects are modelled with distinct keys, as `json.loads` produces them. `Messages.Get` returns the first field with the key. For an object with a repeated key, Python keeps the last value, and the model does not follow that.
- The `BaseDatagramProtocol` plumbing (protocol.py:10-40) is not modelled: `__call__`, `get_encoder`, `datagram_received`, `error_received`, `connection_lost` and the transport cast. `send` and `transport.sendto` become appends to `outbox`.
- The `peer.Protocol` adapter (peer.py:11-24) is not modelled, nor are the event-loop and socket lines of `run` (peer.py:102-109). `on_connect` is modelled as `OnConnect`.
- All `print` logging is not modelled.
- `datetime.now(timezone.utc)` becomes the parameter `now`. A fresh peer's `seen-utc` is written twice in the source, by `add_peer` and by the refresh just after it. The model uses one value per call, standing for the later reading. Whether `seen-utc` ever decreases depends on the clock and is not stated.
- Exceptions are modelled only where the core raises by design: the parse failures of the respond-peers loop and a non-iterable `peers` value. These give the `raised` result. Errors of the transport are not modelled.
- HostPort.ParseInt: does not model the integer string conversion limit of Python 3.11 and later (and of the 3.7-3.10 security releases), under which `int()` of more than 4300 digits raises ValueError. The model parses any number of digits, so an entry such as `h:` followed by 4301 digits is inserted and pushed to, where those Pythons would end the respond-peers loop at it. `HostPort.ParseIntToString`, `HostPort.ParseFormat` and `Swarm.ParsedFormatAll` hold for ports of any length in the model.
- Handshake.PeerProtocol.AddPeer: takes `mutual_p` as a required argument; the default `mutual_p=False` of protocol.py:91 is left out because every call passes it.
- HostPort.ParseInt: accepts only ASCII decimal digits after an optional sign. Python's `int()` also accepts underscores between digits and non-ASCII decimal digits; the model rejects these.
- HostPort.IsSpace: covers ASCII strings only, where `int()` strips the space and `\t\n\v\f\r` (characters 9-13 and 32) and nothing else; the separators 0x1C-0x1F are not stripped, so `int('\x1c5')` raises. In a string that holds a non-ASCII character, `int()` also strips Unicode whitespace such as U+0085 and U+00A0; the model leaves that case out and rejects those characters.
- main.py is not modelled: its argument parsing and event loop are I/O. Its one effect on the core, seeding peers with an empty record, is `Handshake.PeerProtocol.SetRecord` with `PeerRecord(None, None)`.
- send.py, an interactive TCP client, is pure I/O and is not modelled.
