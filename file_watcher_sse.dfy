/**
  The notification hub of app/tools/file_watcher_sse.py: subscriber queues of
  bounded size, the two tables that say which client owns which queues and which
  watchers it listens to, the fan-out of file events and status updates with the
  drop-on-full policy, and the stream that turns one queue into server-sent events.
 */
module FileWatcherSse {
  import opened Wrappers
  import Json
  import FileWatcher
  import EventStream

  type Instant = FileWatcher.Instant

  /** The dictionaries that travel through a queue and out of the stream. */
  datatype Message =
    | FileChange(watcherId: string, event: Json.Value, timestamp: Instant)
    | WatcherStatus(watcherId: string, status: string, details: map<string, Json.Value>, timestamp: Instant)
    | Connected(clientId: string, timestamp: Instant)
    | Heartbeat(timestamp: Instant)

  /** `asyncio.Queue(maxsize=100)` */
  const QueueCapacity: int := 100

  /** The `file_change` message of `broadcast_event`. */
  function FileChangeMessage(watcherId: string, e: FileWatcher.WatcherEvent, now: Instant): (m: Message)
    ensures m.FileChange? && m.watcherId == watcherId && m.timestamp == now
    ensures m.event == FileWatcher.ToDict(e)
    ensures FileWatcher.FromDict(m.event) == Some(e)
  {
    FileWatcher.ToDictRoundTrip(e);
    FileChange(watcherId, FileWatcher.ToDict(e), now)
  }

  /** The `watcher_status` message of `send_status_update`; missing or empty details
      become `{}`. */
  function StatusMessage(watcherId: string, status: string, details: Option<map<string, Json.Value>>, now: Instant): (m: Message)
    ensures m.WatcherStatus? && m.watcherId == watcherId && m.status == status && m.timestamp == now
    ensures details.None? ==> m.details == map[]
    ensures details.Some? ==> m.details == details.value
  {
    WatcherStatus(watcherId, status, if details.Some? then details.value else map[], now)
  }

  /** The queue contents after `put_nowait(m)` with `QueueFull` caught: a full queue
      drops the message, any other gets it at the back. */
  function Offered(items: seq<Message>, m: Message, maxsize: int): (r: seq<Message>)
    ensures 0 < maxsize <= |items| ==> r == items
    ensures !(0 < maxsize <= |items|) ==> |r| == |items| + 1 && r[..|items|] == items && r[|items|] == m
  {
    if 0 < maxsize <= |items| then items else items + [m]
  }

  /** `put_nowait` on a queue holding `items` does not raise `QueueFull`. */
  predicate HasRoom(items: seq<Message>, maxsize: int) {
    !(0 < maxsize <= |items|)
  }

  /** A bounded FIFO queue; a `maxsize` of zero or less means unbounded. */
  class MessageQueue {
    const maxsize: int
    var items: seq<Message>

    ghost predicate Valid()
      reads this
    {
      maxsize <= 0 || |items| <= maxsize
    }

    predicate Full()
      reads this
    {
      0 < maxsize <= |items|
    }

    constructor (maxsize: int)
      ensures this.maxsize == maxsize && items == [] && Valid()
    {
      this.maxsize := maxsize;
      items := [];
    }

    /** `put_nowait`, where `accepted` is false exactly when it raises `QueueFull`. */
    method PutNowait(m: Message) returns (accepted: bool)
      modifies this
      ensures accepted == !old(Full())
      ensures items == Offered(old(items), m, maxsize)
      ensures old(Valid()) ==> Valid()
    {
      accepted := !Full();
      if accepted {
        items := items + [m];
      }
    }

    /** `get` once a message is there (or `get_nowait`): the oldest message leaves. */
    method GetNowait() returns (m: Option<Message>)
      modifies this
      ensures old(items) == [] ==> m == None && items == []
      ensures old(items) != [] ==> m == Some(old(items)[0]) && items == old(items)[1..]
      ensures old(Valid()) ==> Valid()
    {
      if items == [] {
        m := None;
      } else {
        m := Some(items[0]);
        items := items[1..];
      }
    }
  }

  /** The subscription test of both broadcasts: a client without a filter entry, with an
      empty filter, or whose filter names the watcher, hears from it. */
  predicate Receives(clientWatchers: map<string, set<string>>, clientId: string, watcherId: string) {
    clientId !in clientWatchers || clientWatchers[clientId] == {} || watcherId in clientWatchers[clientId]
  }

  /** The subscriptions that remain once the queues in `dead` are removed: a client whose
      last queue goes is dropped. */
  function Prune(connections: map<string, set<MessageQueue>>, dead: set<MessageQueue>): map<string, set<MessageQueue>> {
    map c | c in connections && connections[c] - dead != {} :: connections[c] - dead
  }

  /** Every entry of `a` is an entry of `b`. */
  predicate SubMap<V(==)>(a: map<string, V>, b: map<string, V>) {
    forall k :: k in a ==> k in b && a[k] == b[k]
  }

  /** No queue belongs to two clients. */
  predicate Disjoint(connections: map<string, set<MessageQueue>>) {
    forall c, d :: c in connections && d in connections && c != d ==> connections[c] !! connections[d]
  }

  /** The queues, among those of the clients in `clients`, that a broadcast from
      `watcherId` is offered to. */
  function Listening(connections: map<string, set<MessageQueue>>, clientWatchers: map<string, set<string>>,
                     clients: set<string>, watcherId: string): set<MessageQueue> {
    set c, q | c in clients && c in connections && q in connections[c] && Receives(clientWatchers, c, watcherId) :: q
  }

  /** A queue outside the removed set keeps its client and stays subscribed. */
  lemma PruneKeeps(connections: map<string, set<MessageQueue>>, dead: set<MessageQueue>, c: string, q: MessageQueue)
    requires c in connections && q in connections[c] && q !in dead
    ensures c in Prune(connections, dead) && q in Prune(connections, dead)[c]
  {
  }

  /** The queues named by a list of (client, queue) pairs. */
  function QueuesOf(pairs: set<(string, MessageQueue)>): set<MessageQueue> {
    set p | p in pairs :: p.1
  }

  /** A queue is offered a broadcast exactly when its owner listens to the watcher. */
  lemma ListeningOwner(connections: map<string, set<MessageQueue>>, clientWatchers: map<string, set<string>>,
                       watcherId: string, c: string, q: MessageQueue)
    requires Disjoint(connections) && c in connections && q in connections[c]
    ensures q in Listening(connections, clientWatchers, connections.Keys, watcherId) <==> Receives(clientWatchers, c, watcherId)
  {
    if q in Listening(connections, clientWatchers, connections.Keys, watcherId) {
      var d :| d in connections && q in connections[d] && Receives(clientWatchers, d, watcherId);
      assert !(connections[c] !! connections[d]);
    }
  }

  function ToSet(s: seq<string>): set<string> {
    set x | x in s
  }

  /** Every queue of every client. */
  function QueueSet(connections: map<string, set<MessageQueue>>): set<MessageQueue> {
    set c, q | c in connections && q in connections[c] :: q
  }

  /** The loop both broadcasts share: offer `m` to every queue of every client that
      listens to `watcherId`, and collect the (client, queue) pairs that raised
      something other than `QueueFull`. */
  method FanOut(connections: map<string, set<MessageQueue>>, clientWatchers: map<string, set<string>>,
                watcherId: string, m: Message, failing: set<MessageQueue>) returns (dead: set<(string, MessageQueue)>)
    requires Disjoint(connections)
    modifies QueueSet(connections)
    ensures forall q :: q in QueueSet(connections) ==>
      q.items == if q in Listening(connections, clientWatchers, connections.Keys, watcherId) && q !in failing
                 then Offered(old(q.items), m, q.maxsize) else old(q.items)
    ensures forall p :: p in dead <==>
      && p.0 in connections && p.1 in connections[p.0] && Receives(clientWatchers, p.0, watcherId)
      && p.1 in failing && HasRoom(old(p.1.items), p.1.maxsize)
  {
    var clients := connections.Keys;
    ghost var done: set<string> := {};
    dead := {};
    while clients != {}
      invariant clients + done == connections.Keys && clients !! done
      invariant forall c, q :: c in connections && q in connections[c] ==>
        q.items == if c in done && Receives(clientWatchers, c, watcherId) && q !in failing
                   then Offered(old(q.items), m, q.maxsize) else old(q.items)
      invariant forall p :: p in dead <==>
        && p.0 in done && p.1 in connections[p.0] && Receives(clientWatchers, p.0, watcherId)
        && p.1 in failing && HasRoom(old(p.1.items), p.1.maxsize)
      decreases clients
    {
      var c :| c in clients;
      label before:
      if Receives(clientWatchers, c, watcherId) {
        var d := OfferAll(connections[c], m, failing);
        dead := dead + set q | q in d :: (c, q);
      }
      forall e, q | e in connections && q in connections[e] && e != c
        ensures q.items == old@before(q.items)
      {
        assert connections[c] !! connections[e];
      }
      clients := clients - {c};
      done := done + {c};
    }
    forall q | q in QueueSet(connections)
      ensures q.items == if q in Listening(connections, clientWatchers, connections.Keys, watcherId) && q !in failing
                         then Offered(old(q.items), m, q.maxsize) else old(q.items)
    {
      var c :| c in connections && q in connections[c];
      ListeningOwner(connections, clientWatchers, watcherId, c, q);
    }
  }

  /** Offer `m` to every queue of `qs`. A full queue raises `QueueFull` and drops the
      message; otherwise those in `failing` raise another error and are reported back. */
  method OfferAll(qs: set<MessageQueue>, m: Message, failing: set<MessageQueue>) returns (dead: set<MessageQueue>)
    modifies qs
    ensures forall q :: q in qs ==> q.items == if q in failing then old(q.items) else Offered(old(q.items), m, q.maxsize)
    ensures forall q :: q in dead <==> q in qs && q in failing && HasRoom(old(q.items), q.maxsize)
  {
    var rest := qs;
    dead := {};
    while rest != {}
      invariant rest <= qs
      invariant forall q :: q in qs ==> q.items == if q in rest || q in failing then old(q.items) else Offered(old(q.items), m, q.maxsize)
      invariant forall q :: q in dead <==> q in qs - rest && q in failing && HasRoom(old(q.items), q.maxsize)
      decreases rest
    {
      var q :| q in rest;
      if HasRoom(q.items, q.maxsize) {
        if q in failing {
          dead := dead + {q};
        } else {
          var _ := q.PutNowait(m);
        }
      }
      rest := rest - {q};
    }
  }

  class Notifier {
    /** `active_connections`: client id to its queues. */
    var connections: map<string, set<MessageQueue>>
    /** `client_watchers`: client id to the watcher ids it listens to. */
    var clientWatchers: map<string, set<string>>

    /** Both tables have the same clients, every client has a queue, no queue belongs
        to two clients, and every queue was created with capacity 100. */
    ghost predicate Valid()
      reads this
    {
      && connections.Keys == clientWatchers.Keys
      && (forall c :: c in connections ==> connections[c] != {})
      && Disjoint(connections)
      && (forall c, q :: c in connections && q in connections[c] ==> q.maxsize == QueueCapacity)
    }

    ghost function Queues(): set<MessageQueue>
      reads this
    {
      QueueSet(connections)
    }

    constructor ()
      ensures Valid() && connections == map[] && clientWatchers == map[]
    {
      connections, clientWatchers := map[], map[];
    }

    /** `add_client`: a fresh queue of capacity 100 for the client; the filter is
        recorded only when the client is new. */
    method AddClient(clientId: string, watcherIds: Option<seq<string>>) returns (q: MessageQueue)
      requires Valid()
      modifies this
      ensures Valid()
      ensures fresh(q) && q.items == [] && q.maxsize == QueueCapacity
      ensures clientId in old(connections) ==>
        && connections == old(connections)[clientId := old(connections[clientId]) + {q}]
        && clientWatchers == old(clientWatchers)
      ensures clientId !in old(connections) ==>
        && connections == old(connections)[clientId := {q}]
        && clientWatchers == old(clientWatchers)[clientId := ToSet(if watcherIds.Some? then watcherIds.value else [])]
    {
      q := new MessageQueue(QueueCapacity);
      if clientId !in connections {
        connections := connections[clientId := {q}];
        clientWatchers := clientWatchers[clientId := ToSet(if watcherIds.Some? then watcherIds.value else [])];
      } else {
        connections := connections[clientId := connections[clientId] + {q}];
      }
    }

    /** `remove_client`: exactly that queue goes; a client left without queues loses both
        entries; an unknown client changes nothing. */
    method RemoveClient(clientId: string, q: MessageQueue)
      requires Valid()
      modifies this
      ensures Valid()
      ensures clientId !in old(connections) ==> connections == old(connections) && clientWatchers == old(clientWatchers)
      ensures clientId in old(connections) && old(connections[clientId]) - {q} == {} ==>
        && connections == old(connections) - {clientId}
        && clientWatchers == old(clientWatchers) - {clientId}
      ensures clientId in old(connections) && old(connections[clientId]) - {q} != {} ==>
        && connections == old(connections)[clientId := old(connections[clientId]) - {q}]
        && clientWatchers == old(clientWatchers)
    {
      if clientId in connections {
        connections := connections[clientId := connections[clientId] - {q}];
        if connections[clientId] == {} {
          connections := connections - {clientId};
          if clientId in clientWatchers {
            clientWatchers := clientWatchers - {clientId};
          }
        }
      }
    }

    /** The queues `watcherId`'s broadcasts are offered to. */
    ghost function Targets(watcherId: string): set<MessageQueue>
      reads this
    {
      Listening(connections, clientWatchers, connections.Keys, watcherId)
    }

    /** The queues whose `put_nowait` raises an error other than `QueueFull`: the
        failing ones that still have room. */
    ghost function Raising(failing: set<MessageQueue>): set<MessageQueue>
      reads this, Queues()
    {
      set q | q in Queues() && q in failing && HasRoom(q.items, q.maxsize)
    }

    /** The clean-up loop of `broadcast_event`: `remove_client` for every pair. */
    method Unsubscribe(dead: set<(string, MessageQueue)>)
      requires Valid()
      requires forall p :: p in dead ==> p.0 in connections && p.1 in connections[p.0]
      modifies this
      ensures Valid()
      ensures connections == Prune(old(connections), QueuesOf(dead))
      ensures SubMap(clientWatchers, old(clientWatchers))
    {
      ghost var conns0, watchers0 := connections, clientWatchers;
      var pending := dead;
      PruneNothing(conns0);
      assert QueuesOf(dead - pending) == {};
      while pending != {}
        invariant Valid() && Disjoint(conns0)
        invariant forall p :: p in dead ==> p.0 in conns0 && p.1 in conns0[p.0]
        invariant pending <= dead
        invariant connections == Prune(conns0, QueuesOf(dead - pending))
        invariant SubMap(clientWatchers, watchers0)
        decreases pending
      {
        var p :| p in pending;
        PruneNext(conns0, dead, pending, p);
        RemoveClient(p.0, p.1);
        pending := pending - {p};
      }
      assert dead - pending == dead;
    }

    /** `broadcast_event`: the `file_change` message reaches every queue of every
        listening client, except full queues, which drop it, and failing ones. A failing
        queue that was not full is unsubscribed after the loop. */
    method BroadcastEvent(watcherId: string, e: FileWatcher.WatcherEvent, now: Instant, failing: set<MessageQueue>)
      requires Valid()
      modifies this, Queues()
      ensures Valid()
      ensures forall q :: q in old(Queues()) ==>
        q.items == if q in old(Targets(watcherId)) && q !in failing
                   then Offered(old(q.items), FileChangeMessage(watcherId, e, now), q.maxsize)
                   else old(q.items)
      ensures connections == Prune(old(connections), old(Targets(watcherId) * Raising(failing)))
      ensures SubMap(clientWatchers, old(clientWatchers))
    {
      Publish(watcherId, FileChangeMessage(watcherId, e, now), failing);
    }

    /** The fan-out and clean-up of `broadcast_event`, for any message. */
    method Publish(watcherId: string, m: Message, failing: set<MessageQueue>)
      requires Valid()
      modifies this, Queues()
      ensures Valid()
      ensures forall q :: q in old(Queues()) ==>
        q.items == if q in old(Targets(watcherId)) && q !in failing
                   then Offered(old(q.items), m, q.maxsize)
                   else old(q.items)
      ensures connections == Prune(old(connections), old(Targets(watcherId) * Raising(failing)))
      ensures SubMap(clientWatchers, old(clientWatchers))
    {
      ghost var raising := Raising(failing);
      var dead := FanOut(connections, clientWatchers, watcherId, m, failing);
      DeadPairs(connections, clientWatchers, watcherId, raising, dead);
      Unsubscribe(dead);
    }

    /** `send_status_update`: the same fan-out with a `watcher_status` message; a failing
        queue is ignored and nothing is unsubscribed. */
    method SendStatusUpdate(watcherId: string, status: string, details: Option<map<string, Json.Value>>,
                            now: Instant, failing: set<MessageQueue>)
      requires Valid()
      modifies Queues()
      ensures Valid()
      ensures forall q :: q in Queues() ==>
        q.items == if q in Targets(watcherId) && q !in failing
                   then Offered(old(q.items), StatusMessage(watcherId, status, details, now), q.maxsize)
                   else old(q.items)
    {
      var message := StatusMessage(watcherId, status, details, now);
      var _ := FanOut(connections, clientWatchers, watcherId, message, failing);
    }

    /** `file_watcher_sse_stream`: subscribe, send `connected`, turn each poll of the
        queue into a frame until one fails or the consumer stops reading, and
        unsubscribe in every case. */
    method Serve(clientId: string, watcherIds: Option<seq<string>>, connectedAt: Instant, polls: seq<PollOutcome>)
      returns (frames: seq<Message>)
      requires Valid()
      modifies this
      ensures Valid()
      ensures frames == StreamFrames(clientId, connectedAt, polls)
      ensures connections == old(connections) && clientWatchers == old(clientWatchers)
    {
      var q := AddClient(clientId, watcherIds);
      AddThenRemove(old(connections), old(clientWatchers), clientId, q, ToSet(if watcherIds.Some? then watcherIds.value else []));
      frames := StreamBody(clientId, connectedAt, polls);
      RemoveClient(clientId, q);
    }
  }

  /** The body of `file_watcher_sse_stream` between subscribing and unsubscribing. */
  method StreamBody(clientId: string, connectedAt: Instant, polls: seq<PollOutcome>) returns (frames: seq<Message>)
    ensures frames == StreamFrames(clientId, connectedAt, polls)
  {
    frames := [Connected(clientId, connectedAt)];
    var i := 0;
    while i < |polls|
      invariant 0 <= i <= |polls|
      invariant NoFailure(polls[..i])
      invariant frames == [Connected(clientId, connectedAt)] + Emitted(polls[..i])
    {
      EmittedSnoc(polls[..i], polls[i]);
      assert polls[..i + 1] == polls[..i] + [polls[i]];
      match polls[i] {
        case Got(m) =>
          frames := frames + [m];
        case TimedOut(t) =>
          frames := frames + [Heartbeat(t)];
        case Failed =>
          EmittedUpToFailure(polls, i);
          break;
      }
      i := i + 1;
    }
    assert i == |polls| ==> polls[..i] == polls;
  }

  /** Subscribing a new queue and then unsubscribing it restores both tables. */
  lemma AddThenRemove(connections: map<string, set<MessageQueue>>, clientWatchers: map<string, set<string>>,
                      c: string, q: MessageQueue, filter: set<string>)
    requires c in connections ==> q !in connections[c] && connections[c] != {}
    requires c in connections <==> c in clientWatchers
    ensures var mid := if c in connections then connections[c := connections[c] + {q}] else connections[c := {q}];
      && c in mid
      && (mid[c] - {q} == {} <==> c !in connections)
      && (c in connections ==> mid[c := mid[c] - {q}] == connections)
      && (c !in connections ==> mid - {c} == connections && clientWatchers[c := filter] - {c} == clientWatchers)
  {
    if c in connections {
      assert connections[c] + {q} - {q} == connections[c];
    }
  }

  lemma PruneNothing(connections: map<string, set<MessageQueue>>)
    requires forall c :: c in connections ==> connections[c] != {}
    ensures Prune(connections, {}) == connections
  {
    assert forall c :: c in connections ==> connections[c] - {} == connections[c];
  }

  /** After removing `gone`, the owner `c` of a further dead queue `q` is still
      subscribed, and removing `q` from it is the same as pruning `gone + {q}`. */
  lemma PruneOne(connections: map<string, set<MessageQueue>>, gone: set<MessageQueue>, c: string, q: MessageQueue)
    requires c in connections && q in connections[c] && q !in gone
    requires Disjoint(connections)
    ensures c in Prune(connections, gone) && Prune(connections, gone)[c] - {q} == connections[c] - (gone + {q})
    ensures Prune(connections, gone)[c] - {q} == {} ==> Prune(connections, gone + {q}) == Prune(connections, gone) - {c}
    ensures Prune(connections, gone)[c] - {q} != {} ==>
      Prune(connections, gone + {q}) == Prune(connections, gone)[c := Prune(connections, gone)[c] - {q}]
  {
    var before, after := Prune(connections, gone), Prune(connections, gone + {q});
    assert q in connections[c] - gone;
    forall d | d in connections && d != c ensures connections[d] - (gone + {q}) == connections[d] - gone {
      assert q !in connections[d];
    }
  }

  /** One step of the clean-up loop: removing the next pair's queue is the same as
      pruning one more queue. */
  lemma PruneNext(connections: map<string, set<MessageQueue>>, dead: set<(string, MessageQueue)>,
                  pending: set<(string, MessageQueue)>, p: (string, MessageQueue))
    requires Disjoint(connections) && p in pending && pending <= dead
    requires forall p' :: p' in dead ==> p'.0 in connections && p'.1 in connections[p'.0]
    ensures var before, after := Prune(connections, QueuesOf(dead - pending)), Prune(connections, QueuesOf(dead - (pending - {p})));
      && p.0 in before
      && (before[p.0] - {p.1} == {} ==> after == before - {p.0})
      && (before[p.0] - {p.1} != {} ==> after == before[p.0 := before[p.0] - {p.1}])
  {
    var gone := QueuesOf(dead - pending);
    forall p' | p' in dead - pending ensures p'.1 != p.1 {
      if p'.0 != p.0 {
        assert connections[p.0] !! connections[p'.0];
      }
    }
    assert QueuesOf(dead - (pending - {p})) == gone + {p.1};
    PruneOne(connections, gone, p.0, p.1);
  }

  /** The pairs `FanOut` reports name exactly the failing queues among its targets. */
  lemma DeadPairs(connections: map<string, set<MessageQueue>>, clientWatchers: map<string, set<string>>,
                  watcherId: string, raising: set<MessageQueue>, dead: set<(string, MessageQueue)>)
    requires forall p :: p in dead <==>
      p.0 in connections && p.1 in connections[p.0] && Receives(clientWatchers, p.0, watcherId) && p.1 in raising
    ensures forall p :: p in dead ==> p.0 in connections && p.1 in connections[p.0]
    ensures QueuesOf(dead) == Listening(connections, clientWatchers, connections.Keys, watcherId) * raising
  {
    forall q | q in Listening(connections, clientWatchers, connections.Keys, watcherId) * raising
      ensures q in QueuesOf(dead)
    {
      var c :| c in connections && q in connections[c] && Receives(clientWatchers, c, watcherId);
      assert (c, q) in dead;
    }
  }

  // ---------------------------------------------------------------------------
  // The stream

  /** What one wait on the queue (`asyncio.wait_for(queue.get(), timeout=30.0)`) gives:
      a message, a timeout at some instant, or another error. */
  datatype PollOutcome = Got(message: Message) | TimedOut(at: Instant) | Failed

  predicate NoFailure(polls: seq<PollOutcome>) {
    forall i :: 0 <= i < |polls| ==> !polls[i].Failed?
  }

  /** The frames after `connected`: a message is sent as it is, a timeout becomes a
      heartbeat, and the first failure ends the stream. */
  function Emitted(polls: seq<PollOutcome>): (frames: seq<Message>)
    ensures |frames| <= |polls|
    ensures NoFailure(polls) ==> |frames| == |polls|
    ensures forall i :: 0 <= i < |frames| ==> !polls[i].Failed? && frames[i] == FrameOf(polls[i])
  {
    if polls == [] then []
    else match polls[0]
      case Got(m) => [m] + Emitted(polls[1..])
      case TimedOut(t) => [Heartbeat(t)] + Emitted(polls[1..])
      case Failed => []
  }

  function StreamFrames(clientId: string, connectedAt: Instant, polls: seq<PollOutcome>): seq<Message> {
    [Connected(clientId, connectedAt)] + Emitted(polls)
  }

  /** The frame a successful poll produces. */
  function FrameOf(p: PollOutcome): Message
    requires !p.Failed?
  {
    if p.Got? then p.message else Heartbeat(p.at)
  }

  lemma {:induction false} EmittedSnoc(polls: seq<PollOutcome>, p: PollOutcome)
    requires NoFailure(polls)
    ensures Emitted(polls + [p]) == Emitted(polls) + if p.Failed? then [] else [FrameOf(p)]
    decreases |polls|
  {
    if polls == [] {
      assert [p][1..] == [];
    } else {
      assert (polls + [p])[1..] == polls[1..] + [p];
      assert NoFailure(polls[1..]) by {
        forall i | 0 <= i < |polls[1..]| ensures !polls[1..][i].Failed? {
          assert polls[1..][i] == polls[i + 1];
        }
      }
      EmittedSnoc(polls[1..], p);
    }
  }

  lemma NoFailureTail(polls: seq<PollOutcome>, k: nat)
    requires 0 < k <= |polls| && NoFailure(polls[..k])
    ensures !polls[0].Failed? && NoFailure(polls[1..][..k - 1])
  {
    assert polls[..k][0] == polls[0];
    var t := polls[1..][..k - 1];
    forall j | 0 <= j < |t| ensures !t[j].Failed? {
      assert t[j] == polls[..k][j + 1];
    }
  }

  lemma {:induction false} EmittedUpToFailure(polls: seq<PollOutcome>, i: nat)
    requires i < |polls| && polls[i].Failed? && NoFailure(polls[..i])
    ensures Emitted(polls) == Emitted(polls[..i])
    decreases i
  {
    if i > 0 {
      NoFailureTail(polls, i);
      EmittedUpToFailure(polls[1..], i - 1);
      assert polls[..i][0] == polls[0];
      assert polls[..i][1..] == polls[1..][..i - 1];
    }
  }

  /** The stream's shape: `connected` first, then one frame per poll, in order, up to
      the first failure, and nothing after it. */
  lemma {:induction false} StreamShape(clientId: string, connectedAt: Instant, polls: seq<PollOutcome>, k: nat)
    requires k <= |polls| && NoFailure(polls[..k]) && (k == |polls| || polls[k].Failed?)
    ensures var frames := StreamFrames(clientId, connectedAt, polls);
      && |frames| == k + 1
      && frames[0] == Connected(clientId, connectedAt)
      && forall i :: 0 <= i < k ==> frames[i + 1] == FrameOf(polls[i])
    decreases k
  {
    if k > 0 {
      NoFailureTail(polls, k);
      StreamShape(clientId, connectedAt, polls[1..], k - 1);
      forall i | 0 <= i < k ensures StreamFrames(clientId, connectedAt, polls)[i + 1] == FrameOf(polls[i]) {
        if i > 0 {
          assert polls[1..][i - 1] == polls[i];
        }
      }
    }
  }

  /** The text the stream sends, given how `json.dumps` renders each message. */
  function WireText(dumps: Message -> string, frames: seq<Message>): string {
    EventStream.EncodeAll(seq(|frames|, i requires 0 <= i < |frames| => dumps(frames[i])))
  }

  /** A client parsing the stream per the event-stream format receives the serialised
      frames one event each, in order. */
  lemma WireTextRoundTrip(dumps: Message -> string, frames: seq<Message>)
    requires forall m :: EventStream.NoLineBreak(dumps(m))
    ensures EventStream.ParseEvents(WireText(dumps, frames)) == seq(|frames|, i requires 0 <= i < |frames| => dumps(frames[i]))
  {
    EventStream.ParseEncodeRoundTrip(seq(|frames|, i requires 0 <= i < |frames| => dumps(frames[i])));
  }
}
