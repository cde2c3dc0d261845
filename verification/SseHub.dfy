/**
 The per-user event hub (backend/internal/sse/hub.go): subscribers hold buffered
 channels, publishing never blocks and drops what does not fit. Subscribe, cancel,
 publish and receive are atomic steps.
 */
module SseHub {
  import opened Basics

  datatype Event = Event(kind: string, data: string)

  const DEFAULT_BUFFER: nat := 16

  /** a can be obtained from b by leaving out events, order kept. */
  ghost predicate Subsequence(a: seq<Event>, b: seq<Event>) {
    a == [] || (b != [] && (Subsequence(a, b[..|b| - 1])
                            || (a[|a| - 1] == b[|b| - 1] && Subsequence(a[..|a| - 1], b[..|b| - 1]))))
  }

  lemma SubsequenceSkip(a: seq<Event>, b: seq<Event>, e: Event)
    requires Subsequence(a, b)
    ensures Subsequence(a, b + [e])
  {
    assert (b + [e])[..|b|] == b;
  }

  lemma SubsequenceTake(a: seq<Event>, b: seq<Event>, e: Event)
    requires Subsequence(a, b)
    ensures Subsequence(a + [e], b + [e])
  {
    assert (b + [e])[..|b|] == b && (a + [e])[..|a|] == a;
  }

  /** What a subsequence is: increasing positions of b that spell a. */
  lemma {:induction false} SubsequencePositions(a: seq<Event>, b: seq<Event>) returns (at: seq<nat>)
    requires Subsequence(a, b)
    ensures |at| == |a|
    ensures forall i :: 0 <= i < |a| ==> at[i] < |b| && b[at[i]] == a[i]
    ensures forall i, j :: 0 <= i < j < |a| ==> at[i] < at[j]
  {
    if a == [] {
      at := [];
    } else if Subsequence(a, b[..|b| - 1]) {
      at := SubsequencePositions(a, b[..|b| - 1]);
    } else {
      var front := SubsequencePositions(a[..|a| - 1], b[..|b| - 1]);
      at := front + [|b| - 1];
    }
  }

  /** A publish call, as the hub-wide log records it. */
  datatype Publication = Publication(user: string, event: Event)

  /** The events of a log that concern one user. */
  function EventsFor(user: string, log: seq<Publication>): seq<Event> {
    if log == [] then [] else
    var before, last := EventsFor(user, log[..|log| - 1]), log[|log| - 1];
    if last.user == user then before + [last.event] else before
  }

  lemma EventsForStep(user: string, log: seq<Publication>, p: Publication, since: nat)
    requires since <= |log|
    ensures EventsFor(user, (log + [p])[since..])
         == if p.user == user then EventsFor(user, log[since..]) + [p.event] else EventsFor(user, log[since..])
  {
    var later := (log + [p])[since..];
    assert later == log[since..] + [p];
    assert later[..|later| - 1] == log[since..];
  }

  /** user and since remember whose subscription this is and how much had been published before it. */
  class Channel {
    const capacity: nat
    ghost const user: string
    ghost const since: nat
    var buffer: seq<Event>
    var closed: bool
    ghost var published: seq<Event>
    ghost var received: seq<Event>
    ghost var dropped: bool

    /** Received and buffered events are, in order, some of those published while
        subscribed; all of them if no publish ever found the buffer full. */
    ghost predicate Valid()
      reads this
    {
      && |buffer| <= capacity
      && Subsequence(received + buffer, published)
      && (!dropped ==> received + buffer == published)
    }

    constructor (capacity: nat, ghost user: string, ghost since: nat)
      ensures Valid() && this.capacity == capacity && this.user == user && this.since == since && !closed
      ensures buffer == [] && published == [] && received == [] && !dropped
    {
      this.capacity, this.user, this.since := capacity, user, since;
      buffer, closed := [], false;
      published, received, dropped := [], [], false;
    }

    /** What one publish does to a live channel: the event is appended to the buffer
        if there is room and lost otherwise. */
    twostate predicate Offered(ev: Event)
      reads this
    {
      && published == old(published) + [ev] && received == old(received)
      && (|old(buffer)| < capacity ==> buffer == old(buffer) + [ev] && dropped == old(dropped))
      && (|old(buffer)| == capacity ==> buffer == old(buffer) && dropped)
    }

    /** select { case ch <- ev: default: } */
    method TrySend(ev: Event)
      requires Valid() && !closed
      modifies this
      ensures Valid() && !closed && Offered(ev)
    {
      if |buffer| < capacity {
        SubsequenceTake(received + buffer, published, ev);
        assert received + (buffer + [ev]) == received + buffer + [ev];
        buffer := buffer + [ev];
      } else {
        SubsequenceSkip(received + buffer, published, ev);
        dropped := true;
      }
      published := published + [ev];
    }

    /** A closed channel is still drained; None when there is nothing to read. */
    method Receive() returns (ev: Option<Event>)
      requires Valid()
      modifies this
      ensures Valid() && closed == old(closed) && published == old(published) && dropped == old(dropped)
      ensures old(buffer) == [] ==> ev == None && buffer == [] && received == old(received)
      ensures old(buffer) != [] ==>
                ev == Some(old(buffer)[0]) && buffer == old(buffer)[1..] && received == old(received) + [old(buffer)[0]]
    {
      if buffer == [] {
        return None;
      }
      ev := Some(buffer[0]);
      assert received + [buffer[0]] + buffer[1..] == received + buffer;
      received := received + [buffer[0]];
      buffer := buffer[1..];
    }

    method Close()
      requires Valid() && !closed
      modifies this`closed
      ensures Valid() && closed
    {
      closed := true;
    }
  }

  // ── the subscription table ──

  type Table = map<string, map<int, Channel>>

  function ConnsIn(t: Table, user: string): map<int, Channel> {
    if user in t then t[user] else map[]
  }

  function ChannelsOf(t: Table, user: string): set<Channel> {
    set id | id in ConnsIn(t, user) :: ConnsIn(t, user)[id]
  }

  ghost function ChannelsIn(t: Table): set<Channel> {
    set u, id | u in t && id in t[u] :: t[u][id]
  }

  ghost predicate SameSlot(t: Table, u: string, id: int, v: string, jd: int)
    requires u in t && id in t[u] && v in t && jd in t[v]
  {
    id == jd || t[u][id] == t[v][jd]
  }

  /** No user without subscriptions; ids and channels each stand for one subscription
      and sit under its user. */
  ghost predicate TableOk(t: Table, nextSub: int) {
    && (forall u, id :: u in t && id in t[u] ==> t[u][id].user == u)
    && (forall u :: u in t ==> t[u] != map[])
    && (forall u, id :: u in t && id in t[u] ==> 0 < id <= nextSub)
    && (forall u, id, v, jd :: u in t && id in t[u] && v in t && jd in t[v] && SameSlot(t, u, id, v, jd) ==>
        u == v && id == jd)
  }

  function Registered(t: Table, user: string, id: int, ch: Channel): Table {
    t[user := ConnsIn(t, user)[id := ch]]
  }

  function Unregistered(t: Table, user: string, id: int): Table
    requires user in t
  {
    var rest := t[user] - {id};
    if |rest| == 0 then t - {user} else t[user := rest]
  }

  lemma ChannelsOfAreIn(t: Table, user: string)
    ensures ChannelsOf(t, user) <= ChannelsIn(t)
  {
  }

  /** A user's channels are the ones subscribed for them. */
  lemma ChannelsByUser(t: Table, nextSub: int, user: string, ch: Channel)
    requires TableOk(t, nextSub) && ch in ChannelsIn(t)
    ensures ch in ChannelsOf(t, user) <==> ch.user == user
  {
    var u, id :| u in t && id in t[u] && t[u][id] == ch;
    assert ch.user == user ==> id in ConnsIn(t, user) && ConnsIn(t, user)[id] == ch;
  }

  /** The channel was offered exactly its user's events since it was subscribed. */
  ghost predicate InStep(ch: Channel, log: seq<Publication>)
    reads ch
  {
    ch.since <= |log| && ch.published == EventsFor(ch.user, log[ch.since..])
  }

  ghost predicate ChannelsOk(chs: set<Channel>, buffer: nat, log: seq<Publication>)
    reads chs
  {
    forall ch :: ch in chs ==> ch.Valid() && !ch.closed && ch.capacity == buffer && InStep(ch, log)
  }

  /** What a subscriber has received and still holds, in order, is some of what was
      published to its user since it subscribed; all of it unless a publish found its
      buffer full. */
  ghost predicate SeesPublished(ch: Channel, log: seq<Publication>)
    reads ch
  {
    && ch.since <= |log|
    && Subsequence(ch.received + ch.buffer, EventsFor(ch.user, log[ch.since..]))
    && (!ch.dropped ==> ch.received + ch.buffer == EventsFor(ch.user, log[ch.since..]))
  }

  /** At every moment of every run of the hub, for every live subscription. */
  lemma SubscriberSees(h: Hub, user: string, id: int)
    requires h.Valid() && user in h.byUser && id in h.byUser[user]
    ensures h.byUser[user][id].user == user && SeesPublished(h.byUser[user][id], h.log)
  {
    assert h.byUser[user][id] in ChannelsIn(h.byUser);
  }

  lemma RegisterKeepsTable(t: Table, nextSub: int, user: string, ch: Channel)
    requires TableOk(t, nextSub) && nextSub >= 0 && ch !in ChannelsIn(t) && ch.user == user
    ensures TableOk(Registered(t, user, nextSub + 1, ch), nextSub + 1)
    ensures ChannelsIn(Registered(t, user, nextSub + 1, ch)) == ChannelsIn(t) + {ch}
    ensures nextSub + 1 !in ConnsIn(t, user)
  {
    var id, t' := nextSub + 1, Registered(t, user, nextSub + 1, ch);
    forall u, i | u in t && i in t[u]
      ensures i != id && t[u][i] != ch && u in t' && i in t'[u] && t'[u][i] == t[u][i]
    {
      assert t[u][i] in ChannelsIn(t);
    }
    forall u, i, v, j | u in t' && i in t'[u] && v in t' && j in t'[v] && SameSlot(t', u, i, v, j)
      ensures u == v && i == j
    {
      if i != id && j != id {
        assert SameSlot(t, u, i, v, j);
      }
    }
    assert t'[user][id] == ch;
  }

  lemma UnregisteredSlots(t: Table, user: string, id: int, u: string, i: int)
    requires user in t && id in t[user]
    ensures var t' := Unregistered(t, user, id);
      && (u in t' && i in t'[u] <==> u in t && i in t[u] && !(u == user && i == id))
      && (u in t' && i in t'[u] ==> t'[u][i] == t[u][i])
  {
  }

  lemma OneLess(conns: map<int, Channel>, id: int)
    requires id in conns
    ensures |conns - {id}| == |conns| - 1 && (|conns - {id}| == 0 ==> conns - {id} == map[])
  {
    assert conns.Keys == (conns - {id}).Keys + {id};
  }

  lemma UnregisterChannels(t: Table, nextSub: int, user: string, id: int)
    requires TableOk(t, nextSub) && user in t && id in t[user]
    ensures ChannelsIn(Unregistered(t, user, id)) == ChannelsIn(t) - {t[user][id]}
  {
    var t' := Unregistered(t, user, id);
    forall ch
      ensures ch in ChannelsIn(t') <==> ch in ChannelsIn(t) && ch != t[user][id]
    {
      if ch in ChannelsIn(t') {
        var u, i :| u in t' && i in t'[u] && t'[u][i] == ch;
        UnregisteredSlots(t, user, id, u, i);
        assert SameSlot(t, user, id, u, i) <==> t[u][i] == t[user][id] || i == id;
      }
      if ch in ChannelsIn(t) && ch != t[user][id] {
        var u, i :| u in t && i in t[u] && t[u][i] == ch;
        UnregisteredSlots(t, user, id, u, i);
      }
    }
  }

  lemma UnregisterKeepsTable(t: Table, nextSub: int, user: string, id: int)
    requires TableOk(t, nextSub) && user in t && id in t[user]
    ensures TableOk(Unregistered(t, user, id), nextSub)
    ensures ChannelsIn(Unregistered(t, user, id)) == ChannelsIn(t) - {t[user][id]}
    ensures ConnsIn(Unregistered(t, user, id), user) == t[user] - {id}
    ensures |t[user] - {id}| == |t[user]| - 1
  {
    var t' := Unregistered(t, user, id);
    OneLess(t[user], id);
    UnregisterChannels(t, nextSub, user, id);
    forall u, i | u in t' && i in t'[u]
      ensures u in t && i in t[u] && t'[u][i] == t[u][i]
    {
      UnregisteredSlots(t, user, id, u, i);
    }
    forall u, i, v, j | u in t' && i in t'[u] && v in t' && j in t'[v] && SameSlot(t', u, i, v, j)
      ensures u == v && i == j
    {
      assert SameSlot(t, u, i, v, j);
    }
  }

  /** The sending loop over the receivers copied under the lock, in any order. */
  method OfferAll(targets: set<Channel>, ev: Event)
    requires forall ch :: ch in targets ==> ch.Valid() && !ch.closed
    modifies targets
    ensures forall ch :: ch in targets ==> ch.Valid() && !ch.closed && ch.Offered(ev)
  {
    var left := targets;
    while left != {}
      invariant left <= targets
      invariant forall ch :: ch in left ==> unchanged(ch)
      invariant forall ch :: ch in targets ==> ch.Valid() && !ch.closed
      invariant forall ch :: ch in targets && ch !in left ==> ch.Offered(ev)
    {
      var ch :| ch in left;
      left := left - {ch};
      ch.TrySend(ev);
    }
  }

  class Hub {
    const buffer: nat
    var byUser: Table
    var nextSub: int
    ghost var log: seq<Publication>

    ghost predicate Valid()
      reads this, ChannelsIn(byUser)
    {
      && buffer > 0 && nextSub >= 0 && TableOk(byUser, nextSub)
      && ChannelsOk(ChannelsIn(byUser), buffer, log)
    }

    constructor (buffer: int)
      ensures Valid() && byUser == map[] && log == [] && this.buffer == if buffer <= 0 then 16 else buffer
    {
      this.buffer := if buffer <= 0 then DEFAULT_BUFFER else buffer;
      byUser, nextSub, log := map[], 0, [];
    }

    /** A new id, an empty channel, and nobody else's subscription touched. */
    method Subscribe(user: string) returns (id: int, ch: Channel)
      requires Valid()
      modifies this
      ensures Valid() && log == old(log)
      ensures fresh(ch) && ch.user == user && ch.since == |log| && ch.buffer == [] && ch.received == [] && !ch.dropped
      ensures id == nextSub == old(nextSub) + 1 && byUser == Registered(old(byUser), user, id, ch)
      ensures |ConnsIn(byUser, user)| == |ConnsIn(old(byUser), user)| + 1
    {
      nextSub := nextSub + 1;
      id := nextSub;
      ch := new Channel(buffer, user, |log|);
      Insert(user, id, ch);
    }

    /** The locked part of Subscribe. */
    method Insert(user: string, id: int, ch: Channel)
      requires TableOk(byUser, nextSub - 1) && id == nextSub > 0 && ch !in ChannelsIn(byUser) && ch.user == user
      modifies this`byUser
      ensures TableOk(byUser, nextSub) && ChannelsIn(byUser) == old(ChannelsIn(byUser)) + {ch}
      ensures byUser == Registered(old(byUser), user, id, ch)
      ensures |ConnsIn(byUser, user)| == |ConnsIn(old(byUser), user)| + 1
    {
      RegisterKeepsTable(byUser, nextSub - 1, user, ch);
      if user !in byUser {
        byUser := byUser[user := map[]];
      }
      byUser := byUser[user := byUser[user][id := ch]];
      assert byUser == Registered(old(byUser), user, id, ch);
    }

    /** The cancel function, called once per subscription. */
    method Cancel(user: string, id: int, ch: Channel)
      requires Valid() && user in byUser && id in byUser[user] && byUser[user][id] == ch
      modifies this`byUser, ch`closed
      ensures Valid() && ch.Valid() && ch.closed && InStep(ch, log)
      ensures byUser == Unregistered(old(byUser), user, id)
      ensures |ConnsIn(byUser, user)| == |ConnsIn(old(byUser), user)| - 1
    {
      Remove(user, id, ch);
      ch.Close();
    }

    /** The locked part of the cancel function. */
    method Remove(user: string, id: int, ch: Channel)
      requires Valid() && user in byUser && id in byUser[user] && byUser[user][id] == ch
      modifies this`byUser
      ensures Valid() && ch.Valid() && !ch.closed && ch !in ChannelsIn(byUser) && InStep(ch, log)
      ensures byUser == Unregistered(old(byUser), user, id)
      ensures |ConnsIn(byUser, user)| == |ConnsIn(old(byUser), user)| - 1
    {
      UnregisterKeepsTable(byUser, nextSub, user, id);
      assert ch in ChannelsIn(byUser);
      var table, rest := byUser, byUser[user] - {id};
      if |rest| == 0 {
        table := table - {user};
      } else {
        table := table[user := rest];
      }
      byUser := table;
    }

    /** Every live subscriber of the user is offered the event, nobody else's channel changes. */
    method Publish(user: string, ev: Event)
      requires Valid()
      modifies this`log, ChannelsOf(byUser, user)
      ensures Valid() && log == old(log) + [Publication(user, ev)]
      ensures forall ch :: ch in ChannelsOf(byUser, user) ==> ch.Offered(ev)
    {
      ChannelsOfAreIn(byUser, user);
      OfferAll(ChannelsOf(byUser, user), ev);
      forall ch | ch in ChannelsIn(byUser)
        ensures InStep(ch, log + [Publication(user, ev)])
      {
        ChannelsByUser(byUser, nextSub, user, ch);
        EventsForStep(ch.user, log, Publication(user, ev), ch.since);
      }
      log := log + [Publication(user, ev)];
    }

    method SubscriberCount(user: string) returns (n: nat)
      ensures n == |ConnsIn(byUser, user)|
    {
      if user in byUser {
        return |byUser[user]|;
      }
      return 0;
    }
  }

  /** A stream handler reads from the channel of its live subscription: the hub stays in order. */
  method ReadNext(h: Hub, user: string, id: int) returns (ev: Option<Event>)
    requires h.Valid() && user in h.byUser && id in h.byUser[user]
    modifies h.byUser[user][id]
    ensures h.Valid()
    ensures var ch := h.byUser[user][id];
      && ch.received == old(ch.received) + (if ev.Some? then [ev.value] else [])
      && (ev.None? <==> old(ch.buffer) == [])
  {
    assert h.byUser[user][id] in ChannelsIn(h.byUser);
    ev := h.byUser[user][id].Receive();
  }
}
