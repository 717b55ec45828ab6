/** Idempotent streams: one producer per key publishes events, any number of subscribers replay and follow them.
    Every method is one uninterrupted stretch between two points where the coroutines may switch. */
module StreamReplay {
  import opened Prelude

  type EntryId = nat
  type SubId = nat

  /** A stream's record: its key and payload, what was published, and the queues that follow it. */
  datatype Entry = Entry(key: string, hash: string, events: seq<string>, subscribers: seq<SubId>, finished: bool, completedAt: int)

  /** A subscriber first replays the record from its beginning, then follows its queue. */
  datatype Stage = Replaying(next: nat) | Following | Complete | Cancelled

  /** `emitted` is what its client has received; None in the queue marks the end. */
  datatype Subscriber = Subscriber(entry: EntryId, stage: Stage, emitted: seq<string>, queue: seq<Option<string>>)

  function Somes(events: seq<string>): seq<Option<string>> {
    seq(|events|, i requires 0 <= i < |events| => Some(events[i]))
  }

  /** What a subscriber has emitted, against the record it follows. */
  ghost predicate InStep(s: Subscriber, e: Entry) {
    match s.stage
    case Replaying(next) => next <= |e.events| && s.emitted == e.events[..next]
    case Following =>
      && |s.emitted| <= |e.events| && s.emitted == e.events[..|s.emitted|]
      && s.queue == Somes(e.events[|s.emitted|..]) + (if e.finished then [None] else [])
    case Complete => e.finished && s.emitted == e.events
    case Cancelled => |s.emitted| <= |e.events| && s.emitted == e.events[..|s.emitted|]
  }

  ghost predicate EntryListed(order: seq<(string, EntryId)>, id: EntryId, e: Entry) {
    (e.key, id) in order
  }

  ghost predicate SubOk(store: map<EntryId, Entry>, subs: map<SubId, Subscriber>, s: SubId)
    requires s in subs
  {
    subs[s].entry in store && InStep(subs[s], store[subs[s].entry])
  }

  /** An entry's queues are those of the subscribers that follow it. */
  ghost predicate QueuesOk(subs: map<SubId, Subscriber>, id: EntryId, e: Entry) {
    && Distinct(e.subscribers)
    && forall s :: s in e.subscribers <==> s in subs && subs[s].entry == id && subs[s].stage == Following
  }

  lemma SomesMore(events: seq<string>, from: nat, event: string)
    requires from <= |events|
    ensures Somes((events + [event])[from..]) == Somes(events[from..]) + [Some(event)]
  {
    assert (events + [event])[from..] == events[from..] + [event];
  }

  lemma SomesFirst(events: seq<string>, from: nat)
    requires from < |events|
    ensures Somes(events[from..]) == [Some(events[from])] + Somes(events[from + 1..])
    ensures events[..from + 1] == events[..from] + [events[from]]
  {
    assert events[from..] == [events[from]] + events[from + 1..];
  }

  function Weight(weigh: string -> nat, events: seq<string>): nat {
    if events == [] then 0 else weigh(events[0]) + Weight(weigh, events[1..])
  }

  function TotalBytes(weigh: string -> nat, store: map<EntryId, Entry>, order: seq<(string, EntryId)>): nat
    requires forall i :: 0 <= i < |order| ==> order[i].1 in store
  {
    if order == [] then 0 else Weight(weigh, store[order[0].1].events) + TotalBytes(weigh, store, order[1..])
  }

  ghost predicate KeysOnce(order: seq<(string, EntryId)>) {
    forall i, j :: 0 <= i < j < |order| ==> order[i].0 != order[j].0
  }

  datatype Limits = Limits(ttl: int, maxEntries: nat, maxBytes: nat, weigh: string -> nat)

  ghost predicate Stored(store: map<EntryId, Entry>, order: seq<(string, EntryId)>) {
    forall p :: p in order ==> p.1 in store
  }

  predicate Expired(l: Limits, store: map<EntryId, Entry>, id: EntryId, now: int)
    requires id in store
  {
    store[id].finished && now - store[id].completedAt > l.ttl
  }

  ghost function Unexpired(l: Limits, store: map<EntryId, Entry>, order: seq<(string, EntryId)>, now: int): (r: seq<(string, EntryId)>)
    requires Stored(store, order)
    ensures forall p :: p in r <==> p in order && !Expired(l, store, p.1, now)
  {
    if order == [] then [] else
      var n := |order| - 1;
      assert order == order[..n] + [order[n]];
      Unexpired(l, store, order[..n], now) + (if Expired(l, store, order[n].1, now) then [] else [order[n]])
  }

  ghost function Trimmed(l: Limits, store: map<EntryId, Entry>, order: seq<(string, EntryId)>): (r: seq<(string, EntryId)>)
    requires Stored(store, order)
    ensures Stored(store, r) && |r| <= |order| && r == order[|order| - |r|..]
    ensures forall p :: p in order && p !in r ==> store[p.1].finished
    ensures r == [] || !store[r[0].1].finished || (|r| <= l.maxEntries && TotalBytes(l.weigh, store, r) <= l.maxBytes)
  {
    if order != [] && (|order| > l.maxEntries || TotalBytes(l.weigh, store, order) > l.maxBytes) && store[order[0].1].finished
    then
      assert order == [order[0]] + order[1..];
      Trimmed(l, store, order[1..])
    else order
  }

  /** The entries an eviction leaves, in their order. */
  ghost function Surviving(l: Limits, store: map<EntryId, Entry>, order: seq<(string, EntryId)>, now: int): (r: seq<(string, EntryId)>)
    requires Stored(store, order)
  {
    Trimmed(l, store, Unexpired(l, store, order, now))
  }

  /** Eviction drops no unfinished entry and keeps no expired one; what is left fits the limits unless its oldest entry is unfinished. */
  lemma EvictionSpares(l: Limits, store: map<EntryId, Entry>, order: seq<(string, EntryId)>, now: int)
    requires Stored(store, order)
    ensures var r := Surviving(l, store, order, now);
            && (forall p :: p in r ==> p in order && !Expired(l, store, p.1, now))
            && (forall p :: p in order && !store[p.1].finished ==> p in r)
            && (r == [] || !store[r[0].1].finished || (|r| <= l.maxEntries && TotalBytes(l.weigh, store, r) <= l.maxBytes))
  {
  }

  /** The sweep has looked at k of the entries there were, and is at place i of those left. */
  ghost predicate Swept(l: Limits, store: map<EntryId, Entry>, all: seq<(string, EntryId)>, k: nat, now: int, order: seq<(string, EntryId)>, i: nat) {
    k <= |all| && i <= |order| && Stored(store, all) && order[..i] == Unexpired(l, store, all[..k], now) && order[i..] == all[k..]
  }

  lemma SweptStep(l: Limits, store: map<EntryId, Entry>, all: seq<(string, EntryId)>, k: nat, now: int, order: seq<(string, EntryId)>, i: nat)
    requires Swept(l, store, all, k, now, order, i) && i < |order|
    ensures k < |all| && order[i].1 in store
    ensures if Expired(l, store, order[i].1, now) then Swept(l, store, all, k + 1, now, order[..i] + order[i + 1..], i)
            else Swept(l, store, all, k + 1, now, order, i + 1)
  {
    assert order[i] == order[i..][0] == all[k..][0] == all[k];
    assert all[..k + 1][..k] == all[..k];
    assert order[i + 1..] == order[i..][1..] == all[k..][1..] == all[k + 1..];
    if Expired(l, store, order[i].1, now) {
      var rest := order[..i] + order[i + 1..];
      assert rest[..i] == order[..i] && rest[i..] == order[i + 1..];
    } else {
      assert order[..i + 1] == order[..i] + [order[i]];
    }
  }

  lemma SweptAll(l: Limits, store: map<EntryId, Entry>, all: seq<(string, EntryId)>, k: nat, now: int, order: seq<(string, EntryId)>, i: nat)
    requires Swept(l, store, all, k, now, order, i) && i == |order|
    ensures order == Unexpired(l, store, all, now)
  {
    assert |order[i..]| == 0 && |all[k..]| == 0 && all[..k] == all && order[..i] == order;
  }

  ghost predicate Unlisted(order: seq<(string, EntryId)>, key: string) {
    forall i :: 0 <= i < |order| ==> order[i].0 != key
  }

  /** The key is listed. With the same payload its entry is handed out and becomes the youngest; with another it is refused. */
  ghost predicate MovedToEnd(was: seq<(string, EntryId)>, now: seq<(string, EntryId)>, key: string, store: map<EntryId, Entry>, hash: string, id: Option<EntryId>) {
    exists i {:trigger was[i]} ::
      && 0 <= i < |was| && was[i].0 == key && was[i].1 in store
      && (if store[was[i].1].hash == hash then id == Some(was[i].1) && now == was[..i] + was[i + 1..] + [was[i]] else id == None && now == was)
  }

  /** Streams only grow and stay finished; nothing a client received is taken back. */
  ghost predicate Onward(store: map<EntryId, Entry>, subs: map<SubId, Subscriber>, store': map<EntryId, Entry>, subs': map<SubId, Subscriber>) {
    && (forall id {:trigger Grown(store, store', id)} :: id in store ==> Grown(store, store', id))
    && (forall s {:trigger Later(subs, subs', s)} :: s in subs ==> Later(subs, subs', s))
  }

  ghost predicate Grown(store: map<EntryId, Entry>, store': map<EntryId, Entry>, id: EntryId)
    requires id in store
  {
    && id in store' && store[id].events <= store'[id].events
    && (store[id].finished ==> store'[id].finished && store'[id].events == store[id].events)
  }

  ghost predicate Later(subs: map<SubId, Subscriber>, subs': map<SubId, Subscriber>, s: SubId)
    requires s in subs
  {
    s in subs' && subs[s].emitted <= subs'[s].emitted && subs'[s].entry == subs[s].entry
  }

  lemma OnwardMore(t: map<EntryId, Entry>, s: map<SubId, Subscriber>, t': map<EntryId, Entry>, s': map<SubId, Subscriber>)
    requires t.Keys <= t'.Keys && forall id :: id in t ==> t'[id] == t[id]
    requires s.Keys <= s'.Keys && forall x :: x in s ==> s'[x] == s[x]
    ensures Onward(t, s, t', s')
  {
  }

  lemma OnwardTrans(t: map<EntryId, Entry>, s: map<SubId, Subscriber>, t': map<EntryId, Entry>, s': map<SubId, Subscriber>,
                    t'': map<EntryId, Entry>, s'': map<SubId, Subscriber>)
    requires Onward(t, s, t', s') && Onward(t', s', t'', s'')
    ensures Onward(t, s, t'', s'')
  {
    forall id | id in t ensures Grown(t, t'', id) {
      assert Grown(t, t', id) && Grown(t', t'', id);
    }
    forall x | x in s ensures Later(s, s'', x) {
      assert Later(s, s', x) && Later(s', s'', x);
    }
  }

  /** What happens between two switches of the event loop. */
  datatype Turn =
    | Opens(key: string, hash: string, now: int)
    | Publishes(id: EntryId, event: string)
    | Ends(id: EntryId, time: int)
    | Advances(sub: SubId)
    | GoesAway(sub: SubId)

  class RequestReplayRegistry {
    const ttl: int
    const maxEntries: nat
    const maxBytes: nat
    const weigh: string -> nat
    var order: seq<(string, EntryId)>
    var store: map<EntryId, Entry>
    var subs: map<SubId, Subscriber>
    var nextEntry: EntryId
    var nextSub: SubId

    ghost predicate Listed()
      reads this
    {
      && KeysOnce(order)
      && (forall i {:trigger order[i]} :: 0 <= i < |order| ==> order[i].1 in store && store[order[i].1].key == order[i].0)
      && (forall id {:trigger store[id]} :: id in store && !store[id].finished ==> EntryListed(order, id, store[id]))
    }

    ghost predicate Valid()
      reads this
    {
      && Listed()
      && (forall id :: id in store ==> id < nextEntry)
      && (forall s :: s in subs ==> s < nextSub)
      && (forall id {:trigger QueuesOk(subs, id, store[id])} :: id in store ==> QueuesOk(subs, id, store[id]))
      && (forall s {:trigger SubOk(store, subs, s)} :: s in subs ==> SubOk(store, subs, s))
    }

    ghost function Bounds(): Limits {
      Limits(ttl, maxEntries, maxBytes, weigh)
    }

    constructor (ttl: int, maxEntries: nat, maxBytes: nat, weigh: string -> nat)
      ensures Valid() && store == map[] && subs == map[]
    {
      this.ttl, this.maxEntries, this.maxBytes, this.weigh := ttl, maxEntries, maxBytes, weigh;
      order, store, subs, nextEntry, nextSub := [], map[], map[], 0, 0;
    }

    // -------------------------------------------------------------- eviction

    /** Drop entry i from the order. */
    method Drop(i: nat)
      requires Valid() && i < |order| && store[order[i].1].finished
      modifies this`order
      ensures Valid() && order == old(order)[..i] + old(order)[i + 1..]
    {
      ghost var was := order;
      order := order[..i] + order[i + 1..];
      forall id | id in store && !store[id].finished ensures EntryListed(order, id, store[id]) {
        assert EntryListed(was, id, store[id]);
        var j :| 0 <= j < |was| && was[j] == (store[id].key, id);
        assert j != i;
        assert (if j < i then order[j] else order[j - 1]) == was[j];
      }
    }

    /** Drop finished entries past their time, then the oldest ones while there are too many entries or bytes; an
        unfinished entry is never dropped, and stops the dropping when it is the oldest. */
    method Evict(now: int)
      requires Valid()
      modifies this`order
      ensures Valid() && order == Surviving(Bounds(), store, old(order), now)
    {
      Sweep(now);
      Trim();
    }

    /** The first half: finished entries past their time go. */
    method Sweep(now: int)
      requires Valid()
      modifies this`order
      ensures Valid() && order == Unexpired(Bounds(), store, old(order), now)
    {
      ghost var all := order;
      ghost var k := 0;
      var i := 0;
      while i < |order|
        invariant Valid() && k <= |all| && Swept(Bounds(), store, all, k, now, order, i)
        decreases |all| - k
      {
        var e := store[order[i].1];
        SweptStep(Bounds(), store, all, k, now, order, i);
        if e.finished && now - e.completedAt > ttl {
          Drop(i);
        } else {
          i := i + 1;
        }
        k := k + 1;
      }
      SweptAll(Bounds(), store, all, k, now, order, i);
    }

    /** The second half: the oldest go while there are too many. */
    method Trim()
      requires Valid()
      modifies this`order
      ensures Valid() && order == Trimmed(Bounds(), store, old(order))
    {
      var total := TotalBytes(weigh, store, order);
      while order != [] && (|order| > maxEntries || total > maxBytes) && store[order[0].1].finished
        invariant Valid() && total == TotalBytes(weigh, store, order)
        invariant Trimmed(Bounds(), store, order) == Trimmed(Bounds(), store, old(order))
        decreases |order|
      {
        total := DropOldest(total);
      }
    }

    method DropOldest(total: nat) returns (rest: nat)
      requires Valid() && order != [] && store[order[0].1].finished && total == TotalBytes(weigh, store, order)
      requires |order| > maxEntries || total > maxBytes
      modifies this`order
      ensures Valid() && |order| < |old(order)| && rest == TotalBytes(weigh, store, order)
      ensures Trimmed(Bounds(), store, order) == Trimmed(Bounds(), store, old(order))
    {
      rest := total - Weight(weigh, store[order[0].1].events);
      assert order[..0] + order[1..] == order[1..];
      Drop(0);
    }

    // -------------------------------------------------------------- publishing

    /** Deliver one item to the first n queues of an entry, the record having grown by it already. */
    method Deliver(id: EntryId, item: Option<string>)
      requires id in store && QueuesOk(subs, id, store[id])
      modifies this`subs
      ensures subs.Keys == old(subs).Keys
      ensures forall s :: s in subs ==>
                subs[s] == if s in store[id].subscribers then old(subs)[s].(queue := old(subs)[s].queue + [item]) else old(subs)[s]
    {
      var queues := store[id].subscribers;
      var i := 0;
      while i < |queues|
        invariant 0 <= i <= |queues| && subs.Keys == old(subs).Keys
        invariant forall s :: s in subs ==>
                    subs[s] == if s in queues[..i] then old(subs)[s].(queue := old(subs)[s].queue + [item]) else old(subs)[s]
      {
        var s := queues[i];
        assert s in store[id].subscribers;
        assert s !in queues[..i];
        subs := subs[s := subs[s].(queue := subs[s].queue + [item])];
        assert queues[..i + 1] == queues[..i] + [s];
        i := i + 1;
      }
      assert queues[..i] == queues;
    }

    /** The producer of an unfinished stream publishes an event: it is recorded, and queued for every follower. */
    method Publish(id: EntryId, event: string)
      requires Valid() && id in store && !store[id].finished
      modifies this`store, this`subs
      ensures Valid() && store == old(store)[id := old(store)[id].(events := old(store)[id].events + [event])]
      ensures Untouched(old(subs), subs)
    {
      assert QueuesOk(subs, id, store[id]);
      store := store[id := store[id].(events := store[id].events + [event])];
      assert QueuesOk(subs, id, store[id]);
      Deliver(id, Some(event));
      forall s | s in subs ensures SubOk(store, subs, s) {
        assert SubOk(old(store), old(subs), s);
        if old(subs)[s].entry == id { PublishKeeps(old(subs)[s], old(store)[id], event); }
      }
      QueuesKept(old(subs), subs, old(store), store);
      forall o | o in store && !store[o].finished ensures EntryListed(order, o, store[o]) {
        assert EntryListed(order, o, old(store)[o]);
      }
    }

    /** The producer is done, however it ended: followers get the end mark, and old entries may go. */
    method Finish(id: EntryId, now: int)
      requires Valid() && id in store && !store[id].finished
      modifies this`store, this`subs, this`order
      ensures Valid() && store == old(store)[id := old(store)[id].(finished := true, completedAt := now)]
      ensures Untouched(old(subs), subs)
    {
      assert QueuesOk(subs, id, store[id]);
      store := store[id := store[id].(finished := true, completedAt := now)];
      assert QueuesOk(subs, id, store[id]);
      Deliver(id, None);
      forall s | s in subs ensures SubOk(store, subs, s) {
        assert SubOk(old(store), old(subs), s);
        if old(subs)[s].entry == id { FinishKeeps(old(subs)[s], old(store)[id], now); }
      }
      QueuesKept(old(subs), subs, old(store), store);
      forall o | o in store && !store[o].finished ensures EntryListed(order, o, store[o]) {
        assert EntryListed(order, o, old(store)[o]);
      }
      Evict(now);
    }

    // -------------------------------------------------------------- subscribing

    method Find(key: string) returns (at: Option<nat>)
      requires KeysOnce(order)
      ensures at.Some? ==> at.value < |order| && order[at.value].0 == key
      ensures at.None? ==> Unlisted(order, key)
    {
      at := None;
      var i := 0;
      while i < |order| && at.None?
        invariant 0 <= i <= |order|
        invariant at.Some? ==> at.value < |order| && order[at.value].0 == key
        invariant at.None? ==> forall j :: 0 <= j < i ==> order[j].0 != key
        decreases |order| - i, at.None?
      {
        if order[i].0 == key { at := Some(i); } else { i := i + 1; }
      }
    }

    /** The same key and payload join the entry already there, another payload is refused, and an unknown key gets an entry
        of its own, whose caller must produce: never while an entry of that key is still unfinished. */
    method Acquire(key: string, hash: string, now: int) returns (id: Option<EntryId>, owner: bool)
      requires Valid()
      modifies this`order, this`store, this`nextEntry
      ensures Valid()
      ensures id.Some? ==> id.value in store && store[id.value].key == key && store[id.value].hash == hash
      ensures owner ==> id.Some? && id.value !in old(store) && store == old(store)[id.value := Entry(key, hash, [], [], false, 0)]
      ensures owner ==> forall o :: o in old(store) && old(store)[o].key == key ==> old(store)[o].finished
      ensures !owner ==> store == old(store)
      ensures var kept := Surviving(Bounds(), old(store), old(order), now);
              if owner then order == kept + [(key, id.value)] && Unlisted(kept, key) else MovedToEnd(kept, order, key, store, hash, id)
    {
      Evict(now);
      id, owner := Enter(key, hash);
    }

    /** Join the entry of this key, or make one. */
    method Enter(key: string, hash: string) returns (id: Option<EntryId>, owner: bool)
      requires Valid()
      modifies this`order, this`store, this`nextEntry
      ensures Valid()
      ensures id.Some? ==> id.value in store && store[id.value].key == key && store[id.value].hash == hash
      ensures owner ==> id.Some? && id.value !in old(store) && store == old(store)[id.value := Entry(key, hash, [], [], false, 0)]
      ensures owner ==> forall o :: o in old(store) && old(store)[o].key == key ==> old(store)[o].finished
      ensures !owner ==> store == old(store)
      ensures if owner then order == old(order) + [(key, id.value)] && Unlisted(old(order), key)
              else MovedToEnd(old(order), order, key, store, hash, id)
    {
      var at := Find(key);
      id, owner := None, at.None?;
      if at.Some? {
        var was := order[at.value];
        if store[was.1].hash == hash {
          id := Some(was.1);
          MoveToEnd(at.value);
        }
      } else {
        forall o | o in store && store[o].key == key ensures store[o].finished { UnfinishedListed(o); }
        id := Some(nextEntry);
        AddEntry(key, hash);
      }
    }

    /** A client starts to replay an entry from its beginning. */
    method Attach(id: EntryId) returns (sub: SubId)
      requires Valid() && id in store
      modifies this`subs, this`nextSub
      ensures Valid() && sub !in old(subs) && subs == old(subs)[sub := Subscriber(id, Replaying(0), [], [])]
    {
      sub := nextSub;
      subs, nextSub := subs[sub := Subscriber(id, Replaying(0), [], [])], nextSub + 1;
      forall s | s in subs ensures SubOk(store, subs, s) {
        if s != sub { assert SubOk(store, old(subs), s); }
      }
      forall o | o in store ensures QueuesOk(subs, o, store[o]) {
        assert QueuesOk(old(subs), o, store[o]);
      }
    }

    // -------------------------------------------------------------- one step of a subscriber

    /** One step of a subscriber: replay the next recorded event; on catching up, end if the stream is finished and start to
        follow if not, in one stretch, so that nothing published can fall between; when following, take from the queue. */
    method Advance(s: SubId)
      requires Valid() && s in subs
      modifies this`store, this`subs
      ensures Valid() && subs.Keys == old(subs).Keys && store.Keys == old(store).Keys
      ensures forall o :: o in subs && o != s ==> subs[o] == old(subs)[o]
      ensures old(subs)[s].emitted <= subs[s].emitted
      ensures subs[s].stage == Complete ==> subs[s].entry in store && subs[s].emitted == store[subs[s].entry].events
      ensures forall id :: id in store ==> store[id].events == old(store)[id].events && store[id].finished == old(store)[id].finished
      ensures subs[s].entry == old(subs)[s].entry && (subs[s].stage == Cancelled <==> old(subs)[s].stage == Cancelled)
      ensures subs[s].entry in store && store[subs[s].entry].finished && subs[s].stage != Cancelled ==>
                subs[s].stage == Complete || |old(subs)[s].emitted| < |subs[s].emitted|
    {
      assert SubOk(store, subs, s);
      var x := subs[s];
      var e := store[x.entry];
      match x.stage
      case Replaying(next) =>
        if next < |e.events| {
          SomesFirst(e.events, next);
          SetSub(s, x.(stage := Replaying(next + 1), emitted := x.emitted + [e.events[next]]));
        } else if e.finished {
          assert e.events[..next] == e.events;
          SetSub(s, x.(stage := Complete));
        } else {
          assert e.events[..next] == e.events && e.events[next..] == [];
          StartFollowing(s);
        }
      case Following =>
        if e.finished { FinishedQueue(x, e); }
        if x.queue != [] { TakeFromQueue(s); }
      case Complete =>
      case Cancelled =>
    }

    /** Change a subscriber that does not start or stop following. */
    method SetSub(s: SubId, x: Subscriber)
      requires Valid() && s in subs && x.entry == subs[s].entry && (x.stage == Following <==> subs[s].stage == Following)
      requires x.entry in store && InStep(x, store[x.entry])
      modifies this`subs
      ensures Valid() && subs == old(subs)[s := x]
    {
      subs := subs[s := x];
      forall o | o in subs ensures SubOk(store, subs, o) {
        if o != s { assert SubOk(store, old(subs), o); }
      }
      forall id | id in store ensures QueuesOk(subs, id, store[id]) {
        assert QueuesOk(old(subs), id, store[id]);
      }
    }

    /** Caught up with an unfinished stream: join its queues. */
    method StartFollowing(s: SubId)
      requires Valid() && s in subs && subs[s].stage.Replaying? && subs[s].entry in store
      requires !store[subs[s].entry].finished && subs[s].emitted == store[subs[s].entry].events
      modifies this`store, this`subs
      ensures Valid() && subs == old(subs)[s := old(subs)[s].(stage := Following, queue := [])]
      ensures var id := subs[s].entry;
              store == old(store)[id := old(store)[id].(subscribers := old(store)[id].subscribers + [s])]
    {
      var id := subs[s].entry;
      assert QueuesOk(subs, id, store[id]);
      JoinQueues(store[id].subscribers, s);
      store := store[id := store[id].(subscribers := store[id].subscribers + [s])];
      subs := subs[s := subs[s].(stage := Following, queue := [])];
      FollowFresh(subs[s], store[id]);
      Relinked(old(store), old(subs), id, s);
    }

    /** Take one item from a follower's queue: an event to emit, or the mark that the stream is over. */
    method TakeFromQueue(s: SubId)
      requires Valid() && s in subs && subs[s].stage == Following && subs[s].queue != [] && subs[s].entry in store
      modifies this`store, this`subs
      ensures Valid() && subs.Keys == old(subs).Keys && store.Keys == old(store).Keys
      ensures forall o :: o in subs && o != s ==> subs[o] == old(subs)[o]
      ensures old(subs)[s].emitted <= subs[s].emitted && subs[s].entry == old(subs)[s].entry
      ensures subs[s].stage == Complete ==> subs[s].entry in store && subs[s].emitted == store[subs[s].entry].events
      ensures forall id :: id in store ==> store[id].events == old(store)[id].events && store[id].finished == old(store)[id].finished
      ensures subs[s].stage == Complete || (subs[s].stage == Following && |old(subs)[s].emitted| < |subs[s].emitted|)
    {
      assert SubOk(store, subs, s);
      var x := subs[s];
      var e := store[x.entry];
      QueueHead(x, e);
      if x.queue[0].Some? {
        SetSub(s, x.(emitted := x.emitted + [x.queue[0].value], queue := x.queue[1..]));
      } else {
        Leave(s, Complete);
      }
    }

    /** A subscriber stops: its queue is removed if it had one. */
    method Leave(s: SubId, stage: Stage)
      requires Valid() && s in subs && subs[s].entry in store
      requires stage == Cancelled || (stage == Complete && InStep(subs[s].(stage := Complete), store[subs[s].entry]))
      modifies this`store, this`subs
      ensures Valid() && subs == old(subs)[s := old(subs)[s].(stage := stage)]
      ensures store.Keys == old(store).Keys
      ensures forall id :: id in store ==> store[id] == old(store)[id].(subscribers := store[id].subscribers)
    {
      assert SubOk(store, subs, s);
      var id := subs[s].entry;
      assert QueuesOk(subs, id, store[id]);
      var rest := Without(store[id].subscribers, s);
      store := store[id := store[id].(subscribers := rest)];
      subs := subs[s := subs[s].(stage := stage)];
      Relinked(old(store), old(subs), id, s);
    }

    /** The client of a subscriber goes away. */
    method Cancel(s: SubId)
      requires Valid() && s in subs
      modifies this`store, this`subs
      ensures Valid() && subs == old(subs)[s := old(subs)[s].(stage := if old(subs)[s].stage == Complete then Complete else Cancelled)]
      ensures store.Keys == old(store).Keys
      ensures forall id :: id in store ==> store[id] == old(store)[id].(subscribers := store[id].subscribers)
    {
      assert SubOk(store, subs, s);
      if subs[s].stage != Complete { Leave(s, Cancelled); }
    }

    // -------------------------------------------------------------- what holds in every interleaving

    /** At most one stream of a key is unfinished, so at most one producer of a key is ever running. */
    lemma OneProducerPerKey(a: EntryId, b: EntryId)
      requires Valid() && a in store && b in store && !store[a].finished && !store[b].finished && store[a].key == store[b].key
      ensures a == b
    {
      assert EntryListed(order, a, store[a]) && EntryListed(order, b, store[b]);
      var i :| 0 <= i < |order| && order[i] == (store[a].key, a);
      var j :| 0 <= j < |order| && order[j] == (store[b].key, b);
      assert i == j by { SameKeySamePlace(order, i, j); }
    }

    /** Every client has received a prefix of its stream, in order and without repetition; all of it if it ran to the end. */
    lemma EmittedInOrder(s: SubId)
      requires Valid() && s in subs
      ensures subs[s].entry in store && subs[s].emitted <= store[subs[s].entry].events
      ensures subs[s].stage == Complete ==> store[subs[s].entry].finished && subs[s].emitted == store[subs[s].entry].events
    {
      assert SubOk(store, subs, s);
    }

    /** Left alone, a subscriber of a finished stream comes to its end with every event. */
    method RunToEnd(s: SubId)
      requires Valid() && s in subs && subs[s].stage != Cancelled
      requires subs[s].entry in store && store[subs[s].entry].finished
      modifies this`store, this`subs
      ensures Valid() && s in subs && subs[s].stage == Complete && subs[s].entry == old(subs)[s].entry
      ensures subs[s].entry in old(store) && subs[s].emitted == old(store)[subs[s].entry].events
    {
      ghost var id := subs[s].entry;
      ghost var events := store[id].events;
      EmittedInOrder(s);
      while subs[s].stage != Complete
        invariant Valid() && s in subs && subs[s].stage != Cancelled && subs[s].entry == id
        invariant id in store && store[id].finished && store[id].events == events
        invariant |subs[s].emitted| <= |events|
        decreases subs[s].stage != Complete, |events| - |subs[s].emitted|
      {
        Advance(s);
        EmittedInOrder(s);
      }
      EmittedInOrder(s);
    }

    /** The entry a client is to follow, if its payload is not refused. */
    method EntryFor(key: string, hash: string, now: int) returns (id: Option<EntryId>)
      requires Valid()
      modifies this`order, this`store, this`nextEntry
      ensures Valid() && (id.Some? ==> id.value in store)
      ensures Onward(old(store), subs, store, subs)
    {
      var owner;
      id, owner := Acquire(key, hash, now);
      OnwardMore(old(store), subs, store, subs);
    }

    /** A client opens a stream: it gets a subscriber, unless its payload is refused. */
    method Open(key: string, hash: string, now: int)
      requires Valid()
      modifies this
      ensures Valid() && Onward(old(store), old(subs), store, subs)
    {
      var id := EntryFor(key, hash, now);
      if id.Some? {
        ghost var store1, subs1 := store, subs;
        var sub := Attach(id.value);
        OnwardMore(store1, subs1, store, subs);
        OnwardTrans(old(store), old(subs), store1, subs1, store, subs);
      }
    }

    /** One turn of the event loop. Only a producer publishes or ends its stream, and it does so while it is unfinished. */
    method Take(turn: Turn)
      requires Valid()
      modifies this
      ensures Valid() && Onward(old(store), old(subs), store, subs)
    {
      match turn
      case Opens(key, hash, now) => Open(key, hash, now);
      case Publishes(id, event) =>
        if id in store && !store[id].finished { Publish(id, event); }
      case Ends(id, now) =>
        if id in store && !store[id].finished { Finish(id, now); }
      case Advances(s) =>
        if s in subs { Advance(s); }
      case GoesAway(s) =>
        if s in subs { Cancel(s); }
    }

    /** Any interleaving of clients and producers keeps every stream and every subscriber in order. */
    method Run(turns: seq<Turn>)
      requires Valid()
      modifies this
      ensures Valid() && Onward(old(store), old(subs), store, subs)
    {
      for i := 0 to |turns|
        invariant Valid() && Onward(old(store), old(subs), store, subs)
      {
        ghost var store0, subs0 := store, subs;
        Take(turns[i]);
        OnwardTrans(old(store), old(subs), store0, subs0, store, subs);
      }
    }

    /** After one subscriber of one entry joined or left its queues, everything else is as it was. */
    lemma Relinked(store0: map<EntryId, Entry>, subs0: map<SubId, Subscriber>, id: EntryId, s: SubId)
      requires Listed()
      requires id in store0 && id in store && store == store0[id := store[id]] && store[id] == store0[id].(subscribers := store[id].subscribers)
      requires s in subs0 && s in subs && subs == subs0[s := subs[s]] && subs0[s].entry == id && subs[s].entry == id
      requires forall o {:trigger SubOk(store0, subs0, o)} :: o in subs0 ==> SubOk(store0, subs0, o)
      requires forall o {:trigger QueuesOk(subs0, o, store0[o])} :: o in store0 ==> QueuesOk(subs0, o, store0[o])
      requires InStep(subs[s], store[id]) && QueuesOk(subs, id, store[id])
      ensures forall o {:trigger SubOk(store, subs, o)} :: o in subs ==> SubOk(store, subs, o)
      ensures forall o {:trigger QueuesOk(subs, o, store[o])} :: o in store ==> QueuesOk(subs, o, store[o])
    {
      forall o | o in subs ensures SubOk(store, subs, o) {
        if o != s { assert SubOk(store0, subs0, o); }
      }
      forall o | o in store ensures QueuesOk(subs, o, store[o]) {
        if o != id { assert QueuesOk(subs0, o, store0[o]); }
      }
    }

    lemma UnfinishedListed(o: EntryId)
      requires Listed() && o in store
      ensures !store[o].finished ==> exists i :: 0 <= i < |order| && order[i].0 == store[o].key
    {
      if !store[o].finished {
        assert EntryListed(order, o, store[o]);
        var i :| 0 <= i < |order| && order[i] == (store[o].key, o);
        assert order[i].0 == store[o].key;
      }
    }

    method MoveToEnd(i: nat)
      requires Valid() && i < |order|
      modifies this`order
      ensures Valid() && order == old(order)[..i] + old(order)[i + 1..] + [old(order)[i]]
    {
      ghost var was := order;
      order := order[..i] + order[i + 1..] + [order[i]];
      forall id | id in store && !store[id].finished ensures EntryListed(order, id, store[id]) {
        assert EntryListed(was, id, store[id]);
        var j :| 0 <= j < |was| && was[j] == (store[id].key, id);
        assert (if j < i then order[j] else if j == i then order[|order| - 1] else order[j - 1]) == was[j];
      }
    }

    method AddEntry(key: string, hash: string)
      requires Valid() && Unlisted(order, key)
      modifies this`order, this`store, this`nextEntry
      ensures Valid() && nextEntry == old(nextEntry) + 1 && order == old(order) + [(key, old(nextEntry))]
      ensures old(nextEntry) !in old(store) && store == old(store)[old(nextEntry) := Entry(key, hash, [], [], false, 0)]
    {
      var id := nextEntry;
      order, store, nextEntry := order + [(key, id)], store[id := Entry(key, hash, [], [], false, 0)], id + 1;
      forall s | s in subs ensures SubOk(store, subs, s) {
        assert SubOk(old(store), subs, s);
      }
      forall o | o in store ensures QueuesOk(subs, o, store[o]) {
        if o != id {
          assert QueuesOk(subs, o, old(store)[o]);
        } else {
          forall s | s in subs ensures subs[s].entry != id { assert SubOk(old(store), subs, s); }
        }
      }
      forall o | o in store && !store[o].finished ensures EntryListed(order, o, store[o]) {
        if o != id {
          assert EntryListed(old(order), o, store[o]);
        } else {
          assert order[|order| - 1] == (key, id);
        }
      }
    }
  }

  lemma FinishedQueue(s: Subscriber, e: Entry)
    requires InStep(s, e) && s.stage == Following && e.finished
    ensures s.queue != []
  {
  }

  lemma JoinQueues(queues: seq<SubId>, s: SubId)
    requires Distinct(queues) && s !in queues
    ensures Distinct(queues + [s]) && forall o :: o in queues + [s] <==> o in queues || o == s
  {
  }

  function Without(queues: seq<SubId>, s: SubId): (r: seq<SubId>)
    requires Distinct(queues)
    ensures Distinct(r) && forall o :: o in r <==> o in queues && o != s
  {
    if queues == [] then [] else
      assert forall i :: 0 <= i < |queues[1..]| ==> queues[1..][i] == queues[i + 1];
      assert queues == [queues[0]] + queues[1..] && queues[0] !in queues[1..];
      if queues[0] == s then queues[1..] else
        var r := Without(queues[1..], s);
        assert queues[0] !in r;
        [queues[0]] + r
  }

  lemma FollowFresh(s: Subscriber, e: Entry)
    requires s.stage == Following && s.queue == [] && !e.finished && s.emitted == e.events
    ensures InStep(s, e)
  {
    assert e.events[..|e.events|] == e.events && e.events[|e.events|..] == [];
  }

  /** The head of a follower's queue is its next event, or the end mark when it has all of them. */
  lemma QueueHead(s: Subscriber, e: Entry)
    requires InStep(s, e) && s.stage == Following && s.queue != []
    ensures s.queue[0].Some? ==>
              InStep(s.(emitted := s.emitted + [s.queue[0].value], queue := s.queue[1..]), e)
    ensures s.queue[0].None? ==> InStep(s.(stage := Complete), e)
  {
    var n := |s.emitted|;
    if n < |e.events| {
      SomesFirst(e.events, n);
      assert s.queue[1..] == Somes(e.events[n + 1..]) + (if e.finished then [None] else []);
    } else {
      assert e.events[n..] == [] && e.events[..n] == e.events;
      assert s.queue == if e.finished then [None] else [];
    }
  }

  /** Nothing a subscriber has emitted is taken back, and no stage changes. */
  ghost predicate Untouched(subs: map<SubId, Subscriber>, subs': map<SubId, Subscriber>) {
    subs'.Keys == subs.Keys && forall s :: s in subs ==> subs'[s] == subs[s].(queue := subs'[s].queue)
  }

  lemma PublishKeeps(s: Subscriber, e: Entry, event: string)
    requires InStep(s, e) && !e.finished
    ensures var e' := e.(events := e.events + [event]);
            InStep(if s.stage == Following then s.(queue := s.queue + [Some(event)]) else s, e')
  {
    if s.stage == Following {
      SomesMore(e.events, |s.emitted|, event);
      assert Somes(e.events[|s.emitted|..]) + [] == Somes(e.events[|s.emitted|..]);
    }
  }

  lemma FinishKeeps(s: Subscriber, e: Entry, now: int)
    requires InStep(s, e) && !e.finished
    ensures InStep(if s.stage == Following then s.(queue := s.queue + [None]) else s, e.(finished := true, completedAt := now))
  {
    assert Somes(e.events[|s.emitted|..]) + [] == Somes(e.events[|s.emitted|..]);
  }

  lemma QueuesKept(subs: map<SubId, Subscriber>, subs': map<SubId, Subscriber>, store: map<EntryId, Entry>, store': map<EntryId, Entry>)
    requires Untouched(subs, subs') && store'.Keys == store.Keys
    requires forall id :: id in store ==> store'[id].subscribers == store[id].subscribers
    requires forall id {:trigger QueuesOk(subs, id, store[id])} :: id in store ==> QueuesOk(subs, id, store[id])
    ensures forall id {:trigger QueuesOk(subs', id, store'[id])} :: id in store' ==> QueuesOk(subs', id, store'[id])
  {
    forall id | id in store' ensures QueuesOk(subs', id, store'[id]) {
      assert QueuesOk(subs, id, store[id]);
    }
  }

  lemma SameKeySamePlace(order: seq<(string, EntryId)>, i: nat, j: nat)
    requires KeysOnce(order) && i < |order| && j < |order| && order[i].0 == order[j].0
    ensures i == j
  {
  }
}
