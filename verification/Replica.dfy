// One API replica's part in a stream: persistEvent and loadEvents over the shared keys and
// its own memory (services/api-server/internal/server/server.go:2088-2125).

module Replica {
  import opened Basics
  import opened RunTables
  import opened StreamEvents
  import opened RunProtocol
  import opened StreamServer
  import RunJoin

  /** The items of a list that parse. */
  function Readable(items: seq<Message>): seq<Event>
  {
    if items == [] then []
    else
      var last := items[|items| - 1];
      Readable(items[..|items| - 1]) + if last.Parsed? then [last.event] else []
  }

  lemma {:induction false} PublishedIsReadable(log: seq<Event>)
    ensures Readable(Published(log)) == log
    decreases |log|
  {
    hide IsTerminal;
    if log != [] {
      var front := log[..|log| - 1];
      assert Published(log)[..|log| - 1] == Published(front);
      PublishedIsReadable(front);
      assert front + [log[|log| - 1]] == log;
    }
  }

  /** Reading goes item by item: what parses is kept in its place, what does not is passed over. */
  lemma {:induction false} ReadableParts(a: seq<Message>, b: seq<Message>)
    ensures Readable(a + b) == Readable(a) + Readable(b)
    ensures Readable([]) == [] == Readable([Malformed]) && forall e :: Readable([Parsed(e)]) == [e]
    decreases |b|
  {
    hide IsTerminal;
    assert forall m: Message :: [m][..0] == [];
    if b == [] {
      assert a + b == a;
    } else {
      assert (a + b)[..|a + b| - 1] == a + b[..|b| - 1];
      ReadableParts(a, b[..|b| - 1]);
    }
  }

  class Server {
    var channel: map<RunId, seq<Event>>
    var lists: map<RunId, seq<Message>>
    var memory: map<RunId, seq<Event>>

    constructor ()
      ensures channel == map[] && lists == map[] && memory == map[]
    {
      channel, lists, memory := map[], map[], map[];
    }

    /** Published, then pushed if the run is resumable, then remembered here. */
    method PersistEvent(r: RunId, resumable: bool, e: Event)
      modifies this
      ensures channel == Append(old(channel), r, e) && memory == Append(old(memory), r, e)
      ensures lists == if resumable then old(lists)[r := Get(old(lists), r, []) + [Parsed(e)]] else old(lists)
    {
      channel := channel[r := (if r in channel then channel[r] else []) + [e]];
      if resumable {
        lists := lists[r := (if r in lists then lists[r] else []) + [Parsed(e)]];
      }
      memory := memory[r := (if r in memory then memory[r] else []) + [e]];
    }

    /** What can be read of the list, or the memory of this replica if that is nothing. */
    method LoadEvents(r: RunId) returns (events: seq<Event>)
      ensures events == RunJoin.Loaded(Readable(Get(lists, r, [])), Get(memory, r, []))
    {
      var items := if r in lists then lists[r] else [];
      events := [];
      for i := 0 to |items|
        invariant events == Readable(items[..i])
      {
        assert items[..i + 1][..i] == items[..i];
        if items[i].Parsed? {
          events := events + [items[i].event];
        }
      }
      assert items[..|items|] == items;
      if |events| > 0 {
        return;
      }
      events := if r in memory then memory[r] else [];
    }
  }

  /** The list after one replica has persisted `events` of a run, one after the other. */
  function ItemsAfter(items: seq<Message>, resumable: bool, events: seq<Event>): seq<Message>
    decreases |events|
  {
    if events == [] then items
    else ItemsAfter(if resumable then items + [Parsed(events[0])] else items, resumable, events[1..])
  }

  lemma {:induction false} ItemsAre(items: seq<Message>, resumable: bool, events: seq<Event>)
    ensures ItemsAfter(items, resumable, events) == if resumable then items + Published(events) else items
    decreases |events|
  {
    hide IsTerminal;
    if events == [] {
      assert items + Published(events) == items;
    } else {
      var next := if resumable then items + [Parsed(events[0])] else items;
      ItemsAre(next, resumable, events[1..]);
      assert Published(events) == [Parsed(events[0])] + Published(events[1..]);
    }
  }

  lemma {:induction false} ReadableAppend(items: seq<Message>, events: seq<Event>)
    ensures Readable(items + Published(events)) == Readable(items) + events
    decreases |events|
  {
    hide IsTerminal;
    if events == [] {
      assert items + Published(events) == items;
    } else {
      var (n, all) := (|events| - 1, items + Published(events));
      ReadableAppend(items, events[..n]);
      assert all[..|all| - 1] == items + Published(events[..n]);
      assert all[|all| - 1] == Parsed(events[n]);
      assert events[..n] + [events[n]] == events;
    }
  }

  /** Whatever the list already holds, what is persisted of a resumable run is loaded by every replica, after what
      could be read before. Of any other run it is loaded by the replica that persisted it, after what that replica
      already remembered, and by no other, as long as nothing can be read of the list. */
  lemma PersistedIsLoaded(items: seq<Message>, resumable: bool, events: seq<Event>, mine: seq<Event>, other: seq<Event>)
    ensures var list := Readable(ItemsAfter(items, resumable, events));
            && (resumable && events != [] ==>
                  RunJoin.Loaded(list, mine + events) == RunJoin.Loaded(list, other) == Readable(items) + events)
            && (!resumable && Readable(items) == [] ==>
                  RunJoin.Loaded(list, mine + events) == mine + events && RunJoin.Loaded(list, other) == other)
  {
    ItemsAre(items, resumable, events);
    ReadableAppend(items, events);
    hide Readable, ItemsAfter;
  }

  /** The two steps that RunProtocol interleaves with the workers are, taken together, persistEvent. */
  lemma PersistIsPublishThenPush(s: State, r: RunId, resumable: bool)
    requires r in s.queueing && s.queueing[r] == ToPublish(resumable)
    ensures var s' := Apply(Apply(s, Api(PublishQueued(r))), Api(PushQueued(r)));
            && s'.redis.channel == Append(s.redis.channel, r, QUEUED)
            && s'.redis.lists == (if resumable then Append(s.redis.lists, r, QUEUED) else s.redis.lists)
            && r !in s'.queueing && s'.tables == s.tables && s'.workers == s.workers
  {
  }
}
