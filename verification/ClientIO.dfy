/** The client object: its methods carry out the session steps on its own fields, its id table and
    the shared store. */
module ClientIO {
  import opened Messages
  import opened MessageIds
  import opened Persistence
  import opened Session

  class Client {
    const clientID: string
    const handle: nat // tells it from other Client objects of the same id
    const depth: nat
    const ids: MessageIDs
    const store: MemoryPersistence
    var connected: bool
    var cleanSession: bool
    var outboundMessages: seq<Message>
    var outboundPriority: seq<Control>

    constructor (clientID: string, handle: nat, depth: nat, ids: MessageIDs, store: MemoryPersistence)
      ensures this.clientID == clientID && this.handle == handle && this.depth == depth
      ensures this.ids == ids && this.store == store
      ensures !connected && !cleanSession && outboundMessages == [] && outboundPriority == []
    {
      this.clientID, this.handle, this.depth, this.ids, this.store := clientID, handle, depth, ids, store;
      connected, cleanSession, outboundMessages, outboundPriority := false, false, [], [];
    }

    ghost predicate Opened()
      reads store
    {
      clientID in store.outbound
    }

    ghost function View(): Conn
      requires Opened()
      reads this, ids, store
    {
      Conn(ClientState(handle, connected, cleanSession, ids.View(), outboundMessages, outboundPriority),
           store.outbound[clientID])
    }

    /** Only this client's outbound store has changed. */
    twostate predicate OthersKept()
      reads store
    {
      store.inbound == old(store.inbound)
      && forall c :: c != clientID ==> (c in store.outbound <==> c in old(store.outbound))
                                       && (c in store.outbound ==> store.outbound[c] == old(store.outbound)[c])
    }

    /** What DeliverMessage and FindRetained do for one recipient. */
    method Deliver(m: Message, origin: nat)
      requires Opened()
      modifies this, store
      ensures Opened() && View() == Hand(old(View()), m, origin, depth) && OthersKept()
      ensures outboundMessages == if connected && |old(outboundMessages)| < depth then old(outboundMessages) + [m]
                                  else old(outboundMessages)
      ensures m.qos > 0 && m.uuid !in old(store.outbound[clientID]) ==>
        store.outbound[clientID] == old(store.outbound[clientID])[m.uuid := PublishEntry(m, origin)]
      ensures m.qos == 0 ==> store.outbound[clientID] == old(store.outbound[clientID])
    {
      if m.qos > 0 {
        if connected {
          var _ := store.Add(clientID, Outbound, m.uuid, PublishEntry(m, origin));
          if |outboundMessages| < depth {
            outboundMessages := outboundMessages + [m];
          }
        } else {
          var _ := store.Add(clientID, Outbound, m.uuid, PublishEntry(m, origin));
        }
      } else if connected {
        if |outboundMessages| < depth {
          outboundMessages := outboundMessages + [m];
        }
      }
    }

    /** The outboundMessages case of Send. The message is shared with the store, so its id is set there too. */
    method Send() returns (wire: Message)
      requires Opened() && outboundMessages != []
      modifies this, ids, store
      ensures Opened() && View() == SendOne(old(View())) && OthersKept()
      ensures wire == old(outboundMessages[0]).(messageId := wire.messageId)
      ensures outboundMessages == old(outboundMessages)[1..]
      ensures wire.qos == 1 || wire.qos == 2 ==>
        if SomeIdFree(old(ids.View())) then
          IsLeastFree(old(ids.View()), wire.messageId)
          && Takes(old(ids.View()), ids.View(), wire.messageId, wire.uuid)
        else wire.messageId == 0 && ids.View() == old(ids.View())
      ensures (wire.qos == 1 || wire.qos == 2) && wire.uuid in old(store.outbound[clientID])
              && old(store.outbound[clientID])[wire.uuid].PublishEntry? ==>
        store.outbound[clientID][wire.uuid].PublishEntry?
        && store.outbound[clientID][wire.uuid].m.messageId == wire.messageId
      ensures wire.qos != 1 && wire.qos != 2 ==> wire == old(outboundMessages[0]) && ids.View() == old(ids.View())
    {
      IssueMeaning(ids.View(), outboundMessages[0].uuid);
      var msg := outboundMessages[0];
      outboundMessages := outboundMessages[1..];
      wire := msg;
      if msg.qos == 1 || msg.qos == 2 {
        var id := ids.GetMsgID(msg.uuid);
        wire := msg.(messageId := id);
        store.outbound := store.outbound[clientID := Number(store.outbound[clientID], msg.uuid, id)];
      }
    }

    method ReceivePuback(id: nat, uuid: Uuid)
      requires Opened()
      modifies ids, store
      ensures Opened() && View() == OnPuback(old(View()), id, uuid) && OthersKept()
    {
      var used := ids.InUse(id);
      if used {
        var _ := store.Delete(clientID, Outbound, uuid);
        ids.FreeID(id);
      }
    }

    /** PUBREC and the HandleFlow call it makes; uuid is the new PUBREL's. */
    method ReceivePubrec(id: nat, uuid: Uuid)
      requires Opened()
      modifies this, store
      ensures Opened() && View() == OnPubrec(old(View()), id, uuid, depth) && OthersKept()
      ensures outboundPriority
           == if id in old(ids.View()) && |old(outboundPriority)| < depth
              then old(outboundPriority) + [Control(Pubrel, id)] else old(outboundPriority)
    {
      var used := ids.InUse(id);
      if used {
        var _ := store.Add(clientID, Outbound, uuid, PubrelEntry(id));
        if |outboundPriority| < depth {
          outboundPriority := outboundPriority + [Control(Pubrel, id)];
        }
      }
    }

    method ReceivePubcomp(id: nat)
      requires Opened()
      modifies ids
      ensures Opened() && View() == OnPubcomp(old(View()), id)
    {
      var used := ids.InUse(id);
      if used {
        ids.FreeID(id);
      }
    }

    /** The part of Start that resumes a session. done is false when ReplayAll blocks, and Start never
        gets further. */
    method Replay() returns (done: bool, ghost publishes: seq<Uuid>, ghost pubrels: seq<Uuid>)
      requires Opened() && outboundMessages == [] && outboundPriority == []
      modifies this, store
      ensures Opened() && OthersKept()
      ensures done <==> |IsPublish(old(store.outbound[clientID]))| <= depth
                        && |IsPubrel(old(store.outbound[clientID]))| <= depth
      ensures done ==> CanReplay(old(store.outbound[clientID]), publishes, pubrels, depth)
      ensures done ==>
        Conn(ClientState(handle, true, false, map[], outboundMessages, outboundPriority), store.outbound[clientID])
        == Session.Replay(handle, old(store.outbound[clientID]), publishes, pubrels)
    {
      ghost var was := store.outbound[clientID];
      var uuids, messages := store.GetAll(clientID);
      done, publishes, pubrels := ReplayAll(uuids, messages);
      if done {
        ReplayDone(handle, was, store.outbound[clientID], uuids, publishes, pubrels,
                   outboundMessages, outboundPriority, depth);
      }
    }

    /** The replay loop, on the fresh channels of a resumed client: every stored message is marked as a
        duplicate and queued. The sends block and nobody receives yet, so the loop stops where a channel
        overflows. */
    method ReplayAll(uuids: seq<Uuid>, messages: seq<Entry>)
      returns (done: bool, ghost publishes: seq<Uuid>, ghost pubrels: seq<Uuid>)
      requires Opened() && outboundMessages == [] && outboundPriority == []
      requires IsListing(uuids, store.outbound[clientID].Keys) && |messages| == |uuids|
      requires forall i :: 0 <= i < |uuids| ==> messages[i] == store.outbound[clientID][uuids[i]]
      modifies `outboundMessages, `outboundPriority, store
      ensures Opened() && OthersKept()
      ensures done ==> Replaying(old(store.outbound[clientID]), store.outbound[clientID], uuids, |uuids|,
                                 publishes, pubrels, outboundMessages, outboundPriority, depth)
      ensures !done ==> |IsPublish(old(store.outbound[clientID]))| > depth
                        || |IsPubrel(old(store.outbound[clientID]))| > depth
    {
      publishes, pubrels := [], [];
      ghost var was := store.outbound[clientID];
      ReplayStart(was, uuids, depth);
      var i := 0;
      while i < |uuids|
        invariant 0 <= i <= |uuids| && Opened() && OthersKept()
        invariant Replaying(was, store.outbound[clientID], uuids, i, publishes, pubrels,
                            outboundMessages, outboundPriority, depth)
      {
        var u, msg := uuids[i], DupEntry(messages[i]);
        ReplayOne(was, store.outbound[clientID], uuids, i, publishes, pubrels,
                  outboundMessages, outboundPriority, depth);
        ghost var now, queue, priority := store.outbound[clientID], outboundMessages, outboundPriority;
        done := MarkAndQueue(u, msg);
        if !done {
          return;
        }
        i := i + 1;
        if msg.PublishEntry? {
          publishes := publishes + [u];
          assert Replaying(was, now[u := msg], uuids, i, publishes, pubrels, queue + [msg.m], priority, depth);
        } else {
          pubrels := pubrels + [u];
          assert Replaying(was, now[u := msg], uuids, i, publishes, pubrels,
                           queue, priority + [Control(Pubrel, msg.messageId)], depth);
        }
      }
      done := true;
    }

    /** The loop's body: msg is the marked entry. It does not get past a channel that is full. */
    method MarkAndQueue(u: Uuid, msg: Entry) returns (fits: bool)
      requires Opened()
      modifies `outboundMessages, `outboundPriority, store
      ensures Opened() && OthersKept() && store.outbound[clientID] == old(store.outbound[clientID])[u := msg]
      ensures fits <==> (if msg.PublishEntry? then |old(outboundMessages)| else |old(outboundPriority)|) < depth
      ensures outboundMessages
           == if fits && msg.PublishEntry? then old(outboundMessages) + [msg.m] else old(outboundMessages)
      ensures outboundPriority
           == if fits && msg.PubrelEntry? then old(outboundPriority) + [Control(Pubrel, msg.messageId)]
              else old(outboundPriority)
    {
      var marked: Store := store.outbound[clientID][u := msg];
      store.outbound := store.outbound[clientID := marked];
      match msg
      case PublishEntry(m, _) =>
        fits := |outboundMessages| < depth;
        if fits {
          outboundMessages := outboundMessages + [m];
        }
      case PubrelEntry(messageId) =>
        fits := |outboundPriority| < depth;
        if fits {
          outboundPriority := outboundPriority + [Control(Pubrel, messageId)];
        }
    }
  }

  // ---------------------------------------------------------------------------
  // The replay loop's bookkeeping.

  /** After i entries: those are marked in the store and have gone to the two channels, in order. */
  ghost predicate Replaying(was: Store, now: Store, uuids: seq<Uuid>, i: nat, publishes: seq<Uuid>, pubrels: seq<Uuid>,
                            messages: seq<Message>, controls: seq<Control>, depth: nat)
  {
    IsListing(uuids, was.Keys) && i <= |uuids| && MarkedTo(was, now, uuids, i)
    && IsListing(publishes, SeenOf(uuids, i, IsPublish(was))) && IsListing(pubrels, SeenOf(uuids, i, IsPubrel(was)))
    && |publishes| <= depth && |pubrels| <= depth
    && (forall v :: v in publishes ==> v in MarkDup(was) && MarkDup(was)[v].PublishEntry?)
    && (forall v :: v in pubrels ==> v in MarkDup(was) && MarkDup(was)[v].PubrelEntry?)
    && messages == Queued(MarkDup(was), publishes) && controls == Controls(MarkDup(was), pubrels)
  }

  lemma ReplayStart(was: Store, uuids: seq<Uuid>, depth: nat)
    requires IsListing(uuids, was.Keys)
    ensures Replaying(was, was, uuids, 0, [], [], [], [], depth)
  {
  }

  lemma ReplayOne(was: Store, now: Store, uuids: seq<Uuid>, i: nat, publishes: seq<Uuid>, pubrels: seq<Uuid>,
                  messages: seq<Message>, controls: seq<Control>, depth: nat)
    requires Replaying(was, now, uuids, i, publishes, pubrels, messages, controls, depth) && i < |uuids|
    ensures var u := uuids[i];
      u in was
      && var e := DupEntry(was[u]);
      if e.PublishEntry? then
        if |messages| < depth then
          Replaying(was, now[u := e], uuids, i + 1, publishes + [u], pubrels, messages + [e.m], controls, depth)
        else |IsPublish(was)| > depth
      else
        if |controls| < depth then
          Replaying(was, now[u := e], uuids, i + 1, publishes, pubrels + [u], messages,
                    controls + [Control(Pubrel, e.messageId)], depth)
        else |IsPubrel(was)| > depth
  {
    var u := uuids[i];
    SeenOneMore(uuids, i, was, publishes, pubrels);
    MarkedOneMore(was, now, uuids, i);
    var e := DupEntry(was[u]);
    if e.PublishEntry? {
      ListingSize(publishes + [u], SeenOf(uuids, i + 1, IsPublish(was)), IsPublish(was));
      QueuedOneMore(MarkDup(was), publishes, u);
    } else {
      ListingSize(pubrels + [u], SeenOf(uuids, i + 1, IsPubrel(was)), IsPubrel(was));
      ControlsOneMore(MarkDup(was), pubrels, u);
    }
  }

  lemma ReplayDone(handle: nat, was: Store, now: Store, uuids: seq<Uuid>, publishes: seq<Uuid>, pubrels: seq<Uuid>,
                   messages: seq<Message>, controls: seq<Control>, depth: nat)
    requires Replaying(was, now, uuids, |uuids|, publishes, pubrels, messages, controls, depth)
    ensures |IsPublish(was)| <= depth && |IsPubrel(was)| <= depth && CanReplay(was, publishes, pubrels, depth)
    ensures Conn(ClientState(handle, true, false, map[], messages, controls), now)
      == Session.Replay(handle, was, publishes, pubrels)
  {
    AllSeen(uuids, was, publishes, pubrels);
    assert now == MarkDup(was);
  }

  lemma MarkedOneMore(was: Store, now: Store, uuids: seq<Uuid>, i: nat)
    requires i < |uuids| && uuids[i] in was && MarkedTo(was, now, uuids, i)
    ensures MarkedTo(was, now[uuids[i] := DupEntry(was[uuids[i]])], uuids, i + 1)
  {
    assert uuids[..i + 1] == uuids[..i] + [uuids[i]];
  }

  ghost predicate MarkedTo(was: Store, now: Store, uuids: seq<Uuid>, i: nat)
    requires i <= |uuids|
  {
    now.Keys == was.Keys && forall u :: u in was ==> now[u] == if u in uuids[..i] then DupEntry(was[u]) else was[u]
  }

  ghost function SeenOf(uuids: seq<Uuid>, i: nat, s: set<Uuid>): set<Uuid>
    requires i <= |uuids|
  {
    set u | u in uuids[..i] && u in s
  }

  lemma SeenOneMore(uuids: seq<Uuid>, i: nat, was: Store, publishes: seq<Uuid>, pubrels: seq<Uuid>)
    requires IsListing(uuids, was.Keys) && i < |uuids|
    requires IsListing(publishes, SeenOf(uuids, i, IsPublish(was)))
      && IsListing(pubrels, SeenOf(uuids, i, IsPubrel(was)))
    ensures var u := uuids[i];
      u in was && u !in uuids[..i] && uuids[..i + 1] == uuids[..i] + [u]
      && (was[u].PublishEntry? ==> IsListing(publishes + [u], SeenOf(uuids, i + 1, IsPublish(was)))
                                   && IsListing(pubrels, SeenOf(uuids, i + 1, IsPubrel(was))))
      && (was[u].PubrelEntry? ==> IsListing(publishes, SeenOf(uuids, i + 1, IsPublish(was)))
                                  && IsListing(pubrels + [u], SeenOf(uuids, i + 1, IsPubrel(was))))
  {
    var u := uuids[i];
    assert u in uuids;
    assert uuids[..i + 1] == uuids[..i] + [u];
    if was[u].PublishEntry? {
      ListOneMore(publishes, SeenOf(uuids, i, IsPublish(was)), u);
      assert SeenOf(uuids, i + 1, IsPublish(was)) == SeenOf(uuids, i, IsPublish(was)) + {u};
      assert SeenOf(uuids, i + 1, IsPubrel(was)) == SeenOf(uuids, i, IsPubrel(was));
    } else {
      ListOneMore(pubrels, SeenOf(uuids, i, IsPubrel(was)), u);
      assert SeenOf(uuids, i + 1, IsPublish(was)) == SeenOf(uuids, i, IsPublish(was));
      assert SeenOf(uuids, i + 1, IsPubrel(was)) == SeenOf(uuids, i, IsPubrel(was)) + {u};
    }
  }

  lemma ListOneMore(order: seq<Uuid>, s: set<Uuid>, u: Uuid)
    requires IsListing(order, s) && u !in s
    ensures IsListing(order + [u], s + {u})
  {
  }

  lemma AllSeen(uuids: seq<Uuid>, was: Store, publishes: seq<Uuid>, pubrels: seq<Uuid>)
    requires IsListing(uuids, was.Keys)
    requires IsListing(publishes, SeenOf(uuids, |uuids|, IsPublish(was)))
      && IsListing(pubrels, SeenOf(uuids, |uuids|, IsPubrel(was)))
    ensures uuids[..|uuids|] == uuids
    ensures IsListing(publishes, IsPublish(was)) && |publishes| == |IsPublish(was)|
    ensures IsListing(pubrels, IsPubrel(was)) && |pubrels| == |IsPubrel(was)|
  {
    assert uuids[..|uuids|] == uuids;
    assert SeenOf(uuids, |uuids|, IsPublish(was)) == IsPublish(was);
    assert SeenOf(uuids, |uuids|, IsPubrel(was)) == IsPubrel(was);
    ListingSize(publishes, IsPublish(was), IsPublish(was));
    ListingSize(pubrels, IsPubrel(was), IsPubrel(was));
  }

  lemma {:induction false} ListingSize(order: seq<Uuid>, s: set<Uuid>, bigger: set<Uuid>)
    requires IsListing(order, s) && s <= bigger
    ensures |order| == |s| <= |bigger|
    decreases |order|
  {
    if order != [] {
      var n := |order| - 1;
      var u := order[n];
      assert u in order;
      forall v ensures v in order[..n] <==> v in s - {u} {
        if v in s - {u} {
          var j :| 0 <= j < |order| && order[j] == v;
          assert order[..n][j] == v;
        }
      }
      ListingSize(order[..n], s - {u}, bigger - {u});
    } else {
      assert forall v :: v in s ==> v in order;
    }
  }

  lemma {:induction false} QueuedOneMore(store: Store, order: seq<Uuid>, u: Uuid)
    requires forall v :: v in order + [u] ==> v in store && store[v].PublishEntry?
    ensures forall v :: v in order ==> v in store && store[v].PublishEntry?
    ensures Queued(store, order + [u]) == Queued(store, order) + [store[u].m]
  {
    assert forall v :: v in order ==> v in order + [u];
  }

  lemma {:induction false} ControlsOneMore(store: Store, order: seq<Uuid>, u: Uuid)
    requires forall v :: v in order + [u] ==> v in store && store[v].PubrelEntry?
    ensures forall v :: v in order ==> v in store && store[v].PubrelEntry?
    ensures Controls(store, order + [u]) == Controls(store, order) + [Control(Pubrel, store[u].messageId)]
    decreases |order|
  {
    assert forall v :: v in order ==> v in order + [u];
    if order != [] {
      assert (order + [u])[1..] == order[1..] + [u];
      ControlsOneMore(store, order[1..], u);
    }
  }
}
