/** One client's side of the broker: its id table, its bounded queues and its outbound store, and
    the steps that change them. */
module Session {
  import opened Qos
  import opened Messages
  import opened MessageIds
  import opened Persistence

  datatype Kind = Puback | Pubrec | Pubrel | Pubcomp | Suback(granted: seq<QosByte>) | Unsuback | Pingresp

  datatype Control = Control(kind: Kind, messageId: nat)

  // handle tells one Client object from another of the same client id.
  datatype ClientState = ClientState(
    handle: nat, connected: bool, cleanSession: bool, ids: Ids, queue: seq<Message>, priority: seq<Control>)

  datatype Conn = Conn(client: ClientState, outbound: Store)

  /** A send that gives up when the channel is full. */
  function Offer<T>(queue: seq<T>, x: T, depth: nat): seq<T>
  {
    if |queue| < depth then queue + [x] else queue
  }

  function Persist(k: Conn, m: Message, origin: nat): Conn
  {
    k.(outbound := AddTo(k.outbound, m.uuid, PublishEntry(m, origin)))
  }

  function Enqueue(k: Conn, m: Message, depth: nat): Conn
  {
    k.(client := k.client.(queue := Offer(k.client.queue, m, depth)))
  }

  /** Handing a message over: above QoS 0 it is stored whether or not the client is connected; it is
      queued only if the client is connected and the queue has room. */
  function Hand(k: Conn, m: Message, origin: nat, depth: nat): Conn
  {
    var stored := if m.qos > 0 then Persist(k, m, origin) else k;
    if k.client.connected then Enqueue(stored, m, depth) else stored
  }

  /** The stored message and the queued one are the same object, so the id shows in the store too. */
  function Number(store: Store, uuid: Uuid, id: nat): Store
  {
    if uuid in store && store[uuid].PublishEntry? then
      store[uuid := PublishEntry(store[uuid].m.(messageId := id), store[uuid].origin)]
    else store
  }

  function NeedsId(m: Message): bool { m.qos == 1 || m.qos == 2 }

  /** Sending the next queued message: an id is issued only now, and only for QoS 1 and 2. */
  function SendOne(k: Conn): Conn
    requires k.client.queue != []
  {
    var m := k.client.queue[0];
    var client := k.client.(queue := k.client.queue[1..]);
    if NeedsId(m) then
      var issued := Issue(k.client.ids, m.uuid);
      Conn(client.(ids := issued.0), Number(k.outbound, m.uuid, issued.1))
    else Conn(client, k.outbound)
  }

  /** PUBACK: the store entry to delete is looked up under the acknowledgement's own UUID. */
  function OnPuback(k: Conn, id: nat, uuid: Uuid): Conn
  {
    if id in k.client.ids then Conn(k.client.(ids := Free(k.client.ids, id)), DeleteFrom(k.outbound, uuid)) else k
  }

  /** PUBREC: a PUBREL under a UUID of its own joins the store, and is sent if the priority queue has room. */
  function OnPubrec(k: Conn, id: nat, uuid: Uuid, depth: nat): Conn
  {
    if id in k.client.ids then
      Conn(k.client.(priority := Offer(k.client.priority, Control(Pubrel, id), depth)),
           AddTo(k.outbound, uuid, PubrelEntry(id)))
    else k
  }

  function OnPubcomp(k: Conn, id: nat): Conn
  {
    if id in k.client.ids then k.(client := k.client.(ids := Free(k.client.ids, id))) else k
  }

  // ---------------------------------------------------------------------------
  // Replay at reconnection.

  function IsPublish(store: Store): set<Uuid> { set u | u in store && store[u].PublishEntry? }

  function IsPubrel(store: Store): set<Uuid> { set u | u in store && store[u].PubrelEntry? }

  function DupEntry(e: Entry): Entry
  {
    if e.PublishEntry? && e.m.qos > 0 then PublishEntry(e.m.(dup := true), e.origin) else e
  }

  function MarkDup(store: Store): Store
  {
    map u | u in store :: DupEntry(store[u])
  }

  function Queued(store: Store, order: seq<Uuid>): (q: seq<Message>)
    requires forall u :: u in order ==> u in store && store[u].PublishEntry?
    ensures |q| == |order| && forall i :: 0 <= i < |q| ==> q[i] == store[order[i]].m
  {
    if order == [] then [] else [store[order[0]].m] + Queued(store, order[1..])
  }

  function Controls(store: Store, order: seq<Uuid>): (q: seq<Control>)
    requires forall u :: u in order ==> u in store && store[u].PubrelEntry?
    ensures |q| == |order|
  {
    if order == [] then [] else [Control(Pubrel, store[order[0]].messageId)] + Controls(store, order[1..])
  }

  /** Every stored message is queued again, marked as a duplicate, in the order the store is listed;
      PUBRELs go to the priority queue. Both sends block, so they must fit. */
  ghost predicate CanReplay(store: Store, publishes: seq<Uuid>, pubrels: seq<Uuid>, depth: nat)
  {
    IsListing(publishes, IsPublish(store)) && IsListing(pubrels, IsPubrel(store))
    && |publishes| <= depth && |pubrels| <= depth
  }

  function Replay(handle: nat, store: Store, publishes: seq<Uuid>, pubrels: seq<Uuid>): Conn
    requires forall u :: u in publishes ==> u in IsPublish(store)
    requires forall u :: u in pubrels ==> u in IsPubrel(store)
  {
    var marked := MarkDup(store);
    assert forall u :: u in publishes ==> u in IsPublish(store) && u in marked && marked[u].PublishEntry?;
    assert forall u :: u in pubrels ==> u in IsPubrel(store) && u in marked && marked[u].PubrelEntry?;
    Conn(ClientState(handle, true, false, map[], Queued(marked, publishes), Controls(marked, pubrels)), marked)
  }

  // ---------------------------------------------------------------------------
  // What the steps do, in plain terms.

  /** A message handed to a connected client goes to the end of its queue if there is room, and is dropped if not;
      above QoS 0 it is stored in any case. Nothing else changes. */
  lemma HandMeaning(k: Conn, m: Message, origin: nat, depth: nat)
    ensures var k' := Hand(k, m, origin, depth);
      k'.client == k.client.(queue := if k.client.connected && |k.client.queue| < depth then k.client.queue + [m]
                                      else k.client.queue)
    ensures var k' := Hand(k, m, origin, depth);
      (m.qos == 0 ==> k'.outbound == k.outbound)
      && (m.qos > 0 && m.uuid !in k.outbound ==> k'.outbound == k.outbound[m.uuid := PublishEntry(m, origin)])
  {
  }

  /** Some packet id is free. */
  predicate SomeIdFree(ids: Ids)
  {
    exists i :: 1 <= i <= 65534 && i !in ids
  }

  /** ids' is ids with id added for the UUID. */
  ghost predicate Takes(ids: Ids, ids': Ids, id: nat, uuid: Uuid)
  {
    id in ids' && ids'[id] == uuid
    && forall i :: i != id ==> (i in ids' <==> i in ids) && (i in ids ==> ids'[i] == ids[i])
  }

  predicate IsLeastFree(ids: Ids, id: nat)
  {
    1 <= id <= 65534 && id !in ids && forall i :: 1 <= i < id ==> i in ids
  }

  /** Sending takes the message in front. At QoS 1 or 2 it takes the least free id, which goes into the table under
      the message's UUID and shows in the stored message, or shows 0 there if none is free. Any other QoS leaves
      table and store alone. */
  lemma SendMeaning(k: Conn) returns (id: nat)
    requires k.client.queue != []
    ensures var m, k' := k.client.queue[0], SendOne(k);
      k'.client == k.client.(queue := k.client.queue[1..], ids := k'.client.ids)
      && if m.qos == 1 || m.qos == 2 then
           (if SomeIdFree(k.client.ids) then
              IsLeastFree(k.client.ids, id) && Takes(k.client.ids, k'.client.ids, id, m.uuid)
            else id == 0 && k'.client.ids == k.client.ids)
           && k'.outbound.Keys == k.outbound.Keys
           && (forall u :: u in k.outbound && u != m.uuid ==> k'.outbound[u] == k.outbound[u])
           && (m.uuid in k.outbound && k.outbound[m.uuid].PublishEntry? ==>
                 k'.outbound[m.uuid]
                 == PublishEntry(k.outbound[m.uuid].m.(messageId := id), k.outbound[m.uuid].origin))
         else id == 0 && k'.client.ids == k.client.ids && k'.outbound == k.outbound
  {
    var m := k.client.queue[0];
    id := if m.qos == 1 || m.qos == 2 then Issue(k.client.ids, m.uuid).1 else 0;
    IssueMeaning(k.client.ids, m.uuid);
  }

  /** PUBACK and PUBCOMP free the id; PUBACK deletes what is stored under its own UUID. */
  lemma AckMeaning(k: Conn, id: nat, uuid: Uuid)
    ensures OnPuback(k, id, uuid).client == OnPubcomp(k, id).client
    ensures var ids' := OnPuback(k, id, uuid).client.ids;
      OnPubcomp(k, id).client == k.client.(ids := ids') && id !in ids'
      && forall i :: i != id ==> (i in ids' <==> i in k.client.ids) && (i in ids' ==> ids'[i] == k.client.ids[i])
    ensures OnPubcomp(k, id).outbound == k.outbound
    ensures OnPuback(k, id, uuid).outbound == if id in k.client.ids then k.outbound - {uuid} else k.outbound
  {
    if id !in k.client.ids {
      assert Free(k.client.ids, id) == k.client.ids;
    }
  }

  /** PUBREC for an id in use: a PUBREL with that id goes to the end of the priority queue if there is room, and
      into the store under its own UUID. For any other id it does nothing. */
  lemma PubrecMeaning(k: Conn, id: nat, uuid: Uuid, depth: nat)
    ensures id !in k.client.ids ==> OnPubrec(k, id, uuid, depth) == k
    ensures id in k.client.ids ==>
      OnPubrec(k, id, uuid, depth).client
      == k.client.(priority := if |k.client.priority| < depth then k.client.priority + [Control(Pubrel, id)]
                               else k.client.priority)
    ensures id in k.client.ids && uuid !in k.outbound ==>
      OnPubrec(k, id, uuid, depth).outbound == k.outbound[uuid := PubrelEntry(id)]
  {
  }

  lemma {:induction false} ControlsMeaning(store: Store, order: seq<Uuid>)
    requires forall u :: u in order ==> u in store && store[u].PubrelEntry?
    ensures forall i :: 0 <= i < |order| ==> Controls(store, order)[i] == Control(Pubrel, store[order[i]].messageId)
    decreases |order|
  {
    if order != [] {
      ControlsMeaning(store, order[1..]);
    }
  }

  /** A resumed client starts with an empty id table, its stored messages in its queue, each once and marked as a
      duplicate above QoS 0, and a PUBREL for each stored one in its priority queue. The store keeps everything,
      marked in the same way. */
  lemma ReplayMeaning(handle: nat, store: Store, publishes: seq<Uuid>, pubrels: seq<Uuid>, depth: nat)
    requires CanReplay(store, publishes, pubrels, depth)
    ensures forall i :: 0 <= i < |publishes| ==> publishes[i] in store && store[publishes[i]].PublishEntry?
    ensures forall i :: 0 <= i < |pubrels| ==> pubrels[i] in store && store[pubrels[i]].PubrelEntry?
    ensures var client := Replay(handle, store, publishes, pubrels).client;
      client.handle == handle && client.connected && !client.cleanSession && client.ids == map[]
      && |client.queue| == |publishes| && |client.priority| == |pubrels|
      && (forall i :: 0 <= i < |publishes| ==>
            var m := store[publishes[i]].m; client.queue[i] == if m.qos > 0 then m.(dup := true) else m)
      && (forall i :: 0 <= i < |pubrels| ==> client.priority[i] == Control(Pubrel, store[pubrels[i]].messageId))
    ensures var store' := Replay(handle, store, publishes, pubrels).outbound;
      store'.Keys == store.Keys
      && forall u :: u in store ==>
           store'[u] == if store[u].PublishEntry? && store[u].m.qos > 0
                        then PublishEntry(store[u].m.(dup := true), store[u].origin) else store[u]
  {
    forall i | 0 <= i < |publishes| ensures publishes[i] in IsPublish(store) {
      assert publishes[i] in publishes;
    }
    forall i | 0 <= i < |pubrels| ensures pubrels[i] in IsPubrel(store) {
      assert pubrels[i] in pubrels;
    }
    ControlsMeaning(MarkDup(store), pubrels);
  }

  // ---------------------------------------------------------------------------
  // What every step keeps.

  /** Bounded queues, stored UUIDs all issued, and everything above QoS 0 in the queue also in the
      store; loose are the UUIDs of messages queued without being stored. */
  ghost predicate ConnOk(k: Conn, depth: nat, next: Uuid, loose: set<Uuid>)
  {
    |k.client.queue| <= depth && |k.client.priority| <= depth
    && (forall u :: u in k.outbound ==> u < next)
    && (forall i :: 0 <= i < |k.client.queue| ==> QueuedOk(k, k.client.queue[i], next, loose))
  }

  ghost predicate QueuedOk(k: Conn, m: Message, next: Uuid, loose: set<Uuid>)
  {
    m.uuid < next
    && (m.qos > 0 && m.uuid !in loose ==>
          m.uuid in k.outbound && k.outbound[m.uuid].PublishEntry? && SameMessage(k.outbound[m.uuid].m, m))
  }

  /** Equal but for what sending and replaying set: the id and the DUP flag. */
  predicate SameMessage(a: Message, b: Message)
  {
    a == b.(messageId := a.messageId, dup := a.dup)
  }

  predicate SameEntry(e: Entry, f: Entry)
  {
    if e.PublishEntry? then f.PublishEntry? && SameMessage(e.m, f.m) && e.origin == f.origin
    else e == f
  }

  /** No entry is lost, and none changes but for id and DUP flag. */
  ghost predicate Keeps(was: Store, now: Store)
  {
    forall u :: u in was ==> u in now && SameEntry(was[u], now[u])
  }

  /** The one copy shared by every QoS 0 recipient. */
  lemma HandZeroKeeps(k: Conn, m: Message, origin: nat, depth: nat, next: Uuid, loose: set<Uuid>)
    requires ConnOk(k, depth, next, loose) && m.uuid < next && m.qos == 0
    ensures var k' := Hand(k, m, origin, depth); ConnOk(k', depth, next, loose) && k'.outbound == k.outbound
  {
  }

  lemma PersistKeeps(k: Conn, m: Message, origin: nat, depth: nat, next: Uuid, loose: set<Uuid>)
    requires ConnOk(k, depth, next, loose) && m.uuid == next
    ensures var k' := Persist(k, m, origin);
      ConnOk(k', depth, next + 1, loose) && Keeps(k.outbound, k'.outbound)
      && k'.outbound == k.outbound[next := PublishEntry(m, origin)] && next !in k.outbound
  {
    forall i | 0 <= i < |k.client.queue|
      ensures QueuedOk(Persist(k, m, origin), k.client.queue[i], next + 1, loose)
    {
      assert QueuedOk(k, k.client.queue[i], next, loose);
    }
  }

  lemma EnqueueKeeps(k: Conn, m: Message, depth: nat, next: Uuid, loose: set<Uuid>)
    requires ConnOk(k, depth, next, loose) && QueuedOk(k, m, next, loose)
    ensures ConnOk(Enqueue(k, m, depth), depth, next, loose)
  {
    var k' := Enqueue(k, m, depth);
    forall i | 0 <= i < |k'.client.queue| ensures QueuedOk(k', k'.client.queue[i], next, loose) {
      if i < |k.client.queue| {
        assert QueuedOk(k, k.client.queue[i], next, loose);
      }
    }
  }

  lemma HandKeeps(k: Conn, m: Message, origin: nat, depth: nat, next: Uuid, loose: set<Uuid>)
    requires ConnOk(k, depth, next, loose) && m.uuid == next && m.uuid !in loose
    ensures var k' := Hand(k, m, origin, depth);
      ConnOk(k', depth, next + 1, loose) && Keeps(k.outbound, k'.outbound)
      && k'.outbound == if m.qos > 0 then k.outbound[next := PublishEntry(m, origin)] else k.outbound
  {
  }

  lemma SendKeeps(k: Conn, depth: nat, next: Uuid, loose: set<Uuid>)
    requires ConnOk(k, depth, next, loose) && k.client.queue != []
    ensures ConnOk(SendOne(k), depth, next, loose) && Keeps(k.outbound, SendOne(k).outbound)
    ensures SendOne(k).outbound.Keys == k.outbound.Keys
  {
    var k' := SendOne(k);
    forall i | 0 <= i < |k'.client.queue| ensures QueuedOk(k', k'.client.queue[i], next, loose) {
      assert QueuedOk(k, k.client.queue[i + 1], next, loose);
    }
  }

  /** An acknowledgement's UUID is fresh, so the PUBACK step deletes nothing. */
  lemma PubackKeeps(k: Conn, id: nat, depth: nat, next: Uuid, loose: set<Uuid>)
    requires ConnOk(k, depth, next, loose)
    ensures ConnOk(OnPuback(k, id, next), depth, next + 1, loose)
    ensures OnPuback(k, id, next).outbound == k.outbound
  {
    assert DeleteFrom(k.outbound, next) == k.outbound;
    forall i | 0 <= i < |k.client.queue| ensures QueuedOk(OnPuback(k, id, next), k.client.queue[i], next + 1, loose) {
      assert QueuedOk(k, k.client.queue[i], next, loose);
    }
  }

  /** It deletes the entry of the message only if the acknowledgement carried that message's UUID. */
  lemma PubackDeletesExactly(k: Conn, id: nat, uuid: Uuid, u: Uuid)
    requires u in k.outbound
    ensures u !in OnPuback(k, id, uuid).outbound <==> id in k.client.ids && u == uuid
  {
  }

  lemma PubrecKeeps(k: Conn, id: nat, depth: nat, next: Uuid, loose: set<Uuid>)
    requires ConnOk(k, depth, next, loose)
    ensures var k' := OnPubrec(k, id, next, depth);
      ConnOk(k', depth, next + 1, loose) && Keeps(k.outbound, k'.outbound) && k'.client.ids == k.client.ids
      && k'.outbound == if id in k.client.ids then k.outbound[next := PubrelEntry(id)] else k.outbound
  {
    var k' := OnPubrec(k, id, next, depth);
    forall i | 0 <= i < |k.client.queue| ensures QueuedOk(k', k.client.queue[i], next + 1, loose) {
      assert QueuedOk(k, k.client.queue[i], next, loose);
    }
  }

  lemma PubcompKeeps(k: Conn, id: nat, depth: nat, next: Uuid, loose: set<Uuid>)
    requires ConnOk(k, depth, next, loose)
    ensures ConnOk(OnPubcomp(k, id), depth, next, loose) && OnPubcomp(k, id).outbound == k.outbound
  {
    forall i | 0 <= i < |k.client.queue| ensures QueuedOk(OnPubcomp(k, id), k.client.queue[i], next, loose) {
      assert QueuedOk(k, k.client.queue[i], next, loose);
    }
  }

  lemma ReplayKeeps(k: Conn, handle: nat, publishes: seq<Uuid>, pubrels: seq<Uuid>, depth: nat, next: Uuid,
                    loose: set<Uuid>)
    requires forall u :: u in k.outbound ==> u < next
    requires CanReplay(k.outbound, publishes, pubrels, depth)
    requires forall u :: u in IsPublish(k.outbound) ==> k.outbound[u].m.uuid == u
    ensures var k' := Replay(handle, k.outbound, publishes, pubrels);
      ConnOk(k', depth, next, loose) && Keeps(k.outbound, k'.outbound)
  {
    var k' := Replay(handle, k.outbound, publishes, pubrels);
    forall i | 0 <= i < |k'.client.queue| ensures QueuedOk(k', k'.client.queue[i], next, loose) {
      assert publishes[i] in IsPublish(k.outbound);
    }
  }

  // ---------------------------------------------------------------------------
  // Packet ids over a run of one connection.

  datatype ConnOp =
    | HandOp(m: Message, origin: nat)
    | SendOp
    | PubackOp(id: nat, uuid: Uuid)
    | PubrecOp(id: nat, uuid: Uuid)
    | PubcompOp(id: nat)

  function ConnStep(k: Conn, op: ConnOp, depth: nat): Conn
  {
    match op
    case HandOp(m, origin) => Hand(k, m, origin, depth)
    case SendOp => if k.client.queue == [] then k else SendOne(k)
    case PubackOp(id, uuid) => OnPuback(k, id, uuid)
    case PubrecOp(id, uuid) => OnPubrec(k, id, uuid, depth)
    case PubcompOp(id) => OnPubcomp(k, id)
  }

  function ConnRun(k: Conn, ops: seq<ConnOp>, depth: nat): Conn
  {
    if ops == [] then k else ConnStep(ConnRun(k, ops[..|ops| - 1], depth), ops[|ops| - 1], depth)
  }

  /** The id the step puts on the wire, 0 if none. */
  function IssuedBy(k: Conn, op: ConnOp): nat
  {
    if op.SendOp? && k.client.queue != [] && NeedsId(k.client.queue[0]) then
      Issue(k.client.ids, k.client.queue[0].uuid).1
    else 0
  }

  function IssuedAt(k: Conn, ops: seq<ConnOp>, j: nat, depth: nat): nat
    requires j < |ops|
  {
    IssuedBy(ConnRun(k, ops[..j], depth), ops[j])
  }

  /** Only PUBACK and PUBCOMP carrying the id free it. */
  predicate Frees(op: ConnOp, id: nat)
  {
    (op.PubackOp? || op.PubcompOp?) && op.id == id
  }

  ghost predicate FreedWithin(ops: seq<ConnOp>, from: nat, to: nat, id: nat)
  {
    exists l :: from <= l < to && l < |ops| && Frees(ops[l], id)
  }

  lemma StepIds(k: Conn, op: ConnOp, depth: nat, id: nat)
    requires id != 0
    ensures id in ConnStep(k, op, depth).client.ids <==> (id in k.client.ids && !Frees(op, id)) || IssuedBy(k, op) == id
    ensures IssuedBy(k, op) == id ==> id !in k.client.ids
  {
    if op.SendOp? && k.client.queue != [] {
      IssueMeaning(k.client.ids, k.client.queue[0].uuid);
    }
  }

  /** Over every run, an id is in use exactly when it was issued, or in use at the start, and not freed
      since; PUBREC, hand-overs and other ids' acknowledgements do not touch it. */
  lemma {:induction false} IdsMeaning(k: Conn, ops: seq<ConnOp>, depth: nat, id: nat)
    requires id != 0
    ensures id in ConnRun(k, ops, depth).client.ids
       <==> (id in k.client.ids && !FreedWithin(ops, 0, |ops|, id))
            || exists j :: 0 <= j < |ops| && IssuedAt(k, ops, j, depth) == id && !FreedWithin(ops, j + 1, |ops|, id)
  {
    if ops != [] {
      var n := |ops| - 1;
      var before, op := ops[..n], ops[n];
      IdsMeaning(k, before, depth, id);
      StepIds(ConnRun(k, before, depth), op, depth, id);
      forall j | 0 <= j < n ensures IssuedAt(k, before, j, depth) == IssuedAt(k, ops, j, depth) {
        assert before[..j] == ops[..j];
      }
      forall j: nat | j <= |ops|
        ensures FreedWithin(ops, j, |ops|, id)
          <==> FreedWithin(before, j, |before|, id) || (j < |ops| && Frees(op, id))
      {
        if FreedWithin(before, j, |before|, id) {
          var l :| j <= l < |before| && Frees(before[l], id);
          assert Frees(ops[l], id);
        }
        if FreedWithin(ops, j, |ops|, id) {
          var l :| j <= l < |ops| && Frees(ops[l], id);
          assert l < n ==> Frees(before[l], id);
        }
      }
      assert IssuedAt(k, ops, n, depth) == IssuedBy(ConnRun(k, before, depth), op);
    }
  }

  /** Two sends never carry the same id unless it was freed between them. */
  lemma IssuedIdsDiffer(k: Conn, ops: seq<ConnOp>, depth: nat, i: nat, j: nat)
    requires i < j < |ops| && IssuedAt(k, ops, i, depth) != 0
    requires IssuedAt(k, ops, i, depth) == IssuedAt(k, ops, j, depth)
    ensures FreedWithin(ops, i + 1, j, IssuedAt(k, ops, j, depth))
  {
    var id, before := IssuedAt(k, ops, j, depth), ops[..j];
    StepIds(ConnRun(k, before, depth), ops[j], depth, id);
    IdsMeaning(k, before, depth, id);
    assert before[..i] == ops[..i];
    assert IssuedAt(k, before, i, depth) == id;
    assert FreedWithin(before, i + 1, j, id);
    var l :| i + 1 <= l < j && Frees(before[l], id);
    assert Frees(ops[l], id);
  }
}
