/** The in-memory message stores, one inbound and one outbound per client. */
module Persistence {
  import opened Messages

  // What a store holds: a message, or the PUBREL of the second half of a QoS 2 flow. origin is the
  // number of the DeliverMessage call that produced the message, kept for the proofs only.
  datatype Entry = PublishEntry(m: Message, origin: nat) | PubrelEntry(messageId: nat)

  type Store = map<Uuid, Entry>

  datatype Direction = Inbound | Outbound

  /** Add: an entry that is already there is left alone. Replace does the same. */
  function AddTo(store: Store, uuid: Uuid, entry: Entry): (r: Store)
    ensures uuid in r && r[uuid] == if uuid in store then store[uuid] else entry
    ensures forall u :: u != uuid ==> (u in r <==> u in store) && (u in store ==> r[u] == store[u])
  {
    if uuid in store then store else store[uuid := entry]
  }

  function DeleteFrom(store: Store, uuid: Uuid): (r: Store)
    ensures uuid !in r
    ensures forall u :: u != uuid ==> (u in r <==> u in store) && (u in r ==> r[u] == store[u])
  {
    store - {uuid}
  }

  class MemoryPersistence {
    var inbound: map<string, Store>
    var outbound: map<string, Store>

    constructor ()
      ensures inbound == map[] && outbound == map[]
    {
      inbound, outbound := map[], map[];
    }

    method Open(client: string)
      modifies this
      ensures inbound == old(inbound)[client := map[]] && outbound == old(outbound)[client := map[]]
    {
      inbound := inbound[client := map[]];
      outbound := outbound[client := map[]];
    }

    method Close(client: string)
      modifies this
      ensures inbound == old(inbound) - {client} && outbound == old(outbound) - {client}
    {
      inbound := inbound - {client};
      outbound := outbound - {client};
    }

    /** A missing client ends the process, so the caller must have opened it. */
    method Add(client: string, direction: Direction, uuid: Uuid, entry: Entry) returns (added: bool)
      requires client in if direction.Inbound? then inbound else outbound
      modifies this
      ensures direction.Inbound? ==> outbound == old(outbound) && (added <==> uuid !in old(inbound)[client])
      ensures direction.Inbound? ==> inbound == old(inbound)[client := AddTo(old(inbound)[client], uuid, entry)]
      ensures direction.Outbound? ==> inbound == old(inbound) && (added <==> uuid !in old(outbound)[client])
      ensures direction.Outbound? ==> outbound == old(outbound)[client := AddTo(old(outbound)[client], uuid, entry)]
    {
      match direction
      case Inbound =>
        if uuid in inbound[client] {
          return false;
        }
        var store: Store := inbound[client][uuid := entry];
        inbound := inbound[client := store];
        added := true;
      case Outbound =>
        if uuid in outbound[client] {
          return false;
        }
        var store: Store := outbound[client][uuid := entry];
        outbound := outbound[client := store];
        added := true;
    }

    method Delete(client: string, direction: Direction, uuid: Uuid) returns (deleted: bool)
      requires client in if direction.Inbound? then inbound else outbound
      modifies this
      ensures direction.Inbound? ==> outbound == old(outbound) && (deleted <==> uuid in old(inbound)[client])
      ensures direction.Inbound? ==> inbound == old(inbound)[client := DeleteFrom(old(inbound)[client], uuid)]
      ensures direction.Outbound? ==> inbound == old(inbound) && (deleted <==> uuid in old(outbound)[client])
      ensures direction.Outbound? ==> outbound == old(outbound)[client := DeleteFrom(old(outbound)[client], uuid)]
    {
      match direction
      case Inbound =>
        if uuid !in inbound[client] {
          assert DeleteFrom(inbound[client], uuid) == inbound[client];
          return false;
        }
        inbound := inbound[client := inbound[client] - {uuid}];
        deleted := true;
      case Outbound =>
        if uuid !in outbound[client] {
          assert DeleteFrom(outbound[client], uuid) == outbound[client];
          return false;
        }
        outbound := outbound[client := outbound[client] - {uuid}];
        deleted := true;
    }

    /** Every outbound entry of a client, once each, in an arbitrary order. */
    method GetAll(client: string) returns (uuids: seq<Uuid>, messages: seq<Entry>)
      requires client in outbound
      ensures IsListing(uuids, outbound[client].Keys) && |messages| == |uuids|
      ensures forall i :: 0 <= i < |uuids| ==> messages[i] == outbound[client][uuids[i]]
    {
      uuids, messages := [], [];
      var todo := outbound[client].Keys;
      while todo != {}
        invariant todo <= outbound[client].Keys && |messages| == |uuids|
        invariant IsListing(uuids, outbound[client].Keys - todo)
        invariant forall i ::
          0 <= i < |uuids| ==> uuids[i] in outbound[client] && messages[i] == outbound[client][uuids[i]]
        decreases |todo|
      {
        var u :| u in todo;
        uuids, messages := uuids + [u], messages + [outbound[client][u]];
        todo := todo - {u};
      }
    }

    method Exists(client: string) returns (b: bool)
      ensures b <==> client in inbound && client in outbound
    {
      b := client in inbound && client in outbound;
    }
  }

  /** The members of s in some order. */
  ghost predicate IsListing(order: seq<Uuid>, s: set<Uuid>)
  {
    (forall u :: u in order <==> u in s) && forall i, j :: 0 <= i < j < |order| ==> order[i] != order[j]
  }
}
