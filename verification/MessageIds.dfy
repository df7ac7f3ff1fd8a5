/** Packet identifiers of one client: the lowest free number in 1..65534. */
module MessageIds {
  import opened Messages

  const MSG_ID_MAX := 65535
  const MSG_ID_MIN := 1

  // The ids in use, each with the UUID it was issued for.
  type Ids = map<nat, Uuid>

  /** The least id from i on that is free, or 0 if there is none below the maximum. */
  function LeastFree(ids: Ids, i: nat): nat
    decreases MSG_ID_MAX - i
  {
    if i >= MSG_ID_MAX then 0
    else if i !in ids then i
    else LeastFree(ids, i + 1)
  }

  function Issue(ids: Ids, uuid: Uuid): (r: (Ids, nat))
  {
    var id := LeastFree(ids, MSG_ID_MIN);
    (if id == 0 then ids else ids[id := uuid], id)
  }

  function Free(ids: Ids, id: nat): (r: Ids)
    ensures id !in r && forall i :: i != id ==> (i in r <==> i in ids) && (i in r ==> r[i] == ids[i])
  {
    ids - {id}
  }

  lemma {:induction false} LeastFreeFrom(ids: Ids, i: nat)
    requires i >= MSG_ID_MIN
    ensures var id := LeastFree(ids, i);
      if id == 0 then forall j :: i <= j < MSG_ID_MAX ==> j in ids
      else i <= id < MSG_ID_MAX && id !in ids && forall j :: i <= j < id ==> j in ids
    decreases MSG_ID_MAX - i
  {
    if i < MSG_ID_MAX && i in ids {
      LeastFreeFrom(ids, i + 1);
    }
  }

  /** An issued id is the least free one in 1..65534, and is recorded for the message's UUID; 0 is issued, and
      nothing recorded, exactly when all 65534 are in use. */
  lemma IssueMeaning(ids: Ids, uuid: Uuid)
    ensures var id := Issue(ids, uuid).1;
      (id == 0 <==> forall j :: 1 <= j <= 65534 ==> j in ids)
      && (id != 0 ==> 1 <= id <= 65534 && id !in ids && forall j :: 1 <= j < id ==> j in ids)
    ensures var r := Issue(ids, uuid);
      if r.1 == 0 then r.0 == ids
      else r.1 in r.0 && r.0[r.1] == uuid
           && forall j :: j != r.1 ==> (j in r.0 <==> j in ids) && (j in ids ==> r.0[j] == ids[j])
  {
    LeastFreeFrom(ids, MSG_ID_MIN);
  }

  // A slot of the source's map from id to UUID pointer: freeing stores nil.
  datatype Slot = Nil | Held(uuid: Uuid)

  class MessageIDs {
    var index: map<nat, Slot>

    ghost function View(): Ids
      reads this
    {
      map i | i in index && index[i].Held? :: index[i].uuid
    }

    constructor ()
      ensures View() == map[]
    {
      index := map[];
    }

    method GetMsgID(uuid: Uuid) returns (id: nat)
      modifies this
      ensures (View(), id) == Issue(old(View()), uuid)
    {
      var i := MSG_ID_MIN;
      while i < MSG_ID_MAX
        invariant MSG_ID_MIN <= i <= MSG_ID_MAX && index == old(index)
        invariant LeastFree(View(), MSG_ID_MIN) == LeastFree(View(), i)
      {
        if i !in index || index[i] == Nil {
          index := index[i := Held(uuid)];
          assert View() == old(View())[i := uuid];
          return i;
        }
        i := i + 1;
      }
      id := 0;
    }

    method InUse(id: nat) returns (b: bool)
      ensures b <==> id in View()
    {
      b := id in index && index[id] != Nil;
    }

    method FreeID(id: nat)
      modifies this
      ensures View() == Free(old(View()), id)
    {
      index := index[id := Nil];
    }
  }
}
