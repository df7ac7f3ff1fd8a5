/** Application messages as the broker routes and stores them. */
module Messages {
  import opened Qos

  // uuid.New() is a supply of fresh values: a counter.
  type Uuid = nat

  datatype Message = Message(
    uuid: Uuid, topic: string, payload: seq<QosByte>, qos: QosByte, dup: bool, retain: bool, messageId: nat)

  /** A copy keeps topic and payload only; everything else is a new packet's. */
  function Copy(m: Message, id: Uuid): (copy: Message)
    ensures copy.topic == m.topic && copy.payload == m.payload && copy.uuid == id
    ensures copy.qos == 0 && !copy.dup && !copy.retain && copy.messageId == 0
  {
    Message(id, m.topic, m.payload, 0, false, false, 0)
  }
}
