/** Retained messages: setting them, and finding those a new subscription must receive. */
module Retained {
  import opened Levels
  import opened Qos
  import opened Messages
  import opened SubscriptionIndex

  // One call of SetRetained.
  datatype SetOp = SetOp(topic: string, message: Message)

  /** One call: an empty payload clears its topic. */
  function Set(retained: map<string, Message>, topic: string, message: Message): map<string, Message>
  {
    if message.payload == [] then retained - {topic} else retained[topic := message]
  }

  /** The retained messages after a history of calls. */
  function RetainedAfter(history: seq<SetOp>): map<string, Message>
  {
    if history == [] then map[]
    else
      var before, op := RetainedAfter(history[..|history| - 1]), history[|history| - 1];
      Set(before, op.topic, op.message)
  }

  /** A topic's retained message is the last one set for it, unless that one was empty. */
  lemma {:induction false} RetainedMeaning(history: seq<SetOp>, topic: string, m: Message)
    ensures (topic in RetainedAfter(history) && RetainedAfter(history)[topic] == m)
       <==> m.payload != []
            && exists k :: 0 <= k < |history| && history[k] == SetOp(topic, m)
                        && forall j :: k < j < |history| ==> history[j].topic != topic
  {
    if history != [] {
      var n := |history| - 1;
      RetainedMeaning(history[..n], topic, m);
      assert forall k :: 0 <= k < n ==> history[..n][k] == history[k];
    }
  }

  /** The topics whose retained message filter selects. */
  function MatchingTopics(retained: map<string, Message>, filter: string): set<string>
  {
    set t | t in retained && Match(Split(filter), Split(t))
  }

  /** list holds, once per topic of topics, a fresh copy of its retained message at the lower QoS. */
  ghost predicate IsSelection(list: seq<Message>, topics: seq<string>, retained: map<string, Message>, qos: QosByte,
                              id: Uuid)
  {
    |list| == |topics| && NoDup(topics)
    && forall i :: 0 <= i < |list| ==>
         topics[i] in retained && IsCopyAtLower(list[i], retained[topics[i]], qos) && list[i].uuid == id + i
  }

  /** The same topic and payload, at the retained QoS or the subscription's, whichever is lower, in a new packet. */
  predicate IsCopyAtLower(copy: Message, m: Message, qos: QosByte)
  {
    copy.topic == m.topic && copy.payload == m.payload
    && copy.qos <= m.qos && copy.qos <= qos && (copy.qos == m.qos || copy.qos == qos)
    && !copy.dup && !copy.retain && copy.messageId == 0
  }

  lemma SelectOneMore(list: seq<Message>, topics: seq<string>, retained: map<string, Message>, qos: QosByte, id: Uuid,
                      t: string)
    requires IsSelection(list, topics, retained, qos, id) && t in retained && t !in Members(topics)
    ensures IsSelection(list + [Copy(retained[t], id + |list|).(qos := Min(retained[t].qos, qos))], topics + [t],
                        retained, qos, id)
    ensures Members(topics + [t]) == Members(topics) + {t}
  {
    assert forall i :: 0 <= i < |topics| ==> topics[i] in Members(topics);
  }

  class RetainedMap {
    var retained: map<string, Message>
    ghost var history: seq<SetOp>

    ghost predicate Valid()
      reads this
    {
      retained == RetainedAfter(history)
    }

    constructor ()
      ensures Valid() && history == []
    {
      retained, history := map[], [];
    }

    method SetRetained(topic: string, message: Message)
      requires Valid()
      modifies this
      ensures Valid() && history == old(history) + [SetOp(topic, message)]
    {
      if |message.payload| == 0 {
        retained := retained - {topic};
      } else {
        retained := retained[topic := message];
      }
      history := history + [SetOp(topic, message)];
      assert history[..|history| - 1] == old(history);
    }

    /** The deliver list of FindRetained. A filter text without wildcards is looked up by key, any
        other is matched against every retained topic; both give the topics the matcher accepts. */
    method FindRetained(filter: string, qos: QosByte, id: Uuid) returns (list: seq<Message>)
      requires Valid()
      ensures exists topics :: (
        IsSelection(list, topics, RetainedAfter(history), qos, id)
        && Members(topics) == MatchingTopics(RetainedAfter(history), filter))
    {
      list := [];
      ghost var topics: seq<string> := [];
      if '#' in filter || '+' in filter {
        var todo := retained.Keys;
        while todo != {}
          invariant todo <= retained.Keys && IsSelection(list, topics, retained, qos, id)
          invariant Members(topics) == MatchingTopics(retained, filter) - todo
          decreases |todo|
        {
          var t :| t in todo;
          if Match(Split(filter), Split(t)) {
            SelectOneMore(list, topics, retained, qos, id, t);
            list := list + [Copy(retained[t], id + |list|).(qos := Min(retained[t].qos, qos))];
            topics := topics + [t];
          }
          todo := todo - {t};
        }
      } else {
        forall t ensures Match(Split(filter), Split(t)) <==> filter == t {
          PlainFilterMatchesItself(filter, t);
        }
        if filter in retained {
          list := [Copy(retained[filter], id).(qos := Min(retained[filter].qos, qos))];
          topics := [filter];
        }
      }
      assert IsSelection(list, topics, retained, qos, id) && Members(topics) == MatchingTopics(retained, filter);
    }
  }
}
