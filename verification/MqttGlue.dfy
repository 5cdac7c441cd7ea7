/** esp_mqtt_glue_data_t as the C code keeps it: a table and four early-ack slots updated in place. Each
    method is one region under s_glue_lock and leaves exactly the value its function in MqttRegions gives. */
module MqttGlue {
  import opened Bytes
  import opened MqttTable
  import opened MqttRegions

  class GlueData {
    const subscriptions: array<Option<Sub>>
    const earlyAcks: array<EarlyAck>
    var connected: bool
    var connecting: bool
    var subRetryDelayMs: nat
    var timerArmPending: bool
    var deleting: bool
    var busy: int

    ghost predicate Valid()
      reads this, earlyAcks
    {
      earlyAcks.Length == EARLY_ACK_SLOTS
    }

    ghost function Value(): (g: Glue)
      reads this, subscriptions, earlyAcks
    {
      Glue(connected, connecting, subRetryDelayMs, timerArmPending, subscriptions[..], earlyAcks[..], deleting, busy)
    }

    constructor (slots: nat)
      ensures Valid() && fresh(subscriptions) && fresh(earlyAcks) && Value() == Initial(slots)
    {
      subscriptions := new Option<Sub>[slots](i => None);
      earlyAcks := new EarlyAck[EARLY_ACK_SLOTS](i => EarlyAck(0, false, 0));
      connected, connecting, subRetryDelayMs, timerArmPending := false, false, RETRY_BASE_MS, false;
      deleting, busy := false, 0;
      new;
      assert subscriptions[..] == Initial(slots).subs && earlyAcks[..] == Initial(slots).acks;
    }

    // -------------------------------------------------------------- send_subscribe()

    method Reserve(topic: bytes, now: int)
      requires Valid()
      modifies subscriptions
      ensures Value() == MqttRegions.Reserve(old(Value()), topic, now)
    {
      ghost var was := subscriptions[..];
      for i := 0 to subscriptions.Length
        invariant forall k :: 0 <= k < subscriptions.Length ==>
                    subscriptions[k] == if k < i then ReserveOne(was[k], topic, now) else was[k]
      {
        var e := subscriptions[i];
        if e.Some? && e.value.topic == topic {
          subscriptions[i] := Some(e.value.(msgId := -1, state := Requested, requestTick := now));
        }
      }
      assert subscriptions[..] == ReserveAll(was, topic, now);
    }

    method TakeEarlyAck(msgId: int, now: int) returns (ack: Option<bool>)
      requires Valid()
      modifies earlyAcks
      ensures (ack, earlyAcks[..]) == Take(old(earlyAcks[..]), msgId, now)
    {
      ghost var was := earlyAcks[..];
      for i := 0 to earlyAcks.Length
        invariant earlyAcks[..] == was && forall k :: 0 <= k < i ==> !ParkedAt(was, k, msgId, now)
      {
        var e := earlyAcks[i];
        if e.msgId == msgId && now - e.tick <= EARLY_ACK_TTL_MS {
          assert ParkedAt(was, i, msgId, now);
          TakesFirst(was, msgId, now, i);
          earlyAcks[i] := e.(msgId := 0);
          return Some(e.rejected);
        }
      }
      TakesFirst(was, msgId, now, |was|);
      return None;
    }

    static lemma TakesFirst(acks: seq<EarlyAck>, msgId: int, now: int, i: nat)
      requires i <= |acks| && forall k :: 0 <= k < i ==> !ParkedAt(acks, k, msgId, now)
      requires i < |acks| ==> ParkedAt(acks, i, msgId, now)
      ensures TakeSlot(acks, msgId, now) == i
    {
    }

    method Record(topic: bytes, ret: int, now: int) returns (ack: Option<bool>)
      requires Valid()
      modifies subscriptions, earlyAcks
      ensures (Value(), ack) == MqttRegions.Record(old(Value()), topic, ret, now)
    {
      ghost var was := subscriptions[..];
      ack := None;
      if ret >= 0 {
        ack := TakeEarlyAck(ret, now);
      }
      RecordEntries(topic, ret, ack);
    }

    method RecordEntries(topic: bytes, ret: int, ack: Option<bool>)
      modifies subscriptions
      ensures subscriptions[..] == RecordAll(old(subscriptions[..]), topic, ret, ack)
    {
      ghost var was := subscriptions[..];
      for i := 0 to subscriptions.Length
        invariant forall k :: 0 <= k < subscriptions.Length ==>
                    subscriptions[k] == if k < i then RecordOne(was[k], topic, ret, ack) else was[k]
      {
        var e := subscriptions[i];
        if e.None? || e.value.topic != topic || e.value.state != Requested || e.value.msgId != -1 {
          continue;
        }
        if ret < 0 {
          subscriptions[i] := Some(e.value.(state := Failed));
        } else {
          subscriptions[i] := Some(e.value.(msgId := ret));
          if ack.Some? {
            subscriptions[i] := Some(e.value.(msgId := ret, state := if ack.value then Failed else Acknowledged));
          }
        }
      }
      assert subscriptions[..] == RecordAll(was, topic, ret, ack);
    }

    // -------------------------------------------------------------- events

    /** Settles every entry waiting for msgId; the topic of the first, if any. */
    method SettleAll(msgId: int, rejected: bool) returns (topic: Option<bytes>)
      modifies subscriptions
      ensures subscriptions[..] == AckAll(old(subscriptions[..]), msgId, rejected)
      ensures var i := FirstAwaiting(old(subscriptions[..]), msgId);
              topic == if i < subscriptions.Length then Some(old(subscriptions[..])[i].value.topic) else None
    {
      ghost var was := subscriptions[..];
      ghost var first := FirstAwaiting(was, msgId);
      topic := None;
      for i := 0 to subscriptions.Length
        invariant forall k :: 0 <= k < subscriptions.Length ==>
                    subscriptions[k] == if k < i then AckOne(was[k], msgId, rejected) else was[k]
        invariant topic == if first < i then Some(was[first].value.topic) else None
      {
        var e := subscriptions[i];
        if e.Some? && e.value.state == Requested && e.value.msgId == msgId {
          assert Awaits(was[i], msgId);
          subscriptions[i] := Some(e.value.(state := if rejected then Failed else Acknowledged));
          if topic.None? {
            topic := Some(e.value.topic);
          }
        }
      }
      assert subscriptions[..] == AckAll(was, msgId, rejected);
    }

    method ParkEarlyAck(msgId: int, rejected: bool, now: int)
      requires Valid()
      modifies earlyAcks
      ensures earlyAcks[..] == Park(old(earlyAcks[..]), msgId, rejected, now)
    {
      ghost var was := earlyAcks[..];
      var slot, i := 0, 0;
      while i < earlyAcks.Length
        invariant 0 <= i <= earlyAcks.Length && slot < earlyAcks.Length
        invariant earlyAcks[..] == was && ParkSlotFrom(was, now, i, slot) == ParkSlotFrom(was, now, 0, 0)
      {
        var e := earlyAcks[i];
        if e.msgId == 0 || now - e.tick > EARLY_ACK_TTL_MS {
          slot := i;
          break;
        }
        if now - e.tick > now - earlyAcks[slot].tick {
          slot := i;
        }
        i := i + 1;
      }
      earlyAcks[slot] := EarlyAck(msgId, rejected, now);
    }

    method Suback(msgId: int, rejected: bool, now: int) returns (topic: Option<bytes>)
      requires Valid()
      modifies subscriptions, earlyAcks
      ensures Valid() && (Value(), topic) == MqttRegions.Suback(old(Value()), msgId, rejected, now)
    {
      ghost var was := subscriptions[..];
      topic := SettleAll(msgId, rejected);
      if topic.None? {
        NoneSettled(was, msgId, rejected);
        ParkEarlyAck(msgId, rejected, now);
      }
    }

    method Deleted(msgId: int) returns (topic: Option<bytes>)
      requires Valid()
      modifies subscriptions
      ensures (Value(), topic) == MqttRegions.Deleted(old(Value()), msgId)
    {
      topic := SettleAll(msgId, true);
    }

    method ResetSubscriptionStates()
      modifies subscriptions
      ensures subscriptions[..] == ResetAll(old(subscriptions[..]))
    {
      ghost var was := subscriptions[..];
      for i := 0 to subscriptions.Length
        invariant forall k :: 0 <= k < subscriptions.Length ==> subscriptions[k] == if k < i then ResetOne(was[k]) else was[k]
      {
        var e := subscriptions[i];
        if e.Some? {
          subscriptions[i] := Some(e.value.(state := NotSubscribed));
        }
      }
      assert subscriptions[..] == ResetAll(was);
    }

    method Connect()
      requires Valid()
      modifies this, subscriptions
      ensures Value() == MqttRegions.Connect(old(Value()))
    {
      connected := true;
      ResetSubscriptionStates();
      subRetryDelayMs := RETRY_BASE_MS;
    }

    method MarkDisconnected()
      requires Valid()
      modifies this, subscriptions
      ensures Value() == MqttRegions.MarkDisconnected(old(Value()))
    {
      connected := false;
      connecting := false;
      ResetSubscriptionStates();
      subRetryDelayMs := RETRY_BASE_MS;
    }

    method EventHead(beforeConnect: bool) returns (rearm: bool)
      requires Valid()
      modifies this
      ensures (Value(), rearm) == MqttRegions.EventHead(old(Value()), beforeConnect)
    {
      rearm := false;
      if timerArmPending {
        timerArmPending := false;
        rearm := true;
      }
      if !beforeConnect {
        connecting := false;
      }
    }

    // -------------------------------------------------------------- subscribe() and unsubscribe()

    /** subscribe()'s single pass: the entry to update, whether the topic is active, the first free slot. */
    method Survey(topic: bytes, cb: int) returns (existing: int, active: bool, free: int)
      ensures existing == LastEntry(subscriptions[..], topic, cb, subscriptions.Length)
      ensures active == Active(subscriptions[..], topic, subscriptions.Length)
      ensures free == FirstFree(subscriptions[..], subscriptions.Length)
    {
      ghost var t := subscriptions[..];
      existing, active, free := -1, false, -1;
      for i := 0 to subscriptions.Length
        invariant existing == LastEntry(t, topic, cb, i) && active == Active(t, topic, i) && free == FirstFree(t, i)
      {
        var e := subscriptions[i];
        assert e == t[i];
        if e.Some? {
          if topic == e.value.topic {
            if cb == e.value.cb {
              existing := i;
            }
            if e.value.state == Acknowledged {
              active := true;
            }
          }
        } else if free == -1 {
          free := i;
        }
      }
    }

    method Subscribe(topic: bytes, cb: int, priv: int, qos: nat) returns (r: Subscribed)
      requires Valid()
      modifies subscriptions
      ensures (Value(), r) == MqttRegions.Subscribe(old(Value()), topic, cb, priv, qos)
    {
      var existing, active, free := Survey(topic, cb);
      if existing >= 0 {
        var e := subscriptions[existing].value;
        var send := None;
        var q := e.qos;
        if e.qos < qos {
          q := qos;
          send := Some(q);
        } else if e.state == NotSubscribed || e.state == Failed {
          send := Some(q);
        }
        subscriptions[existing] := Some(e.(priv := priv, qos := q));
        return Subscribed(true, send);
      }
      if free == -1 {
        return Subscribed(false, None);
      }
      subscriptions[free] := Some(Sub(topic, cb, priv, if active then Acknowledged else NotSubscribed, 0, qos, 0));
      return Subscribed(true, if active then None else Some(qos));
    }

    method Detach(slot: nat) returns (sendUnsubscribe: bool)
      requires Valid() && slot < subscriptions.Length && subscriptions[slot].Some?
      modifies subscriptions
      ensures (Value(), sendUnsubscribe) == MqttRegions.Detach(old(Value()), slot)
    {
      var topic := subscriptions[slot].value.topic;
      subscriptions[slot] := None;
      ghost var t := subscriptions[..];
      sendUnsubscribe := connected;
      var i := 0;
      while i < subscriptions.Length
        invariant 0 <= i <= subscriptions.Length && !Uses(t, topic, i) && sendUnsubscribe == connected
      {
        assert t[i] == subscriptions[i];
        if subscriptions[i].Some? && subscriptions[i].value.topic == topic {
          assert OnTopic(t[i], topic);
          sendUnsubscribe := false;
          break;
        }
        i := i + 1;
      }
    }

    method Unsubscribe(topic: bytes) returns (r: Option<bool>)
      requires Valid()
      modifies subscriptions
      ensures (Value(), r) == MqttRegions.Unsubscribe(old(Value()), topic)
    {
      ghost var was := subscriptions[..];
      for i := 0 to subscriptions.Length
        invariant subscriptions[..] == was && forall k :: 0 <= k < i ==> !StartsWith(was[k], topic)
      {
        if subscriptions[i].Some? && topic <= subscriptions[i].value.topic {
          assert StartsWith(was[i], topic) && FirstStarting(was, topic) == i;
          var send := Detach(i);
          return Some(send);
        }
      }
      return None;
    }

    method UnsubscribeAll() returns (out: seq<Release>)
      requires Valid()
      modifies subscriptions
      ensures (Value(), out) == MqttRegions.UnsubscribeAll(old(Value()))
    {
      out := [];
      ghost var was := Value();
      for i := 0 to subscriptions.Length
        invariant (Value(), out) == DetachFirst(was, i)
      {
        ghost var h := Value();
        var e := subscriptions[i];
        assert h.subs[i] == e;
        if e.Some? {
          var send := Detach(i);
          out := out + [Release(e.value.topic, send)];
        }
      }
    }

    // -------------------------------------------------------------- the retry round

    /** resubscribe_pending()'s pass: the topics to send and the QoS of each. */
    method Collect(now: int) returns (pending: seq<Pending>)
      ensures pending == MqttTable.Collect(subscriptions[..], now, subscriptions.Length)
    {
      pending := [];
      ghost var t := subscriptions[..];
      for i := 0 to subscriptions.Length
        invariant pending == MqttTable.Collect(t, now, i)
      {
        var e := subscriptions[i];
        assert e == t[i];
        if e.None? || !NeedsSend(e.value, now) {
          continue;
        }
        var j := 0;
        while j < |pending|
          invariant 0 <= j <= |pending| && j <= FindPending(pending, e.value.topic)
        {
          if pending[j].topic == e.value.topic {
            break;
          }
          j := j + 1;
        }
        if j < |pending| {
          if e.value.qos > pending[j].qos {
            pending := pending[j := pending[j].(qos := e.value.qos)];
          }
          continue;
        }
        pending := pending + [Pending(e.value.topic, e.value.qos, e.value.state == Requested)];
      }
    }

    method Backoff()
      requires Valid()
      modifies this
      ensures Value() == MqttRegions.Backoff(old(Value()))
    {
      subRetryDelayMs := subRetryDelayMs * 2;
      if subRetryDelayMs > RETRY_MAX_MS {
        subRetryDelayMs := RETRY_MAX_MS;
      }
    }

    method ScheduleSubRetry(tick: nat) returns (delayMs: nat)
      requires Valid()
      modifies this
      ensures (Value(), delayMs) == Schedule(old(Value()), tick)
    {
      var failed, requested := false, false;
      delayMs := 0;
      ghost var t := subscriptions[..];
      for i := 0 to subscriptions.Length
        invariant failed == AnyFailed(t, i) && requested == AnyRequested(t, i)
      {
        var e := subscriptions[i];
        assert e == t[i];
        if e.None? || e.value.state == Acknowledged {
          continue;
        }
        if e.value.state == Requested {
          requested := true;
        } else {
          failed := true;
        }
      }
      if !connected {
        subRetryDelayMs := RETRY_BASE_MS;
      } else if failed {
        delayMs := subRetryDelayMs + tick % RETRY_BASE_MS;
      } else if requested {
        delayMs := REQUEST_EXPIRY_MS + 1000;
      } else {
        subRetryDelayMs := RETRY_BASE_MS;
      }
    }

    // -------------------------------------------------------------- begin and end

    method BeginOp() returns (ok: bool)
      requires Valid()
      modifies this
      ensures ok == !old(deleting) && Value() == if ok then old(Value()).(busy := old(busy) + 1) else old(Value())
    {
      if deleting {
        return false;
      }
      busy := busy + 1;
      return true;
    }

    method EndOp()
      requires Valid()
      modifies this
      ensures Value() == old(Value()).(busy := old(busy) - 1)
    {
      busy := busy - 1;
    }
  }
}
