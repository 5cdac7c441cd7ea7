/** What each region under s_glue_lock does to the glue data, one function per region. */
module MqttRegions {
  import opened Bytes
  import opened MqttTable

  /** The instance esp_mqtt_glue_init() publishes: calloc'ed, with the first retry delay set. */
  function Initial(slots: nat): Glue {
    Glue(false, false, RETRY_BASE_MS, false, seq(slots, i => None),
         seq(EARLY_ACK_SLOTS, i => EarlyAck(0, false, 0)), false, 0)
  }

  predicate Sound(g: Glue) { |g.acks| == EARLY_ACK_SLOTS }

  // ---------------------------------------------------------------- send_subscribe()

  function Reserve(g: Glue, topic: bytes, now: int): Glue { g.(subs := ReserveAll(g.subs, topic, now)) }

  /** The second region of send_subscribe(), and the early SUBACK it took, if any. */
  function Record(g: Glue, topic: bytes, ret: int, now: int): (Glue, Option<bool>) {
    var (ack, acks) := if ret >= 0 then Take(g.acks, ret, now) else (None, g.acks);
    (g.(acks := acks, subs := RecordAll(g.subs, topic, ret, ack)), ack)
  }

  // ---------------------------------------------------------------- events

  /** A SUBACK: settles what waits for it, else is parked; the topic to report, if any. */
  function Suback(g: Glue, msgId: int, rejected: bool, now: int): (Glue, Option<bytes>)
    requires Sound(g)
  {
    var i := FirstAwaiting(g.subs, msgId);
    if i < |g.subs| then (g.(subs := AckAll(g.subs, msgId, rejected)), Some(g.subs[i].value.topic))
    else (g.(acks := Park(g.acks, msgId, rejected, now)), None)
  }

  lemma NoneSettled(t: Table, msgId: int, rejected: bool)
    requires FirstAwaiting(t, msgId) == |t|
    ensures AckAll(t, msgId, rejected) == t
  {
  }

  /** A request esp-mqtt dropped counts as rejected. */
  function Deleted(g: Glue, msgId: int): (Glue, Option<bytes>) {
    var i := FirstAwaiting(g.subs, msgId);
    (g.(subs := AckAll(g.subs, msgId, true)), if i < |g.subs| then Some(g.subs[i].value.topic) else None)
  }

  /** A SUBACK settles exactly the entries that wait for it; if none does it takes one slot. */
  lemma SubackIs(g: Glue, msgId: int, rejected: bool, now: int)
    requires Sound(g)
    ensures var (h, topic) := Suback(g, msgId, rejected, now);
      && |h.subs| == |g.subs|
      && (forall i :: 0 <= i < |g.subs| && Awaits(g.subs[i], msgId) ==>
            h.subs[i] == Some(g.subs[i].value.(state := if rejected then Failed else Acknowledged)))
      && (forall i :: 0 <= i < |g.subs| && !Awaits(g.subs[i], msgId) ==> h.subs[i] == g.subs[i])
      && (topic.Some? <==> exists i :: 0 <= i < |g.subs| && Awaits(g.subs[i], msgId))
      && (topic.Some? ==> h.acks == g.acks)
      && (topic.None? ==> exists k :: Overwrites(g.acks, h.acks, k, EarlyAck(msgId, rejected, now)))
  {
    var i := FirstAwaiting(g.subs, msgId);
    if i == |g.subs| {
      assert Overwrites(g.acks, Park(g.acks, msgId, rejected, now), ParkSlotFrom(g.acks, now, 0, 0),
                        EarlyAck(msgId, rejected, now));
    }
  }

  predicate Overwrites(acks: seq<EarlyAck>, next: seq<EarlyAck>, k: nat, a: EarlyAck) { k < |acks| && next == acks[k := a] }

  /** A dropped request fails exactly the entries that wait for it. */
  lemma DeletedIs(g: Glue, msgId: int)
    ensures var (h, topic) := Deleted(g, msgId);
      && h == g.(subs := h.subs) && |h.subs| == |g.subs|
      && (forall i :: 0 <= i < |g.subs| && Awaits(g.subs[i], msgId) ==> h.subs[i] == Some(g.subs[i].value.(state := Failed)))
      && (forall i :: 0 <= i < |g.subs| && !Awaits(g.subs[i], msgId) ==> h.subs[i] == g.subs[i])
      && (topic.Some? <==> exists i :: 0 <= i < |g.subs| && Awaits(g.subs[i], msgId))
  {
    var i := FirstAwaiting(g.subs, msgId);
    assert i < |g.subs| ==> Awaits(g.subs[i], msgId);
  }

  function Connect(g: Glue): Glue {
    g.(connected := true, subs := ResetAll(g.subs), retryDelayMs := RETRY_BASE_MS)
  }

  function MarkDisconnected(g: Glue): Glue {
    g.(connected := false, connecting := false, subs := ResetAll(g.subs), retryDelayMs := RETRY_BASE_MS)
  }

  /** A connect and a disconnect forget what the broker had accepted and start the back-off afresh; nothing
      else about an entry changes, and the parked SUBACKs stay. */
  lemma ForgetsAll(g: Glue)
    ensures Connect(g).connected && !MarkDisconnected(g).connected && !MarkDisconnected(g).connecting
    ensures forall h :: h in {Connect(g), MarkDisconnected(g)} ==>
      && h.retryDelayMs == 5000 && h.acks == g.acks && h.deleting == g.deleting && h.busy == g.busy
      && h.timerArmPending == g.timerArmPending && |h.subs| == |g.subs|
      && forall i :: 0 <= i < |g.subs| ==>
           h.subs[i] == if g.subs[i].Some? then Some(g.subs[i].value.(state := NotSubscribed)) else None
  {
  }

  /** The start of every event: a dropped timer command is picked up, a connect attempt is over. */
  function EventHead(g: Glue, beforeConnect: bool): (Glue, bool) {
    (g.(timerArmPending := false, connecting := g.connecting && beforeConnect), g.timerArmPending)
  }

  /** A noted timer command is handed out once, and any event but the start of a connect ends the wait for
      one; nothing else changes. */
  lemma EventHeadIs(g: Glue, beforeConnect: bool)
    ensures var (h, rearm) := EventHead(g, beforeConnect);
      && (rearm <==> g.timerArmPending) && !h.timerArmPending && !EventHead(h, beforeConnect).1
      && (!beforeConnect ==> !h.connecting) && (beforeConnect ==> h.connecting == g.connecting)
      && h == g.(timerArmPending := h.timerArmPending, connecting := h.connecting)
  {
  }

  // ---------------------------------------------------------------- subscribe() and unsubscribe()

  predicate SameEntry(e: Option<Sub>, topic: bytes, cb: int) { OnTopic(e, topic) && e.value.cb == cb }

  /** The last of the first k entries with this topic and callback; -1 if there is none. */
  function LastEntry(t: Table, topic: bytes, cb: int, k: nat): (i: int)
    requires k <= |t|
    ensures -1 <= i < k && (i >= 0 ==> SameEntry(t[i], topic, cb))
    ensures forall l :: i < l < k ==> !SameEntry(t[l], topic, cb)
  {
    if k == 0 then -1 else if SameEntry(t[k - 1], topic, cb) then k - 1 else LastEntry(t, topic, cb, k - 1)
  }

  function FirstFree(t: Table, k: nat): (i: int)
    requires k <= |t|
    ensures -1 <= i < k && (i >= 0 ==> t[i].None?)
    ensures forall l :: 0 <= l < (if i < 0 then k else i) ==> t[l].Some?
  {
    if k == 0 then -1
    else
      var i := FirstFree(t, k - 1);
      if i < 0 && t[k - 1].None? then k - 1 else i
  }

  /** Whether one of the first k entries on the topic is acknowledged. */
  predicate Active(t: Table, topic: bytes, k: nat)
    requires k <= |t|
    ensures Active(t, topic, k) <==> exists i :: 0 <= i < k && OnTopic(t[i], topic) && t[i].value.state == Acknowledged
  {
    k > 0 && (Active(t, topic, k - 1) || (OnTopic(t[k - 1], topic) && t[k - 1].value.state == Acknowledged))
  }

  /** ok is the return value; send the QoS to send at, if a SUBSCRIBE is needed. */
  datatype Subscribed = Subscribed(ok: bool, send: Option<nat>)

  function Subscribe(g: Glue, topic: bytes, cb: int, priv: int, qos: nat): (Glue, Subscribed) {
    var t, n := g.subs, |g.subs|;
    var i := LastEntry(t, topic, cb, n);
    if i >= 0 then
      var e := t[i].value;
      var q := if e.qos < qos then qos else e.qos;
      (g.(subs := t[i := Some(e.(priv := priv, qos := q))]),
       Subscribed(true, if e.qos < qos || e.state == NotSubscribed || e.state == Failed then Some(q) else None))
    else
      var f, active := FirstFree(t, n), Active(t, topic, n);
      if f < 0 then (g, Subscribed(false, None))
      else
        (g.(subs := t[f := Some(Sub(topic, cb, priv, if active then Acknowledged else NotSubscribed, 0, qos, 0))]),
         Subscribed(true, if active then None else Some(qos)))
  }

  /** What a subscribe leaves behind. It fails exactly when no entry has the topic and callback and no slot is
      free, and then changes nothing. Otherwise one slot differs: it holds the topic, callback and private
      data given and the higher QoS; an entry that was there keeps its state, a new one is acknowledged
      exactly when another entry on the topic is. A SUBSCRIBE is due, at the entry's QoS, exactly when the
      QoS was raised or the entry was never requested or failed. */
  lemma SubscribeIs(g: Glue, topic: bytes, cb: int, priv: int, qos: nat) returns (i: nat)
    ensures var (h, out) := Subscribe(g, topic, cb, priv, qos);
      && (out.ok <==> exists k :: 0 <= k < |g.subs| && (g.subs[k].None? || SameEntry(g.subs[k], topic, cb)))
      && (!out.ok ==> h == g && out.send == None)
      && (out.ok ==> i < |g.subs| && h == g.(subs := g.subs[i := h.subs[i]]) && Stored(g.subs, i, h.subs[i], topic, cb, priv, qos))
      && (out.ok ==>
            var e := h.subs[i].value;
            && (out.send.Some? <==> (g.subs[i].Some? && g.subs[i].value.qos < qos) || e.state in {NotSubscribed, Failed})
            && (out.send.Some? ==> out.send.value == e.qos))
  {
    var t, n := g.subs, |g.subs|;
    i := 0;
    if LastEntry(t, topic, cb, n) >= 0 {
      i := LastEntry(t, topic, cb, n);
    } else if FirstFree(t, n) >= 0 {
      i := FirstFree(t, n);
    }
  }

  ghost predicate Stored(t: Table, i: nat, d: Option<Sub>, topic: bytes, cb: int, priv: int, qos: nat)
    requires i < |t|
  {
    && d.Some? && d.value.topic == topic && d.value.cb == cb && d.value.priv == priv && d.value.qos >= qos
    && (t[i].Some? ==>
          var e := t[i].value;
          && SameEntry(t[i], topic, cb) && d.value.qos >= e.qos && (d.value.qos == e.qos || d.value.qos == qos)
          && d.value.state == e.state && d.value.msgId == e.msgId && d.value.requestTick == e.requestTick)
    && (t[i].None? ==>
          && d.value.qos == qos && (forall k :: 0 <= k < |t| ==> !SameEntry(t[k], topic, cb))
          && d.value.state == if exists k :: 0 <= k < |t| && OnTopic(t[k], topic) && t[k].value.state == Acknowledged
                              then Acknowledged else NotSubscribed)
  }

  /** Whether one of the first k entries is on the topic. */
  predicate Uses(t: Table, topic: bytes, k: nat)
    requires k <= |t|
    ensures Uses(t, topic, k) <==> exists i :: 0 <= i < k && OnTopic(t[i], topic)
  {
    k > 0 && (Uses(t, topic, k - 1) || OnTopic(t[k - 1], topic))
  }

  /** detach: the slot is emptied; UNSUBSCRIBE is due when connected and nothing else is on the topic. */
  function Detach(g: Glue, i: nat): (Glue, bool)
    requires i < |g.subs| && g.subs[i].Some?
  {
    var t := g.subs[i := None];
    (g.(subs := t), g.connected && !Uses(t, g.subs[i].value.topic, |t|))
  }

  /** strncmp(topic, entry, strlen(topic)) == 0. */
  predicate StartsWith(e: Option<Sub>, topic: bytes) { e.Some? && topic <= e.value.topic }

  function FirstStarting(t: Table, topic: bytes): (i: nat)
    ensures i <= |t| && (i < |t| ==> StartsWith(t[i], topic)) && forall k :: 0 <= k < i ==> !StartsWith(t[k], topic)
  {
    if t == [] then 0 else if StartsWith(t[0], topic) then 0
    else
      var i := FirstStarting(t[1..], topic);
      assert forall k :: 0 < k < i + 1 ==> t[k] == t[1..][k - 1];
      i + 1
  }

  predicate Longer(e: Option<Sub>, topic: bytes) { StartsWith(e, topic) && e.value.topic != topic }

  /** The entry unsubscribe() picks is on the asked topic if and only if some entry is, with no longer topic
      that starts with the asked one in front of it. */
  lemma PicksAsked(t: Table, topic: bytes)
    ensures var i := FirstStarting(t, topic);
      i < |t| && OnTopic(t[i], topic) <==>
        exists j :: 0 <= j < |t| && OnTopic(t[j], topic) && forall k :: 0 <= k < j ==> !Longer(t[k], topic)
  {
    var i := FirstStarting(t, topic);
    if j :| 0 <= j < |t| && OnTopic(t[j], topic) && forall k :: 0 <= k < j ==> !Longer(t[k], topic) {
      assert StartsWith(t[j], topic);
      assert i <= j && (i < j ==> !Longer(t[i], topic));
    }
  }

  /** Unsubscribing from "a" takes "ab" out of the table and leaves "a" in it. */
  lemma PicksLonger()
    ensures var d := Sub([97], 1, 0, NotSubscribed, 0, 0, 0); var e := d.(topic := [97, 98]);
      var g := Initial(2).(subs := [Some(e), Some(d)]);
      Unsubscribe(g, [97]).0.subs == [None, Some(d)] && Unsubscribe(g, [97]).1.Some?
  {
    var d := Sub([97], 1, 0, NotSubscribed, 0, 0, 0);
    var e := d.(topic := [97, 98]);
    var g := Initial(2).(subs := [Some(e), Some(d)]);
    assert [97] <= e.topic;
    assert StartsWith(g.subs[0], [97]) && FirstStarting(g.subs, [97]) == 0;
    assert g.subs[0 := None] == [None, Some(d)];
  }

  /** unsubscribe(): None if no entry matched, else whether UNSUBSCRIBE is due. */
  function Unsubscribe(g: Glue, topic: bytes): (Glue, Option<bool>) {
    var i := FirstStarting(g.subs, topic);
    if i == |g.subs| then (g, None)
    else
      var (g', send) := Detach(g, i);
      (g', Some(send))
  }

  /** No other entry has the topic of slot i. */
  predicate Alone(t: Table, i: nat)
    requires i < |t| && t[i].Some?
  {
    forall k :: 0 <= k < |t| && k != i ==> !OnTopic(t[k], t[i].value.topic)
  }

  /** What an unsubscribe leaves behind: nothing happens exactly when no topic starts with the argument;
      otherwise the first such entry goes and nothing else changes, and UNSUBSCRIBE is due exactly while
      connected with no other entry on its topic. */
  lemma UnsubscribeIs(g: Glue, topic: bytes)
    ensures var (h, send) := Unsubscribe(g, topic); var i := FirstStarting(g.subs, topic);
      && (send.None? <==> forall k :: 0 <= k < |g.subs| ==> !StartsWith(g.subs[k], topic))
      && (send.None? ==> h == g)
      && (send.Some? ==>
            && i < |g.subs| && g.subs[i].Some? && h == g.(subs := g.subs[i := None])
            && (send.value <==> (g.connected && Alone(g.subs, i))))
  {
    var t, i := g.subs, FirstStarting(g.subs, topic);
    if i < |t| {
      var u, name := t[i := None], t[i].value.topic;
      if Uses(u, name, |u|) {
        var k :| 0 <= k < |u| && OnTopic(u[k], name);
        assert k != i && OnTopic(t[k], name);
      } else {
        forall k | 0 <= k < |t| && k != i
          ensures !OnTopic(t[k], name)
        {
          assert u[k] == t[k];
        }
      }
    }
  }

  /** A detached entry: its topic and whether UNSUBSCRIBE is due. */
  datatype Release = Release(topic: bytes, send: bool)

  /** unsubscribe_all()'s pass over the first k slots. */
  function DetachFirst(g: Glue, k: nat): (r: (Glue, seq<Release>))
    requires k <= |g.subs|
    ensures |r.0.subs| == |g.subs| && r.0 == g.(subs := r.0.subs)
    ensures forall i :: 0 <= i < |g.subs| ==> r.0.subs[i] == if i < k then None else g.subs[i]
  {
    if k == 0 then (g, [])
    else
      var (h, out) := DetachFirst(g, k - 1);
      if h.subs[k - 1].None? then (h, out)
      else
        var (h', send) := Detach(h, k - 1);
        (h', out + [Release(h.subs[k - 1].value.topic, send)])
  }

  function UnsubscribeAll(g: Glue): (Glue, seq<Release>) { DetachFirst(g, |g.subs|) }

  /** How many UNSUBSCRIBEs a list of releases sends for a topic. */
  function Sends(out: seq<Release>, topic: bytes): nat {
    if out == [] then 0
    else Sends(out[..|out| - 1], topic) + (if out[|out| - 1] == Release(topic, true) then 1 else 0)
  }

  lemma SendsSnoc(out: seq<Release>, r: Release, topic: bytes)
    ensures Sends(out + [r], topic) == Sends(out, topic) + (if r == Release(topic, true) then 1 else 0)
  {
    assert (out + [r])[..|out|] == out;
  }

  /** Entries of the topic from slot k on. */
  predicate UsedFrom(t: Table, topic: bytes, k: nat) { exists i :: k <= i < |t| && OnTopic(t[i], topic) }

  lemma {:induction false} DetachSends(g: Glue, k: nat, topic: bytes)
    requires k <= |g.subs|
    ensures Sends(DetachFirst(g, k).1, topic)
         == if g.connected && Uses(g.subs, topic, k) && !UsedFrom(g.subs, topic, k) then 1 else 0
  {
    if k > 0 {
      DetachSends(g, k - 1, topic);
      var (h, out) := DetachFirst(g, k - 1);
      var e := g.subs[k - 1];
      if e.Some? {
        var t := h.subs[k - 1 := None];
        assert DetachFirst(g, k).1 == out + [Release(e.value.topic, g.connected && !Uses(t, e.value.topic, |t|))];
        SendsSnoc(out, Release(e.value.topic, g.connected && !Uses(t, e.value.topic, |t|)), topic);
        StillUsed(g.subs, t, e.value.topic, k);
        if e.value.topic == topic {
          assert UsedFrom(g.subs, topic, k - 1);
        }
      }
      UsedShift(g.subs, topic, k);
    }
  }

  lemma StillUsed(all: Table, t: Table, topic: bytes, k: nat)
    requires k <= |all| == |t| && forall i :: 0 <= i < |t| ==> t[i] == if i < k then None else all[i]
    ensures Uses(t, topic, |t|) <==> UsedFrom(all, topic, k)
  {
    if UsedFrom(all, topic, k) {
      var i :| k <= i < |all| && OnTopic(all[i], topic);
      assert OnTopic(t[i], topic);
    }
  }

  lemma UsedShift(t: Table, topic: bytes, k: nat)
    requires 0 < k <= |t|
    ensures UsedFrom(t, topic, k - 1) <==> OnTopic(t[k - 1], topic) || UsedFrom(t, topic, k)
  {
    if OnTopic(t[k - 1], topic) {
      assert UsedFrom(t, topic, k - 1);
    }
  }

  /** While connected, unsubscribe_all() sends exactly one UNSUBSCRIBE for every topic in the table and
      none for any other; while not connected it sends none. The table is left empty. */
  lemma UnsubscribeAllSendsOnce(g: Glue, topic: bytes)
    ensures Sends(UnsubscribeAll(g).1, topic) == if g.connected && Uses(g.subs, topic, |g.subs|) then 1 else 0
    ensures forall i :: 0 <= i < |g.subs| ==> UnsubscribeAll(g).0.subs[i].None?
  {
    DetachSends(g, |g.subs|, topic);
  }

  // ---------------------------------------------------------------- the retry timer

  /** An entry whose last request failed or was never made, among the first k. */
  predicate AnyFailed(t: Table, k: nat)
    requires k <= |t|
    ensures AnyFailed(t, k) <==> exists i :: 0 <= i < k && t[i].Some? && t[i].value.state in {NotSubscribed, Failed}
  {
    k > 0 && (AnyFailed(t, k - 1) || (t[k - 1].Some? && t[k - 1].value.state in {NotSubscribed, Failed}))
  }

  predicate AnyRequested(t: Table, k: nat)
    requires k <= |t|
    ensures AnyRequested(t, k) <==> exists i :: 0 <= i < k && t[i].Some? && t[i].value.state == Requested
  {
    k > 0 && (AnyRequested(t, k - 1) || (t[k - 1].Some? && t[k - 1].value.state == Requested))
  }

  predicate AllAcknowledged(t: Table) {
    forall i :: 0 <= i < |t| && t[i].Some? ==> t[i].value.state == Acknowledged
  }

  /** schedule_sub_retry()'s decision; a delay of 0 stops the timer. */
  function Schedule(g: Glue, tick: nat): (Glue, nat) {
    var n := |g.subs|;
    if !g.connected then (g.(retryDelayMs := RETRY_BASE_MS), 0)
    else if AnyFailed(g.subs, n) then (g, g.retryDelayMs + tick % RETRY_BASE_MS)
    else if AnyRequested(g.subs, n) then (g, REQUEST_EXPIRY_MS + 1000)
    else (g.(retryDelayMs := RETRY_BASE_MS), 0)
  }

  /** The timer is stopped exactly when disconnected or nothing is left to acknowledge. */
  lemma StopsWhenSettled(g: Glue, tick: nat)
    requires g.retryDelayMs > 0
    ensures Schedule(g, tick).1 == 0 <==> !g.connected || AllAcknowledged(g.subs)
  {
    var n := |g.subs|;
    if g.connected && !AnyFailed(g.subs, n) && !AnyRequested(g.subs, n) {
      forall i | 0 <= i < n && g.subs[i].Some?
        ensures g.subs[i].value.state == Acknowledged
      {
        assert g.subs[i].value.state !in {NotSubscribed, Failed};
      }
    }
  }

  /** The delay that is posted while connected: the back-off delay and up to five seconds of jitter if some
      entry failed or was never requested, just over the expiry of a request if some are merely unanswered.
      Stopping resets the back-off; anything else leaves all as it was. */
  lemma DelayIs(g: Glue, tick: nat)
    ensures var (h, delay) := Schedule(g, tick);
      && (g.connected && (exists i :: 0 <= i < |g.subs| && g.subs[i].Some? && g.subs[i].value.state in {NotSubscribed, Failed}) ==>
            g.retryDelayMs <= delay < g.retryDelayMs + 5000 && (delay - g.retryDelayMs - tick) % 5000 == 0)
      && (g.connected && (forall i :: 0 <= i < |g.subs| && g.subs[i].Some? ==> g.subs[i].value.state in {Requested, Acknowledged})
          && (exists i :: 0 <= i < |g.subs| && g.subs[i].Some? && g.subs[i].value.state == Requested) ==>
            delay == 31000)
      && h == if !g.connected || AllAcknowledged(g.subs) then g.(retryDelayMs := 5000) else g
  {
    var n := |g.subs|;
    if AnyFailed(g.subs, n) {
      var i :| 0 <= i < n && g.subs[i].Some? && g.subs[i].value.state in {NotSubscribed, Failed};
    } else if !AnyRequested(g.subs, n) {
      forall i | 0 <= i < n && g.subs[i].Some?
        ensures g.subs[i].value.state == Acknowledged
      {
        assert g.subs[i].value.state !in {NotSubscribed, Failed};
      }
    }
  }

  function Backoff(g: Glue): Glue {
    g.(retryDelayMs := if g.retryDelayMs * 2 > RETRY_MAX_MS then RETRY_MAX_MS else g.retryDelayMs * 2)
  }

  function Pow2(k: nat): (p: nat)
    ensures p > 0
  {
    if k == 0 then 1 else 2 * Pow2(k - 1)
  }

  /** The delay after k rounds that re-sent a failed entry. */
  function DelayAfter(k: nat): nat {
    if RETRY_BASE_MS * Pow2(k) > RETRY_MAX_MS then RETRY_MAX_MS else RETRY_BASE_MS * Pow2(k)
  }

  lemma BackoffDoubles(g: Glue, k: nat)
    requires g.retryDelayMs == DelayAfter(k)
    ensures Backoff(g).retryDelayMs == DelayAfter(k + 1)
  {
  }
}
