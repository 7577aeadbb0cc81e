/** The event topic: bounded subscriber buffers with a one-slot coalescing resync channel beside each. */
module EventTopic {
  import opened Wrappers

  datatype Reason = Connected | Reconnect | Overflow

  datatype Resync = Resync(time: int, reason: Reason)

  /** Both channels of one subscription; they are opened and closed together. */
  datatype Channel<T> = Channel(capacity: nat, buffer: seq<T>, resync: Option<Resync>, open: bool)

  /** Channels are named by handles, so a consumer keeps its own after the topic has forgotten it. */
  datatype Topic<T> = Topic(nextID: nat, subscribers: map<nat, nat>, closed: bool, channels: seq<Channel<T>>)

  predicate Full<T>(c: Channel<T>) {
    |c.buffer| >= c.capacity
  }

  /** Sending to and closing a closed channel would panic, so both demand an open one. */
  function Enqueue<T>(c: Channel<T>, event: T): Channel<T>
    requires c.open && !Full(c)
  {
    c.(buffer := c.buffer + [event])
  }

  /** A resync request is dropped when one is already waiting. */
  function Notify<T>(c: Channel<T>, request: Resync): Channel<T>
    requires c.open
  {
    if c.resync == None then c.(resync := Some(request)) else c
  }

  function Closed<T>(c: Channel<T>): Channel<T>
    requires c.open
  {
    c.(open := false)
  }

  /** One send without blocking; an event that does not fit asks for a resync instead. */
  function Offer<T>(c: Channel<T>, event: T, overflow: Resync): Channel<T>
    requires c.open
  {
    if Full(c) then Notify(c, overflow) else Enqueue(c, event)
  }

  /** A channel is open exactly while it is registered, identifiers and handles are never shared. */
  ghost predicate Valid<T>(t: Topic<T>) {
    && (forall id :: id in t.subscribers ==> id < t.nextID && t.subscribers[id] < |t.channels|)
    && (forall a, b :: a in t.subscribers && b in t.subscribers && t.subscribers[a] == t.subscribers[b] ==> a == b)
    && (forall h :: 0 <= h < |t.channels| ==> (t.channels[h].open <==> h in t.subscribers.Values))
    && (t.closed ==> t.subscribers == map[])
  }

  function NewChannel<T>(t: Topic<T>, capacity: nat): Channel<T> {
    Channel(capacity, [], None, !t.closed)
  }

  function Subscribed<T>(t: Topic<T>, capacity: nat): Topic<T> {
    if t.closed then t.(channels := t.channels + [NewChannel(t, capacity)])
    else Topic(t.nextID + 1, t.subscribers[t.nextID := |t.channels|], false, t.channels + [NewChannel(t, capacity)])
  }

  function Unsubscribed<T>(t: Topic<T>, id: nat): Topic<T>
    requires id in t.subscribers ==> t.subscribers[id] < |t.channels| && t.channels[t.subscribers[id]].open
  {
    if id !in t.subscribers then t
    else
      var h := t.subscribers[id];
      t.(subscribers := t.subscribers - {id}, channels := t.channels[h := Closed(t.channels[h])])
  }

  function OfferTo<T>(channels: seq<Channel<T>>, handles: set<nat>, event: T, overflow: Resync): (r: seq<Channel<T>>)
    ensures |r| == |channels|
  {
    seq(|channels|, h requires 0 <= h < |channels| =>
      if h in handles && channels[h].open then Offer(channels[h], event, overflow) else channels[h])
  }

  function NotifyAt<T>(channels: seq<Channel<T>>, handles: set<nat>, request: Resync): (r: seq<Channel<T>>)
    ensures |r| == |channels|
  {
    seq(|channels|, h requires 0 <= h < |channels| =>
      if h in handles && channels[h].open then Notify(channels[h], request) else channels[h])
  }

  function ClosedAt<T>(channels: seq<Channel<T>>, handles: set<nat>): (r: seq<Channel<T>>)
    ensures |r| == |channels|
  {
    seq(|channels|, h requires 0 <= h < |channels| =>
      if h in handles && channels[h].open then Closed(channels[h]) else channels[h])
  }

  /** The channels for which a publish newly requests a resync. */
  function Overflowing<T>(channels: seq<Channel<T>>, handles: set<nat>): set<nat> {
    set h | h in handles && h < |channels| && Full(channels[h]) && channels[h].resync == None
  }

  /** How many resyncs a publish to the given channels newly requests. */
  function Requested<T>(channels: seq<Channel<T>>, handles: set<nat>): nat {
    |Overflowing(channels, handles)|
  }

  lemma OfferReachesOneMore<T>(channels: seq<Channel<T>>, done: set<nat>, h: nat, event: T, overflow: Resync)
    requires h < |channels| && channels[h].open && h !in done
    ensures var before := OfferTo(channels, done, event, overflow);
      && before[h] == channels[h]
      && OfferTo(channels, done + {h}, event, overflow) == before[h := Offer(channels[h], event, overflow)]
    ensures Requested(channels, done + {h}) ==
      Requested(channels, done) + if Full(channels[h]) && channels[h].resync == None then 1 else 0
  {
    assert Overflowing(channels, done + {h}) ==
      Overflowing(channels, done) + if Full(channels[h]) && channels[h].resync == None then {h} else {};
  }

  lemma OfferStartsAtNone<T>(channels: seq<Channel<T>>, event: T, overflow: Resync)
    ensures OfferTo(channels, {}, event, overflow) == channels && Requested(channels, {}) == 0
  {
  }

  ghost predicate AllOpen<T>(channels: seq<Channel<T>>, handles: set<nat>) {
    forall h :: h in handles ==> h < |channels| && channels[h].open
  }

  lemma OfferKeepsValid<T>(t: Topic<T>, event: T, overflow: Resync)
    requires Valid(t)
    ensures AllOpen(t.channels, t.subscribers.Values)
    ensures Valid(t.(channels := OfferTo(t.channels, t.subscribers.Values, event, overflow)))
  {
  }

  /** What a publish makes of one channel: an event that fits is buffered behind the others; one that does not is left
      out, and a resync waits: the one that waited already, or else the publish's own. */
  predicate Published<T(==)>(before: Channel<T>, after: Channel<T>, registered: bool, event: T, overflow: Resync) {
    && after.capacity == before.capacity && after.open == before.open
    && after.buffer == (if registered && |before.buffer| < before.capacity then before.buffer + [event]
                        else before.buffer)
    && after.resync == if registered && |before.buffer| >= before.capacity && before.resync == None then Some(overflow)
                       else before.resync
  }

  ghost predicate PublishedTo<T>(before: seq<Channel<T>>, after: seq<Channel<T>>, handles: set<nat>, event: T,
                                 overflow: Resync) {
    |after| == |before| &&
    forall h :: 0 <= h < |after| ==> Published(before[h], after[h], h in handles, event, overflow)
  }

  lemma OfferPublishes<T>(channels: seq<Channel<T>>, handles: set<nat>, event: T, overflow: Resync)
    requires AllOpen(channels, handles)
    ensures PublishedTo(channels, OfferTo(channels, handles, event, overflow), handles, event, overflow)
  {
  }

  /** What a publish counts: the channels without a waiting request that have one afterwards. */
  lemma RequestsAreCounted<T>(channels: seq<Channel<T>>, handles: set<nat>, event: T, overflow: Resync)
    requires AllOpen(channels, handles)
    ensures Requested(channels, handles) ==
      |set h | 0 <= h < |channels| && channels[h].resync == None &&
               OfferTo(channels, handles, event, overflow)[h].resync.Some?|
  {
    assert Overflowing(channels, handles) ==
      set h | 0 <= h < |channels| && channels[h].resync == None &&
              OfferTo(channels, handles, event, overflow)[h].resync.Some?;
  }

  class EventTopic<T> {
    var nextID: nat
    var subscribers: map<nat, nat>
    var closed: bool
    var channels: seq<Channel<T>>

    constructor ()
      ensures View() == Topic(0, map[], false, []) && Valid(View())
    {
      nextID, subscribers, closed, channels := 0, map[], false, [];
    }

    ghost function View(): Topic<T>
      reads this
    {
      Topic(nextID, subscribers, closed, channels)
    }

    /** A subscription to a closed topic gets channels that are closed already and no identifier. */
    method Subscribe(bufferSize: nat) returns (handle: nat, id: Option<nat>)
      requires Valid(View())
      modifies this
      ensures Valid(View()) && View() == Subscribed(old(View()), bufferSize)
      ensures handle == |old(channels)| && id == if closed then None else Some(old(nextID))
      ensures channels == old(channels) + [Channel(bufferSize, [], None, !closed)] && closed == old(closed)
      ensures subscribers == if closed then old(subscribers) else old(subscribers)[old(nextID) := handle]
    {
      handle := |channels|;
      channels := channels + [Channel(bufferSize, [], None, true)];
      if closed {
        channels := channels[handle := Closed(channels[handle])];
        return handle, None;
      }
      id := Some(nextID);
      subscribers := subscribers[nextID := handle];
      nextID := nextID + 1;
      RegisteredValid(old(View()), bufferSize);
    }

    /** Forgetting an unknown or already closed subscription does nothing. */
    method Unsubscribe(id: nat)
      requires Valid(View())
      modifies this
      ensures Valid(View()) && View() == Unsubscribed(old(View()), id)
      ensures id !in old(subscribers) ==> subscribers == old(subscribers) && channels == old(channels)
      ensures id in old(subscribers) ==>
        var h := old(subscribers)[id];
        && old(channels)[h].open && id !in subscribers && h !in subscribers.Values
        && channels == old(channels)[h := old(channels)[h].(open := false)]
    {
      if id !in subscribers {
        return;
      }
      var handle := subscribers[id];
      subscribers := subscribers - {id};
      channels := channels[handle := Closed(channels[handle])];
      UnsubscribedValid(old(View()), id);
    }

    /** One subscriber's share of a publish: a send that does not block, or else a resync request. */
    method Offered(handle: nat, event: T, overflow: Resync) returns (requested: bool)
      requires handle < |channels| && channels[handle].open
      modifies this`channels
      ensures channels == old(channels)[handle := Offer(old(channels)[handle], event, overflow)]
      ensures requested <==> Full(old(channels)[handle]) && old(channels)[handle].resync == None
    {
      var channel := channels[handle];
      requested := false;
      if !Full(channel) {
        channel := Enqueue(channel, event);
      } else {
        requested := channel.resync == None;
        channel := Notify(channel, overflow);
      }
      channels := channels[handle := channel];
    }

    /** Every registered channel must be open, as it is in a valid topic; OfferKeepsValid says the topic stays valid. */
    method Publish(event: T, overflow: Resync) returns (dropped: nat)
      requires AllOpen(channels, subscribers.Values)
      modifies this`channels
      ensures channels == OfferTo(old(channels), subscribers.Values, event, overflow)
      ensures dropped == Requested(old(channels), subscribers.Values)
      ensures PublishedTo(old(channels), channels, subscribers.Values, event, overflow)
    {
      dropped := 0;
      var rest, done := subscribers.Values, {};
      ghost var before := channels;
      OfferStartsAtNone(before, event, overflow);
      while rest != {}
        invariant rest !! done && rest + done == subscribers.Values
        invariant channels == OfferTo(before, done, event, overflow)
        invariant dropped == Requested(before, done)
        decreases rest
      {
        var handle :| handle in rest;
        OfferReachesOneMore(before, done, handle, event, overflow);
        var requested := Offered(handle, event, overflow);
        dropped := if requested then dropped + 1 else dropped;
        rest, done := rest - {handle}, done + {handle};
      }
      assert done == subscribers.Values;
      OfferPublishes(before, done, event, overflow);
    }

    method RequestResync(request: Resync)
      requires Valid(View())
      modifies this`channels
      ensures Valid(View())
      ensures channels == NotifyAt(old(channels), subscribers.Values, request)
      ensures |channels| == |old(channels)| && forall h :: 0 <= h < |channels| ==>
        && (h !in subscribers.Values || old(channels)[h].resync.Some? ==> channels[h] == old(channels)[h])
        && (h in subscribers.Values && old(channels)[h].resync == None ==>
              channels[h] == old(channels)[h].(resync := Some(request)))
    {
      var rest, done := subscribers.Values, {};
      while rest != {}
        invariant rest !! done && rest + done == subscribers.Values
        invariant channels == NotifyAt(old(channels), done, request)
        decreases rest
      {
        var handle :| handle in rest;
        channels := channels[handle := Notify(channels[handle], request)];
        rest, done := rest - {handle}, done + {handle};
      }
    }

    /** Closing twice is harmless: the second call finds nobody left to close. */
    method Close()
      requires Valid(View())
      modifies this
      ensures Valid(View()) && closed && subscribers == map[] && nextID == old(nextID)
      ensures channels == ClosedAt(old(channels), old(subscribers).Values)
      ensures |channels| == |old(channels)|
      ensures forall h :: 0 <= h < |channels| ==> channels[h] == old(channels)[h].(open := false)
    {
      if closed {
        return;
      }
      closed := true;
      var rest, done := subscribers.Values, {};
      while rest != {}
        invariant rest !! done && rest + done == old(subscribers).Values
        invariant channels == ClosedAt(old(channels), done)
        invariant nextID == old(nextID) && closed
        decreases rest
      {
        var handle :| handle in rest;
        channels := channels[handle := Closed(channels[handle])];
        rest, done := rest - {handle}, done + {handle};
      }
      subscribers := map[];
    }

    /** A consumer takes the oldest buffered event, even after its channel was closed. */
    method Receive(handle: nat) returns (event: Option<T>)
      requires handle < |channels|
      modifies this`channels
      ensures old(channels)[handle].buffer == [] ==> event == None && channels == old(channels)
      ensures old(channels)[handle].buffer != [] ==>
        && event == Some(old(channels)[handle].buffer[0])
        && channels == old(channels)[handle := old(channels)[handle].(buffer := old(channels)[handle].buffer[1..])]
    {
      var channel := channels[handle];
      if channel.buffer == [] {
        return None;
      }
      event := Some(channel.buffer[0]);
      channels := channels[handle := channel.(buffer := channel.buffer[1..])];
    }

    method TakeResync(handle: nat) returns (request: Option<Resync>)
      requires handle < |channels|
      modifies this`channels
      ensures request == old(channels)[handle].resync
      ensures channels == old(channels)[handle := old(channels)[handle].(resync := None)]
    {
      request := channels[handle].resync;
      channels := channels[handle := channels[handle].(resync := None)];
    }
  }

  lemma RegisteredValid<T>(t: Topic<T>, capacity: nat)
    requires Valid(t)
    ensures Valid(Subscribed(t, capacity))
  {
    var after := Subscribed(t, capacity);
    if !t.closed {
      assert after.subscribers[t.nextID] == |t.channels|;
      forall h | 0 <= h < |t.channels| ensures h in after.subscribers.Values <==> h in t.subscribers.Values {
        if h in t.subscribers.Values {
          var id :| id in t.subscribers && t.subscribers[id] == h;
          assert after.subscribers[id] == h;
        }
      }
    }
  }

  lemma UnsubscribedValid<T>(t: Topic<T>, id: nat)
    requires Valid(t)
    ensures id in t.subscribers ==> t.subscribers[id] < |t.channels| && t.channels[t.subscribers[id]].open
    ensures Valid(Unsubscribed(t, id))
  {
    if id in t.subscribers {
      assert t.subscribers[id] in t.subscribers.Values;
      var after := Unsubscribed(t, id);
      forall h | 0 <= h < |t.channels| && h != t.subscribers[id]
        ensures h in after.subscribers.Values <==> h in t.subscribers.Values {
        if h in t.subscribers.Values {
          var other :| other in t.subscribers && t.subscribers[other] == h;
          assert after.subscribers[other] == h;
        }
      }
    }
  }
}
