/** Every interleaving of the stream reader, the topic's callers and the consumers: nothing is lost in silence. */
module EventRuns {
  import opened Wrappers
  import opened EventTopic

  /** An event as one channel met it: buffered, or lost to an overflow or a broken stream. */
  datatype Offered<T> = Offered(event: T, kept: bool)

  /** The past of one channel: where in the log it begins, what it was offered, what its consumer received, and how
      much of it lies before the last resync its consumer took. */
  datatype Track<T> = Track(since: nat, history: seq<Offered<T>>, taken: seq<T>, mark: nat)

  /** What the stream reader is doing while it holds the topic's read lock. */
  datatype Sweep<T> =
    | Idle
    | Publishing(event: T, overflow: Resync, rest: set<nat>, owing: Option<nat>)
    | Resyncing(request: Resync, rest: set<nat>)

  /** The log holds every event that ever happened, whether the stream delivered it or not. */
  datatype System<T> = System(topic: Topic<T>, tracks: seq<Track<T>>, log: seq<T>, connected: bool, sweep: Sweep<T>)

  datatype Step<T> =
    | Subscribe(capacity: nat)
    | Unsubscribe(id: nat)
    | Close
    | Connect(request: Resync)
    | Disconnect
    | Miss(event: T)
    | Publish(event: T, overflow: Resync)
    | Send(handle: nat)
    | RequestOverflow
    | SendResync(handle: nat)
    | Finish
    | Receive(handle: nat)
    | TakeResync(handle: nat)

  function Init<T>(): System<T> {
    System(Topic(0, map[], false, []), [], [], false, Idle)
  }

  /** The handles that are registered, hence open. */
  function Live<T>(s: System<T>): set<nat> {
    s.topic.subscribers.Values
  }

  /** Writers of the topic wait for the reader's sweep to end; consumers never wait. */
  ghost predicate Enabled<T>(s: System<T>, step: Step<T>) {
    match step
    case Subscribe(_) => s.sweep.Idle?
    case Unsubscribe(_) => s.sweep.Idle?
    case Close => s.sweep.Idle?
    case Connect(_) => s.sweep.Idle? && !s.connected
    case Disconnect => s.sweep.Idle? && s.connected
    case Miss(_) => s.sweep.Idle? && !s.connected
    case Publish(_, _) => s.sweep.Idle? && s.connected
    case Send(h) => s.sweep.Publishing? && s.sweep.owing == None && h in s.sweep.rest
    case RequestOverflow => s.sweep.Publishing? && s.sweep.owing.Some?
    case SendResync(h) => s.sweep.Resyncing? && h in s.sweep.rest
    case Finish => !s.sweep.Idle? && s.sweep.rest == {} && (s.sweep.Publishing? ==> s.sweep.owing == None)
    case Receive(h) => h < |s.topic.channels| && s.topic.channels[h].buffer != []
    case TakeResync(h) => h < |s.topic.channels| && s.topic.channels[h].resync.Some?
  }

  // ---------------------------------------------------------------- one channel

  function Kept<T>(history: seq<Offered<T>>): seq<T> {
    if history == [] then []
    else
      var last := history[|history| - 1];
      Kept(history[..|history| - 1]) + if last.kept then [last.event] else []
  }

  function Events<T>(history: seq<Offered<T>>): seq<T> {
    seq(|history|, i requires 0 <= i < |history| => history[i].event)
  }

  predicate AllKept<T>(history: seq<Offered<T>>) {
    forall i :: 0 <= i < |history| ==> history[i].kept
  }

  function Meet<T>(t: Track<T>, event: T, kept: bool): Track<T> {
    t.(history := t.history + [Offered(event, kept)])
  }

  /** What holds of a channel and its past. Behind: the running publish has not reached it yet. Settled: nothing is
      about to ask it for a resync. */
  ghost predicate ChannelOk<T>(c: Channel<T>, t: Track<T>, log: seq<T>, behind: bool, settled: bool) {
    && |c.buffer| <= c.capacity
    && t.taken + c.buffer == Kept(t.history)
    && t.since + |t.history| <= |log| && Events(t.history) == log[t.since..t.since + |t.history|]
    && (c.open ==> t.since + |t.history| == if behind then |log| - 1 else |log|)
    && t.mark <= |t.history|
    && (c.open && settled && c.resync == None ==> AllKept(t.history[t.mark..]))
  }

  lemma MeetKept<T>(t: Track<T>, event: T, kept: bool)
    ensures Kept(Meet(t, event, kept).history) == Kept(t.history) + if kept then [event] else []
    ensures Events(Meet(t, event, kept).history) == Events(t.history) + [event]
  {
    assert Meet(t, event, kept).history[..|t.history|] == t.history;
  }

  /** The log grows by an event that this open channel has yet to meet. */
  lemma LogGrows<T>(c: Channel<T>, t: Track<T>, log: seq<T>, settled: bool, event: T)
    requires ChannelOk(c, t, log, false, settled)
    ensures ChannelOk(c, t, log + [event], c.open, settled)
  {
    assert (log + [event])[t.since..t.since + |t.history|] == log[t.since..t.since + |t.history|];
  }

  lemma Buffers<T>(c: Channel<T>, t: Track<T>, log: seq<T>, settled: bool)
    requires c.open && !Full(c) && log != [] && ChannelOk(c, t, log, true, settled)
    ensures ChannelOk(Enqueue(c, log[|log| - 1]), Meet(t, log[|log| - 1], true), log, false, settled)
  {
    var event := log[|log| - 1];
    MeetKept(t, event, true);
    assert log[t.since..] == log[t.since..|log| - 1] + [event];
    if settled && c.resync == None {
      assert Meet(t, event, true).history[t.mark..] == t.history[t.mark..] + [Offered(event, true)];
    }
  }

  lemma Loses<T>(c: Channel<T>, t: Track<T>, log: seq<T>, settled: bool)
    requires c.open && log != [] && ChannelOk(c, t, log, true, settled)
    ensures ChannelOk(c, Meet(t, log[|log| - 1], false), log, false, false)
  {
    var event := log[|log| - 1];
    MeetKept(t, event, false);
    assert log[t.since..] == log[t.since..|log| - 1] + [event];
  }

  lemma Receives<T>(c: Channel<T>, t: Track<T>, log: seq<T>, behind: bool, settled: bool)
    requires c.buffer != [] && ChannelOk(c, t, log, behind, settled)
    ensures ChannelOk(c.(buffer := c.buffer[1..]), t.(taken := t.taken + [c.buffer[0]]), log, behind, settled)
  {
    assert t.taken + [c.buffer[0]] + c.buffer[1..] == t.taken + c.buffer;
  }

  lemma TakesResync<T>(c: Channel<T>, t: Track<T>, log: seq<T>, behind: bool, settled: bool)
    requires ChannelOk(c, t, log, behind, settled)
    ensures ChannelOk(c.(resync := None), t.(mark := |t.history|), log, behind, settled)
  {
    assert t.history[|t.history|..] == [];
  }

  /** With a resync waiting, nothing more is promised about what the channel lost. */
  lemma Notifies<T>(c: Channel<T>, t: Track<T>, log: seq<T>, behind: bool, before: bool, after: bool, request: Resync)
    requires c.open && ChannelOk(c, t, log, behind, before)
    ensures ChannelOk(Notify(c, request), t, log, behind, after)
  {
  }

  // ---------------------------------------------------------------- the steps

  function WithChannel<T>(s: System<T>, h: nat, c: Channel<T>, t: Track<T>): System<T>
    requires h < |s.topic.channels| == |s.tracks|
  {
    s.(topic := s.topic.(channels := s.topic.channels[h := c]), tracks := s.tracks[h := t])
  }

  /** Every registered channel meets an event that the broken stream did not deliver. */
  function Missed<T>(s: System<T>, event: T): seq<Track<T>>
  {
    seq(|s.tracks|, h requires 0 <= h < |s.tracks| =>
      if h in Live(s) then Meet(s.tracks[h], event, false) else s.tracks[h])
  }

  ghost predicate Coherent<T>(s: System<T>) {
    && Valid(s.topic) && |s.tracks| == |s.topic.channels|
    && (s.sweep.Publishing? ==>
          && s.sweep.rest <= Live(s) && (s.sweep.owing.Some? ==> s.sweep.owing.value in Live(s))
          && s.log != [] && s.log[|s.log| - 1] == s.sweep.event)
    && (s.sweep.Resyncing? ==> s.sweep.rest <= Live(s))
    && (!s.sweep.Idle? ==> s.connected)
  }

  function Do<T>(s: System<T>, step: Step<T>): System<T>
    requires Coherent(s) && Enabled(s, step)
  {
    var channels := s.topic.channels;
    match step
    case Subscribe(capacity) =>
      s.(topic := Subscribed(s.topic, capacity), tracks := s.tracks + [Track(|s.log|, [], [], 0)])
    case Unsubscribe(id) =>
      UnsubscribedValid(s.topic, id);
      s.(topic := Unsubscribed(s.topic, id))
    case Close => s.(topic := Topic(s.topic.nextID, map[], true, ClosedAt(channels, Live(s))))
    case Connect(request) => s.(connected := true, sweep := Resyncing(request, Live(s)))
    case Disconnect => s.(connected := false)
    case Miss(event) => s.(log := s.log + [event], tracks := Missed(s, event))
    case Publish(event, overflow) => s.(log := s.log + [event], sweep := Publishing(event, overflow, Live(s), None))
    case Send(h) =>
      var full := Full(channels[h]);
      var c := if full then channels[h] else Enqueue(channels[h], s.sweep.event);
      WithChannel(s, h, c, Meet(s.tracks[h], s.sweep.event, !full))
        .(sweep := s.sweep.(rest := s.sweep.rest - {h}, owing := if full then Some(h) else None))
    case RequestOverflow =>
      var h := s.sweep.owing.value;
      WithChannel(s, h, Notify(channels[h], s.sweep.overflow), s.tracks[h]).(sweep := s.sweep.(owing := None))
    case SendResync(h) =>
      WithChannel(s, h, Notify(channels[h], s.sweep.request), s.tracks[h])
        .(sweep := Resyncing(s.sweep.request, s.sweep.rest - {h}))
    case Finish => s.(sweep := Idle)
    case Receive(h) =>
      var c, t := channels[h], s.tracks[h];
      WithChannel(s, h, c.(buffer := c.buffer[1..]), t.(taken := t.taken + [c.buffer[0]]))
    case TakeResync(h) =>
      WithChannel(s, h, channels[h].(resync := None), s.tracks[h].(mark := |s.tracks[h].history|))
  }

  // ---------------------------------------------------------------- the invariant

  /** The running publish has not reached the channel yet. */
  predicate Behind<T>(s: System<T>, h: nat) {
    s.sweep.Publishing? && h in s.sweep.rest
  }

  /** The stream is up and the reader does not owe the channel a resync request. */
  predicate Settled<T>(s: System<T>, h: nat) {
    && s.connected
    && !(s.sweep.Publishing? && s.sweep.owing == Some(h))
    && !(s.sweep.Resyncing? && h in s.sweep.rest)
  }

  ghost predicate HandleOk<T>(s: System<T>, h: nat)
    requires h < |s.topic.channels| == |s.tracks|
  {
    ChannelOk(s.topic.channels[h], s.tracks[h], s.log, Behind(s, h), Settled(s, h))
  }

  ghost predicate Inv<T>(s: System<T>) {
    Coherent(s) && forall h :: 0 <= h < |s.topic.channels| ==> HandleOk(s, h)
  }

  lemma LiveIsOpen<T>(s: System<T>, h: nat)
    requires Coherent(s) && h < |s.topic.channels|
    ensures s.topic.channels[h].open <==> h in Live(s)
  {
  }

  lemma ReplaceKeepsValid<T>(t: Topic<T>, h: nat, c: Channel<T>)
    requires Valid(t) && h < |t.channels| && c.open == t.channels[h].open
    ensures Valid(t.(channels := t.channels[h := c]))
  {
  }

  /** A step that touches one channel and its track keeps the invariant of all others. */
  lemma OtherHandles<T>(s: System<T>, h: nat, c: Channel<T>, t: Track<T>, sweep: Sweep<T>)
    requires Inv(s) && h < |s.topic.channels| && c.open == s.topic.channels[h].open
    requires var after := WithChannel(s, h, c, t).(sweep := sweep);
      && Coherent(after) && HandleOk(after, h)
      && forall k :: 0 <= k < |s.topic.channels| && k != h ==>
           Behind(after, k) == Behind(s, k) && (Settled(after, k) ==> Settled(s, k))
    ensures Inv(WithChannel(s, h, c, t).(sweep := sweep))
  {
    var after := WithChannel(s, h, c, t).(sweep := sweep);
    forall k | 0 <= k < |s.topic.channels| && k != h ensures HandleOk(after, k) {
      assert HandleOk(s, k);
    }
  }

  lemma SendKeeps<T>(s: System<T>, h: nat)
    requires Inv(s) && Enabled(s, Send(h)) && h < |s.topic.channels| && !Full(s.topic.channels[h])
    ensures Inv(Do(s, Send(h)))
  {
    LiveIsOpen(s, h);
    assert HandleOk(s, h);
    var c, t := s.topic.channels[h], s.tracks[h];
    Buffers(c, t, s.log, Settled(s, h));
    ReplaceKeepsValid(s.topic, h, Enqueue(c, s.sweep.event));
    OtherHandles(s, h, Enqueue(c, s.sweep.event), Meet(t, s.sweep.event, true),
                 s.sweep.(rest := s.sweep.rest - {h}, owing := None));
  }

  lemma OverflowKeeps<T>(s: System<T>, h: nat)
    requires Inv(s) && Enabled(s, Send(h)) && h < |s.topic.channels| && Full(s.topic.channels[h])
    ensures Inv(Do(s, Send(h)))
  {
    LiveIsOpen(s, h);
    assert HandleOk(s, h);
    var c, t := s.topic.channels[h], s.tracks[h];
    Loses(c, t, s.log, Settled(s, h));
    ReplaceKeepsValid(s.topic, h, c);
    OtherHandles(s, h, c, Meet(t, s.sweep.event, false), s.sweep.(rest := s.sweep.rest - {h}, owing := Some(h)));
  }

  lemma NotifyKeeps<T>(s: System<T>, h: nat, request: Resync, sweep: Sweep<T>)
    requires Inv(s) && h in Live(s)
    requires var after := WithChannel(s, h, Notify(s.topic.channels[h], request), s.tracks[h]).(sweep := sweep);
      && Behind(after, h) == Behind(s, h)
      && (forall k :: 0 <= k < |s.topic.channels| && k != h ==>
            Behind(after, k) == Behind(s, k) && (Settled(after, k) ==> Settled(s, k)))
      && (Valid(after.topic) ==> Coherent(after))
    ensures Inv(WithChannel(s, h, Notify(s.topic.channels[h], request), s.tracks[h]).(sweep := sweep))
  {
    LiveIsOpen(s, h);
    assert HandleOk(s, h);
    var c, t := s.topic.channels[h], s.tracks[h];
    var after := WithChannel(s, h, Notify(c, request), t).(sweep := sweep);
    ReplaceKeepsValid(s.topic, h, Notify(c, request));
    assert HandleOk(after, h) by { Notifies(c, t, s.log, Behind(s, h), Settled(s, h), Settled(after, h), request); }
    OtherHandles(s, h, Notify(c, request), t, sweep);
  }

  lemma ReceiveKeeps<T>(s: System<T>, h: nat)
    requires Inv(s) && Enabled(s, Receive(h))
    ensures Inv(Do(s, Receive(h)))
  {
    var c, t := s.topic.channels[h], s.tracks[h];
    assert HandleOk(s, h);
    Receives(c, t, s.log, Behind(s, h), Settled(s, h));
    ConsumerKeeps(s, h, c.(buffer := c.buffer[1..]), t.(taken := t.taken + [c.buffer[0]]));
  }

  lemma TakeResyncKeeps<T>(s: System<T>, h: nat)
    requires Inv(s) && Enabled(s, TakeResync(h))
    ensures Inv(Do(s, TakeResync(h)))
  {
    var c, t := s.topic.channels[h], s.tracks[h];
    assert HandleOk(s, h);
    TakesResync(c, t, s.log, Behind(s, h), Settled(s, h));
    ConsumerKeeps(s, h, c.(resync := None), t.(mark := |t.history|));
  }

  /** A consumer changes its own channel and track, whatever the reader's sweep is doing. */
  lemma ConsumerKeeps<T>(s: System<T>, h: nat, c: Channel<T>, t: Track<T>)
    requires Inv(s) && h < |s.topic.channels| && c.open == s.topic.channels[h].open
    requires ChannelOk(c, t, s.log, Behind(s, h), Settled(s, h))
    ensures Inv(WithChannel(s, h, c, t))
  {
    ReplaceKeepsValid(s.topic, h, c);
    var after := WithChannel(s, h, c, t);
    assert Coherent(after) && after == after.(sweep := s.sweep);
    OtherHandles(s, h, c, t, s.sweep);
  }

  lemma LogKeeps<T>(s: System<T>, step: Step<T>)
    requires Inv(s) && Enabled(s, step) && (step.Publish? || step.Miss?)
    ensures Inv(Do(s, step))
  {
    var after := Do(s, step);
    forall h | 0 <= h < |s.topic.channels| ensures HandleOk(after, h) {
      LiveIsOpen(s, h);
      assert HandleOk(s, h);
      LogGrows(s.topic.channels[h], s.tracks[h], s.log, Settled(s, h), step.event);
      if step.Miss? && h in Live(s) {
        Loses(s.topic.channels[h], s.tracks[h], s.log + [step.event], false);
      }
    }
  }

  lemma TopicKeeps<T>(s: System<T>, step: Step<T>)
    requires Inv(s) && Enabled(s, step) && (step.Subscribe? || step.Unsubscribe? || step.Close?)
    ensures Inv(Do(s, step))
  {
    var after := Do(s, step);
    if step.Subscribe? { RegisteredValid(s.topic, step.capacity); }
    if step.Unsubscribe? { UnsubscribedValid(s.topic, step.id); }
    forall h | 0 <= h < |after.topic.channels| ensures HandleOk(after, h) {
      if h < |s.topic.channels| { assert HandleOk(s, h); }
    }
  }

  lemma StreamKeeps<T>(s: System<T>, step: Step<T>)
    requires Inv(s) && Enabled(s, step) && (step.Connect? || step.Disconnect? || step.Finish?)
    ensures Inv(Do(s, step))
  {
    var after := Do(s, step);
    forall h | 0 <= h < |s.topic.channels| ensures HandleOk(after, h) {
      LiveIsOpen(s, h);
      assert HandleOk(s, h);
    }
  }

  lemma StepKeeps<T>(s: System<T>, step: Step<T>)
    requires Inv(s) && Enabled(s, step)
    ensures Inv(Do(s, step))
  {
    match step
    case Send(h) => if Full(s.topic.channels[h]) { OverflowKeeps(s, h); } else { SendKeeps(s, h); }
    case RequestOverflow => NotifyKeeps(s, s.sweep.owing.value, s.sweep.overflow, s.sweep.(owing := None));
    case SendResync(h) => NotifyKeeps(s, h, s.sweep.request, Resyncing(s.sweep.request, s.sweep.rest - {h}));
    case Receive(h) => ReceiveKeeps(s, h);
    case TakeResync(h) => TakeResyncKeeps(s, h);
    case Publish(_, _) => LogKeeps(s, step);
    case Miss(_) => LogKeeps(s, step);
    case Connect(_) => StreamKeeps(s, step);
    case Disconnect => StreamKeeps(s, step);
    case Finish => StreamKeeps(s, step);
    case _ => TopicKeeps(s, step);
  }

  /** Undisturbed, the reader's send and its resync request amount to one Offer, the topic's share of a publish. */
  lemma UndisturbedSendIsOffer<T>(s: System<T>, h: nat)
    requires Inv(s) && Enabled(s, Send(h))
    ensures h < |s.topic.channels| && s.topic.channels[h].open
    ensures var c := s.topic.channels[h]; var sent := Do(s, Send(h));
      && Full(c) ==> Coherent(sent) && Enabled(sent, RequestOverflow)
    ensures var c := s.topic.channels[h]; var sent := Do(s, Send(h));
      var met := if Full(c) then Do(sent, RequestOverflow) else sent;
      && met.topic == s.topic.(channels := s.topic.channels[h := Offer(c, s.sweep.event, s.sweep.overflow)])
      && met.sweep.Publishing? && met.sweep.owing == None && met.sweep.rest == s.sweep.rest - {h}
  {
    StepKeeps(s, Send(h));
    LiveIsOpen(s, h);
    assert s.topic.channels[h := s.topic.channels[h]] == s.topic.channels;
  }

  // ---------------------------------------------------------------- what a step does to one channel

  /** The reader's send buffers the event behind the others if there is room, and a consumer takes the oldest. */
  lemma StepOnBuffer<T>(s: System<T>, step: Step<T>, h: nat)
    requires Inv(s) && Enabled(s, step) && h < |s.topic.channels|
    ensures var c := s.topic.channels[h]; var after := Do(s, step).topic.channels;
      && |after| >= |s.topic.channels| && after[h].capacity == c.capacity
      && (step == Send(h) ==>
            after[h].buffer == if |c.buffer| < c.capacity then c.buffer + [s.sweep.event] else c.buffer)
      && (step == Receive(h) ==> after[h].buffer == c.buffer[1..] && |after[h].buffer| == |c.buffer| - 1)
      && (step != Send(h) && step != Receive(h) ==> after[h].buffer == c.buffer)
  {
    LiveIsOpen(s, h);
  }

  /** A request waits when the reader asks for it, unless one waits already; only its consumer takes it away. */
  lemma StepOnResync<T>(s: System<T>, step: Step<T>, h: nat)
    requires Inv(s) && Enabled(s, step) && h < |s.topic.channels|
    ensures var c := s.topic.channels[h]; var after := Do(s, step).topic.channels;
      && |after| >= |s.topic.channels|
      && (step == TakeResync(h) ==> after[h].resync == None)
      && (c.resync.Some? && step != TakeResync(h) ==> after[h].resync == c.resync)
      && (c.resync == None ==>
            after[h].resync == if step == SendResync(h) then Some(s.sweep.request)
                               else if step == RequestOverflow && s.sweep.owing == Some(h) then Some(s.sweep.overflow)
                               else None)
  {
    LiveIsOpen(s, h);
  }

  /** A new subscription gets a channel of its own with the asked capacity and nothing in it, whose past begins now;
      it is registered, unless the topic is closed, and no other channel is touched. */
  lemma SubscribeStarts<T>(s: System<T>, capacity: nat)
    requires Inv(s) && Enabled(s, Subscribe(capacity))
    ensures var after := Do(s, Subscribe(capacity)); var h := |s.topic.channels|;
      && after.topic.channels == s.topic.channels + [Channel(capacity, [], None, !s.topic.closed)]
      && after.tracks == s.tracks + [Track(|s.log|, [], [], 0)]
      && Live(after) == Live(s) + if s.topic.closed then {} else {h}
  {
    StepKeeps(s, Subscribe(capacity));
    var after := Do(s, Subscribe(capacity));
    if !s.topic.closed { assert after.topic.subscribers[s.topic.nextID] == |s.topic.channels|; }
    forall h ensures h in Live(after) <==> h in Live(s) || (!s.topic.closed && h == |s.topic.channels|) {
      if h in Live(s) {
        var id :| id in s.topic.subscribers && s.topic.subscribers[id] == h;
        assert after.topic.subscribers[id] == h;
      }
    }
  }

  /** A channel is closed by its own unsubscription or with the whole topic, and stays closed. */
  lemma StepOnOpen<T>(s: System<T>, step: Step<T>, h: nat)
    requires Inv(s) && Enabled(s, step) && h < |s.topic.channels|
    ensures var after := Do(s, step).topic.channels;
      && |after| >= |s.topic.channels|
      && (after[h].open <==>
            && s.topic.channels[h].open && !step.Close?
            && !(step.Unsubscribe? && step.id in s.topic.subscribers && s.topic.subscribers[step.id] == h))
  {
    LiveIsOpen(s, h);
  }

  // ---------------------------------------------------------------- whole runs

  ghost predicate Next<T>(s: System<T>, after: System<T>, step: Step<T>) {
    Coherent(s) && Enabled(s, step) && after == Do(s, step)
  }

  ghost predicate Run<T>(states: seq<System<T>>, steps: seq<Step<T>>) {
    && |states| == |steps| + 1 && states[0] == Init()
    && forall i :: 0 <= i < |steps| ==> Next(states[i], states[i + 1], steps[i])
  }

  lemma {:induction false} RunKeepsInv<T>(states: seq<System<T>>, steps: seq<Step<T>>, n: nat)
    requires Run(states, steps) && n < |states|
    ensures Inv(states[n])
  {
    if n > 0 {
      RunKeepsInv(states, steps, n - 1);
      assert Next(states[n - 1], states[n], steps[n - 1]);
      StepKeeps(states[n - 1], steps[n - 1]);
    }
  }

  /** The first request to wait is the one the consumer gets: whatever else happens, it stays until it is taken. */
  lemma {:induction false} WaitingResyncStaysUntilTaken<T>(states: seq<System<T>>, steps: seq<Step<T>>, m: nat, n: nat,
                                                           h: nat)
    requires Run(states, steps) && m <= n < |states|
    requires h < |states[m].topic.channels| && states[m].topic.channels[h].resync.Some?
    requires forall i :: m <= i < n ==> steps[i] != TakeResync(h)
    ensures h < |states[n].topic.channels| && states[n].topic.channels[h].resync == states[m].topic.channels[h].resync
  {
    if m < n {
      WaitingResyncStaysUntilTaken(states, steps, m, n - 1, h);
      RunKeepsInv(states, steps, n - 1);
      assert Next(states[n - 1], states[n], steps[n - 1]);
      StepOnResync(states[n - 1], steps[n - 1], h);
    }
  }

  /** a arises from b by leaving elements out. */
  predicate Subsequence<T(==)>(a: seq<T>, b: seq<T>) {
    if b == [] then a == []
    else
      || Subsequence(a, b[..|b| - 1])
      || (a != [] && a[|a| - 1] == b[|b| - 1] && Subsequence(a[..|a| - 1], b[..|b| - 1]))
  }

  lemma {:induction false} SubsequenceGrows<T>(a: seq<T>, b: seq<T>, x: T)
    requires Subsequence(a, b)
    ensures Subsequence(a, b + [x]) && Subsequence(a + [x], b + [x])
  {
    assert (b + [x])[..|b|] == b && (a + [x])[..|a|] == a;
  }

  lemma {:induction false} KeptIsSubsequence<T>(history: seq<Offered<T>>)
    ensures Subsequence(Kept(history), Events(history))
  {
    if history != [] {
      var shorter, last := history[..|history| - 1], history[|history| - 1];
      KeptIsSubsequence(shorter);
      SubsequenceGrows(Kept(shorter), Events(shorter), last.event);
      assert Events(history) == Events(shorter) + [last.event];
      assert Kept(history) == if last.kept then Kept(shorter) + [last.event] else Kept(shorter);
    }
  }

  lemma {:induction false} KeptTail<T>(history: seq<Offered<T>>, mark: nat)
    requires mark <= |history| && AllKept(history[mark..])
    ensures Kept(history) == Kept(history[..mark]) + Events(history)[mark..]
  {
    if mark == |history| {
      assert history[..mark] == history;
    } else {
      var shorter, last := history[..|history| - 1], history[|history| - 1];
      assert history[mark..][|history| - 1 - mark] == last;
      forall i | 0 <= i < |shorter[mark..]| ensures shorter[mark..][i].kept { assert history[mark..][i].kept; }
      KeptTail(shorter, mark);
      assert shorter[..mark] == history[..mark];
      assert Events(history)[mark..] == Events(shorter)[mark..] + [last.event];
    }
  }

  /** What a consumer received and still has buffered is, in order, part of what happened since it subscribed. */
  lemma EventsKeepTheirOrder<T>(states: seq<System<T>>, steps: seq<Step<T>>, n: nat, h: nat)
    requires Run(states, steps) && n < |states| && h < |states[n].topic.channels|
    ensures var s := states[n];
      && |s.tracks| == |s.topic.channels| && s.tracks[h].since + |s.tracks[h].history| <= |s.log|
      && Subsequence(s.tracks[h].taken + s.topic.channels[h].buffer,
                     s.log[s.tracks[h].since..s.tracks[h].since + |s.tracks[h].history|])
  {
    RunKeepsInv(states, steps, n);
    assert HandleOk(states[n], h);
    KeptIsSubsequence(states[n].tracks[h].history);
  }

  predicate EndsWith<T(==)>(a: seq<T>, b: seq<T>) {
    |b| <= |a| && a[|a| - |b|..] == b
  }

  /** No silent loss: when an open channel has no resync waiting, the stream is up and the reader is idle, everything
      that happened since its consumer last took a resync has been received or is buffered, in order. */
  lemma NoSilentLoss<T>(states: seq<System<T>>, steps: seq<Step<T>>, n: nat, h: nat)
    requires Run(states, steps) && n < |states| && h < |states[n].topic.channels|
    requires states[n].topic.channels[h].open && states[n].topic.channels[h].resync == None
    requires states[n].connected && states[n].sweep.Idle?
    ensures var s := states[n]; |s.tracks| == |s.topic.channels|
    ensures var s := states[n]; var t := s.tracks[h];
      && t.since + t.mark <= |s.log|
      && EndsWith(t.taken + s.topic.channels[h].buffer, s.log[t.since + t.mark..])
  {
    RunKeepsInv(states, steps, n);
    var s := states[n];
    var t := s.tracks[h];
    assert HandleOk(s, h);
    KeptTail(t.history, t.mark);
    assert Events(t.history)[t.mark..] == s.log[t.since + t.mark..];
    assert t.taken + s.topic.channels[h].buffer == Kept(t.history[..t.mark]) + s.log[t.since + t.mark..];
  }

  /** Even in the middle of a sweep a loss shows: the slot is full, or the reader is about to fill it. */
  lemma LossIsSignalled<T>(states: seq<System<T>>, steps: seq<Step<T>>, n: nat, h: nat)
    requires Run(states, steps) && n < |states| && h < |states[n].topic.channels| && states[n].topic.channels[h].open
    requires |states[n].tracks| == |states[n].topic.channels|
    requires states[n].tracks[h].mark <= |states[n].tracks[h].history|
    requires !AllKept(states[n].tracks[h].history[states[n].tracks[h].mark..])
    ensures var s := states[n];
      || s.topic.channels[h].resync.Some? || !s.connected
      || (s.sweep.Publishing? && s.sweep.owing == Some(h)) || (s.sweep.Resyncing? && h in s.sweep.rest)
  {
    RunKeepsInv(states, steps, n);
    assert HandleOk(states[n], h);
  }

  /** A channel is open exactly while it is registered, so none is closed twice or sent to after its close. */
  lemma OpenIffRegistered<T>(states: seq<System<T>>, steps: seq<Step<T>>, n: nat, h: nat)
    requires Run(states, steps) && n < |states| && h < |states[n].topic.channels|
    ensures states[n].topic.channels[h].open <==> h in states[n].topic.subscribers.Values
    ensures states[n].topic.closed ==> !states[n].topic.channels[h].open
  {
    RunKeepsInv(states, steps, n);
  }
}
