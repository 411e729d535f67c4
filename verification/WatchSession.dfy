/** A subscribe session: one reader and one stream process per subscription, sharing the table of
    watchers, the wait group and the result channel (pkg/subscribe/watcher.go). */
module WatchSession {

  datatype Subscribe = Subscribe(resourceType: string, namespace: string, id: string, selector: string)

  // A frame from the client, or one that does not decode.
  datatype Message = Request(stop: bool, sub: Subscribe) | Malformed

  datatype Name = Start | Stop | Data(payload: string) | Failure

  datatype Event = Event(name: Name, sub: Subscribe)

  // An event of the store's channel, which names its own type and namespace.
  datatype Change = Change(resourceType: string, namespace: string, payload: string)

  const NOBODY := Subscribe("", "", "", "")

  function Key(sub: Subscribe): string {
    sub.resourceType + "/" + sub.namespace + "/" + sub.id + "/" + sub.selector
  }

  // Opening: before `resource.start`. Streaming: relaying the events of the store's channel. Idle: the
  // store has no channel, so the stream waits for the end of the request. Returned: before the
  // deferred stop. Stopped: before the wait group is told. Gone: finished.
  datatype Pc = Opening | Streaming | Idle | Returned | Stopped | Gone

  datatype Stream = Stream(sub: Subscribe, pc: Pc, cancelled: bool)

  // Checked: the key was free, the lock is released, `add` is next. Ending: the read failed.
  // Waiting: the context is cancelled. Reporting: the wait is over. Closing: the error is sent.
  datatype Reader = Reading | Checked(sub: Subscribe) | Ending | Waiting | Reporting | Closing | Closed

  // ended: the context of the HTTP request is done, which nothing in the session can bring about.
  datatype Session = Session(
    watchers: map<string, nat>, streams: seq<Stream>, group: int, reader: Reader, sent: seq<Event>, ended: bool)

  function Fresh(): Session {
    Session(map[], [], 0, Reading, [], false)
  }

  datatype Step =
    | EndRequest
    | Receive(message: Message) | Add | ReadFails | Cancel | Wait | Report | Close
    | Begin(i: nat, relays: bool) | Fail(i: nat) | Relay(i: nat, change: Change) | RelayFailure(i: nat)
    | Return(i: nat)
    | DeferredStop(i: nat) | Done(i: nat)

  predicate OfStream(step: Step) {
    step.Begin? || step.Fail? || step.Relay? || step.RelayFailure? || step.Return? || step.DeferredStop? || step.Done?
  }

  // ----- the steps -----

  function Send(s: Session, e: Event): Session {
    s.(sent := s.sent + [e])
  }

  function At(s: Session, i: nat, pc: Pc): Session
    requires i < |s.streams|
  {
    s.(streams := s.streams[i := s.streams[i].(pc := pc)])
  }

  // A relayed event gets the ID and the selector of the subscription.
  function Relayed(change: Change, sub: Subscribe): Event {
    Event(Data(change.payload), Subscribe(change.resourceType, change.namespace, sub.id, sub.selector))
  }

  // The locked region of `stop`, for the client and for an ending stream alike.
  function StopKey(s: Session, sub: Subscribe): Session {
    if Key(sub) in s.watchers then
      var i := s.watchers[Key(sub)];
      Send(s.(watchers := s.watchers - {Key(sub)},
              streams := if i < |s.streams| then s.streams[i := s.streams[i].(cancelled := true)] else s.streams),
           Event(Stop, sub))
    else s
  }

  // The locked region of `add`.
  function AddStream(s: Session, sub: Subscribe): Session {
    s.(watchers := s.watchers[Key(sub) := |s.streams|],
       streams := s.streams + [Stream(sub, Opening, false)],
       group := s.group + 1)
  }

  predicate PcIs(s: Session, i: nat, pc: Pc) {
    i < |s.streams| && s.streams[i].pc == pc
  }

  predicate Enabled(s: Session, step: Step) {
    match step
    case EndRequest => !s.ended
    case Receive(_) => s.reader.Reading?
    case Add => s.reader.Checked?
    case ReadFails => s.reader.Reading?
    case Cancel => s.reader.Ending?
    case Wait => s.reader.Waiting? && s.group == 0
    case Report => s.reader.Reporting?
    case Close => s.reader.Closing?
    case Begin(i, _) => PcIs(s, i, Opening)
    case Fail(i) => PcIs(s, i, Opening)
    case Relay(i, _) => PcIs(s, i, Streaming)
    case RelayFailure(i) => PcIs(s, i, Streaming)
    case Return(i) => PcIs(s, i, Streaming) || (PcIs(s, i, Idle) && s.ended)
    case DeferredStop(i) => PcIs(s, i, Returned)
    case Done(i) => PcIs(s, i, Stopped)
  }

  function Next(s: Session, step: Step): Session
    requires Enabled(s, step)
  {
    match step
    case EndRequest => s.(ended := true)
    case Receive(Malformed) => Send(s, Event(Failure, NOBODY))
    case Receive(Request(stop, sub)) =>
      if stop then StopKey(s, sub) else if Key(sub) in s.watchers then s else s.(reader := Checked(sub))
    case Add => AddStream(s, s.reader.sub).(reader := Reading)
    case ReadFails => s.(reader := Ending)
    case Cancel => s.(reader := Waiting)
    case Wait => s.(reader := Reporting)
    case Report => Send(s, Event(Failure, NOBODY)).(reader := Closing)
    case Close => s.(reader := Closed)
    case Begin(i, relays) =>
      At(Send(s, Event(Start, s.streams[i].sub.(namespace := ""))), i, if relays then Streaming else Idle)
    case Fail(i) => At(Send(s, Event(Failure, s.streams[i].sub)), i, Returned)
    case Relay(i, change) => Send(s, Relayed(change, s.streams[i].sub))
    case RelayFailure(i) => Send(s, Event(Failure, s.streams[i].sub))
    case Return(i) => At(s, i, Returned)
    case DeferredStop(i) => At(StopKey(s, s.streams[i].sub), i, Stopped)
    case Done(i) => At(s.(group := s.group - 1), i, Gone)
  }

  predicate IsRun(s: Session, run: seq<Step>)
    decreases |run|
  {
    run == [] || (Enabled(s, run[0]) && IsRun(Next(s, run[0]), run[1..]))
  }

  function After(s: Session, run: seq<Step>): Session
    requires IsRun(s, run)
    decreases |run|
  {
    if run == [] then s else After(Next(s, run[0]), run[1..])
  }

  // ----- counting -----

  function Live(streams: seq<Stream>): nat {
    if streams == [] then 0
    else Live(streams[..|streams| - 1]) + if streams[|streams| - 1].pc.Gone? then 0 else 1
  }

  function Added(streams: seq<Stream>, key: string): nat {
    if streams == [] then 0
    else Added(streams[..|streams| - 1], key) + if Key(streams[|streams| - 1].sub) == key then 1 else 0
  }

  function Stops(sent: seq<Event>, key: string): nat {
    if sent == [] then 0
    else Stops(sent[..|sent| - 1], key) + if sent[|sent| - 1].name.Stop? &&
        Key(sent[|sent| - 1].sub) == key then 1 else 0
  }

  function AllStops(sent: seq<Event>): nat {
    if sent == [] then 0
    else AllStops(sent[..|sent| - 1]) + if sent[|sent| - 1].name.Stop? then 1 else 0
  }

  lemma {:induction false} CountSent(sent: seq<Event>, e: Event, key: string)
    ensures AllStops(sent + [e]) == AllStops(sent) + if e.name.Stop? then 1 else 0
    ensures Stops(sent + [e], key) == Stops(sent, key) + if e.name.Stop? && Key(e.sub) == key then 1 else 0
  {
    assert (sent + [e])[..|sent|] == sent;
  }

  lemma {:induction false} CountAdded(streams: seq<Stream>, x: Stream, key: string)
    ensures Live(streams + [x]) == Live(streams) + if x.pc.Gone? then 0 else 1
    ensures Added(streams + [x], key) == Added(streams, key) + if Key(x.sub) == key then 1 else 0
  {
    assert (streams + [x])[..|streams|] == streams;
  }

  lemma {:induction false} CountUpdated(streams: seq<Stream>, i: nat, x: Stream, key: string)
    requires i < |streams| && x.sub == streams[i].sub
    ensures Added(streams[i := x], key) == Added(streams, key)
    ensures Live(streams[i := x]) + (if streams[i].pc.Gone? then 0 else 1)
            == Live(streams) + if x.pc.Gone? then 0 else 1
  {
    var n := |streams| - 1;
    if i == n {
      assert streams[i := x][..n] == streams[..n];
    } else {
      assert streams[i := x][..n] == streams[..n][i := x];
      CountUpdated(streams[..n], i, x, key);
    }
  }

  lemma {:induction false} NoneLive(streams: seq<Stream>, i: nat)
    requires Live(streams) == 0 && i < |streams|
    ensures streams[i].pc.Gone?
  {
    if i < |streams| - 1 {
      NoneLive(streams[..|streams| - 1], i);
    }
  }

  lemma {:induction false} SomeLive(streams: seq<Stream>) returns (i: nat)
    requires Live(streams) > 0
    ensures i < |streams| && !streams[i].pc.Gone?
  {
    i := |streams| - 1;
    if streams[i].pc.Gone? {
      i := SomeLive(streams[..i]);
    }
  }

  // ----- the invariant -----

  // The table holds, under each key, the one stream whose cancel has not been called.
  predicate Tabled(watchers: map<string, nat>, streams: seq<Stream>) {
    && (forall key :: key in watchers ==> Names(streams, watchers[key], key))
    && (forall i :: 0 <= i < |streams| && !streams[i].cancelled ==>
          Key(streams[i].sub) in watchers && watchers[Key(streams[i].sub)] == i)
  }

  predicate Names(streams: seq<Stream>, i: nat, key: string) {
    i < |streams| && !streams[i].cancelled && Key(streams[i].sub) == key
  }

  predicate StoppedAreCancelled(streams: seq<Stream>) {
    forall i :: 0 <= i < |streams| && (streams[i].pc.Stopped? || streams[i].pc.Gone?) ==> streams[i].cancelled
  }

  // Per key: every stream was stopped by one event, except the one in the table.
  ghost predicate BalancedAt(watchers: map<string, nat>, streams: seq<Stream>, sent: seq<Event>, key: string) {
    Added(streams, key) == Stops(sent, key) + if key in watchers then 1 else 0
  }

  ghost predicate Balanced(watchers: map<string, nat>, streams: seq<Stream>, sent: seq<Event>) {
    forall key :: BalancedAt(watchers, streams, sent, key)
  }

  predicate Finishing(s: Session) {
    s.reader.Reporting? || s.reader.Closing? || s.reader.Closed?
  }

  ghost predicate Inv(s: Session) {
    && Tabled(s.watchers, s.streams) && StoppedAreCancelled(s.streams) && Balanced(s.watchers, s.streams, s.sent)
    && |s.streams| == AllStops(s.sent) + |s.watchers|
    && s.group == Live(s.streams)
    && (s.reader.Checked? ==> Key(s.reader.sub) !in s.watchers)
    && (Finishing(s) ==> Live(s.streams) == 0)
  }

  lemma {:induction false} FreshInv()
    ensures Inv(Fresh())
  {
  }

  lemma {:induction false} SendKeeps(s: Session, e: Event)
    requires Inv(s) && !e.name.Stop?
    ensures Inv(Send(s, e))
  {
    var t := Send(s, e);
    forall key ensures BalancedAt(t.watchers, t.streams, t.sent, key) {
      assert BalancedAt(s.watchers, s.streams, s.sent, key);
      CountSent(s.sent, e, key);
    }
    CountSent(s.sent, e, "");
  }

  lemma {:induction false} StopBalances(s: Session, sub: Subscribe, key: string)
    requires Tabled(s.watchers, s.streams) && BalancedAt(s.watchers, s.streams, s.sent, key) && Key(sub) in s.watchers
    ensures BalancedAt(StopKey(s, sub).watchers, StopKey(s, sub).streams, StopKey(s, sub).sent, key)
    ensures Live(StopKey(s, sub).streams) == Live(s.streams)
    ensures AllStops(StopKey(s, sub).sent) == AllStops(s.sent) + 1
  {
    var i := s.watchers[Key(sub)];
    CountUpdated(s.streams, i, s.streams[i].(cancelled := true), key);
    CountSent(s.sent, Event(Stop, sub), key);
  }

  lemma {:induction false} StopTables(s: Session, sub: Subscribe)
    requires Tabled(s.watchers, s.streams) && Key(sub) in s.watchers
    ensures Tabled(StopKey(s, sub).watchers, StopKey(s, sub).streams)
    ensures |StopKey(s, sub).watchers| == |s.watchers| - 1
  {
    assert StopKey(s, sub).watchers.Keys == s.watchers.Keys - {Key(sub)};
  }

  lemma {:induction false} StopKeeps(s: Session, sub: Subscribe)
    requires Inv(s)
    ensures Inv(StopKey(s, sub)) && Key(sub) !in StopKey(s, sub).watchers
  {
    if Key(sub) in s.watchers {
      StopTables(s, sub);
      var t := StopKey(s, sub);
      forall key ensures BalancedAt(t.watchers, t.streams, t.sent, key) {
        assert BalancedAt(s.watchers, s.streams, s.sent, key);
        StopBalances(s, sub, key);
      }
      assert BalancedAt(s.watchers, s.streams, s.sent, "");
      StopBalances(s, sub, "");
    }
  }

  lemma {:induction false} AddTables(watchers: map<string, nat>, streams: seq<Stream>, x: Stream)
    requires Tabled(watchers, streams) && Key(x.sub) !in watchers && !x.cancelled
    ensures Tabled(watchers[Key(x.sub) := |streams|], streams + [x])
    ensures |watchers[Key(x.sub) := |streams|]| == |watchers| + 1
  {
    var now := watchers[Key(x.sub) := |streams|];
    assert now.Keys == watchers.Keys + {Key(x.sub)};
    forall key | key in now ensures Names(streams + [x], now[key], key) {
      assert key in watchers ==> Names(streams, watchers[key], key);
    }
  }

  lemma {:induction false} AddKeeps(s: Session, sub: Subscribe, t: Session)
    requires Inv(s) && s.reader == Checked(sub) && t == AddStream(s, sub).(reader := Reading)
    ensures Inv(t)
  {
    var x := Stream(sub, Opening, false);
    AddTables(s.watchers, s.streams, x);
    AddBalances(s.watchers, s.streams, s.sent, x);
    CountAdded(s.streams, x, "");
    assert t.watchers == s.watchers[Key(sub) := |s.streams|] && t.streams == s.streams + [x] && t.sent == s.sent;
  }

  lemma {:induction false} AddBalances(watchers: map<string, nat>, streams: seq<Stream>, sent: seq<Event>, x: Stream)
    requires Balanced(watchers, streams, sent) && Key(x.sub) !in watchers
    ensures Balanced(watchers[Key(x.sub) := |streams|], streams + [x], sent)
  {
    var now := watchers[Key(x.sub) := |streams|];
    forall key ensures BalancedAt(now, streams + [x], sent, key) {
      assert BalancedAt(watchers, streams, sent, key);
      CountAdded(streams, x, key);
    }
  }

  lemma {:induction false} AtTables(watchers: map<string, nat>, streams: seq<Stream>, i: nat, x: Stream)
    requires Tabled(watchers, streams) && i < |streams| && x.sub == streams[i].sub &&
             x.cancelled == streams[i].cancelled
    ensures Tabled(watchers, streams[i := x])
  {
    forall key | key in watchers ensures Names(streams[i := x], watchers[key], key) {
      assert Names(streams, watchers[key], key);
    }
  }

  lemma {:induction false} AtKeeps(s: Session, i: nat, pc: Pc, group: int)
    requires Inv(s) && i < |s.streams| && !s.streams[i].pc.Gone?
    requires group == s.group - if pc.Gone? then 1 else 0
    requires pc.Stopped? || pc.Gone? ==> s.streams[i].cancelled
    ensures Inv(At(s, i, pc).(group := group))
  {
    var x := s.streams[i].(pc := pc);
    var t := At(s, i, pc).(group := group);
    forall key ensures BalancedAt(t.watchers, t.streams, t.sent, key) {
      assert BalancedAt(s.watchers, s.streams, s.sent, key);
      CountUpdated(s.streams, i, x, key);
    }
    CountUpdated(s.streams, i, x, "");
    AtTables(s.watchers, s.streams, i, x);
    if Finishing(s) {
      NoneLive(s.streams, i);
    }
  }

  lemma {:induction false} SendAtKeeps(s: Session, i: nat, e: Event, pc: Pc)
    requires Inv(s) && i < |s.streams| && !s.streams[i].pc.Gone? && !e.name.Stop? &&
             (pc.Streaming? || pc.Idle? || pc.Returned?)
    ensures Inv(At(Send(s, e), i, pc))
  {
    SendKeeps(s, e);
    AtKeeps(Send(s, e), i, pc, s.group);
  }

  lemma {:induction false} StopCancels(s: Session, i: nat)
    requires Tabled(s.watchers, s.streams) && i < |s.streams|
    ensures |StopKey(s, s.streams[i].sub).streams| == |s.streams|
    ensures StopKey(s, s.streams[i].sub).streams[i] == s.streams[i].(cancelled := true)
    ensures StopKey(s, s.streams[i].sub).group == s.group
  {
    if Key(s.streams[i].sub) in s.watchers {
      assert Names(s.streams, s.watchers[Key(s.streams[i].sub)], Key(s.streams[i].sub));
    }
  }

  lemma {:induction false} DeferredStopKeeps(s: Session, i: nat, t: Session, next: Session)
    requires Inv(s) && PcIs(s, i, Returned)
    requires t == StopKey(s, s.streams[i].sub) && i < |t.streams| && next == At(t, i, Stopped)
    ensures Inv(next)
  {
    assert Inv(t) && i < |t.streams| && t.streams[i].pc.Returned? && t.streams[i].cancelled by {
      StopKeeps(s, s.streams[i].sub);
      StopCancels(s, i);
    }
    AtKeeps(t, i, Stopped, t.group);
  }

  lemma {:induction false} StreamStepKeepsInv(s: Session, step: Step)
    requires Inv(s) && Enabled(s, step) && OfStream(step)
    ensures Inv(Next(s, step))
  {
    var sub := s.streams[step.i].sub;
    match step
    case Begin(i, relays) => SendAtKeeps(s, i, Event(Start, sub.(namespace := "")), if relays then Streaming else Idle);
    case Fail(i) => SendAtKeeps(s, i, Event(Failure, sub), Returned);
    case Relay(i, change) => SendKeeps(s, Relayed(change, sub));
    case RelayFailure(i) => SendKeeps(s, Event(Failure, sub));
    case Return(i) => AtKeeps(s, i, Returned, s.group);
    case DeferredStop(i) =>
      StopCancels(s, i);
      DeferredStopKeeps(s, i, StopKey(s, sub), Next(s, step));
    case Done(i) => AtKeeps(s, i, Gone, s.group - 1);
  }

  lemma {:induction false} StepKeepsInv(s: Session, step: Step)
    requires Inv(s) && Enabled(s, step)
    ensures Inv(Next(s, step))
  {
    if OfStream(step) {
      StreamStepKeepsInv(s, step);
    } else if step.Receive? && step.message.Request? && step.message.stop {
      StopKeeps(s, step.message.sub);
    } else if (step.Receive? && step.message.Malformed?) || step.Report? {
      SendKeeps(s, Event(Failure, NOBODY));
    } else if step.Add? {
      AddKeeps(s, s.reader.sub, Next(s, step));
    }
  }

  lemma {:induction false} RunKeepsInv(s: Session, run: seq<Step>)
    requires Inv(s) && IsRun(s, run)
    ensures Inv(After(s, run))
    decreases |run|
  {
    if run != [] {
      StepKeepsInv(s, run[0]);
      RunKeepsInv(Next(s, run[0]), run[1..]);
    }
  }

  // ----- what every session keeps -----

  ghost predicate Reachable(s: Session) {
    exists run :: IsRun(Fresh(), run) && After(Fresh(), run) == s
  }

  lemma {:induction false} ReachableInv(s: Session)
    requires Reachable(s)
    ensures Inv(s)
  {
    var run :| IsRun(Fresh(), run) && After(Fresh(), run) == s;
    FreshInv();
    RunKeepsInv(Fresh(), run);
  }

  /** Two streams of one key are never both uncancelled, and the table names the uncancelled one. */
  lemma {:induction false} OneStreamPerKey(s: Session, i: nat, j: nat)
    requires Reachable(s) && i < |s.streams| && j < |s.streams|
    requires Key(s.streams[i].sub) == Key(s.streams[j].sub) && !s.streams[i].cancelled
    ensures Key(s.streams[i].sub) in s.watchers && s.watchers[Key(s.streams[i].sub)] == i
    ensures !s.streams[j].cancelled ==> i == j
  {
    ReachableInv(s);
  }

  /** For each key, the streams added are the stop events sent, plus the one in the table; likewise in total. */
  lemma {:induction false} StopsMatchAdds(s: Session, key: string)
    requires Reachable(s)
    ensures Added(s.streams, key) == Stops(s.sent, key) + if key in s.watchers then 1 else 0
    ensures |s.streams| == AllStops(s.sent) + |s.watchers|
  {
    ReachableInv(s);
    assert BalancedAt(s.watchers, s.streams, s.sent, key);
  }

  /** From the end of the wait on, all streams are finished, the table is empty and every stream has
      been stopped by an event. */
  lemma {:induction false} EndsClean(s: Session, key: string)
    requires Reachable(s) && Finishing(s)
    ensures forall i :: 0 <= i < |s.streams| ==> s.streams[i].pc.Gone? && s.streams[i].cancelled
    ensures s.watchers == map[] && s.group == 0
    ensures Added(s.streams, key) == Stops(s.sent, key) && |s.streams| == AllStops(s.sent)
  {
    ReachableInv(s);
    assert BalancedAt(s.watchers, s.streams, s.sent, key);
    forall i | 0 <= i < |s.streams| ensures s.streams[i].pc.Gone? {
      NoneLive(s.streams, i);
    }
  }

  /** The channel is closed once, after the last send: nothing can happen in a closed session but the
      end of the request, which sends nothing. */
  lemma {:induction false} NothingAfterClose(s: Session, step: Step)
    requires Reachable(s) && s.reader.Closed? && Enabled(s, step)
    ensures step.EndRequest? && Next(s, step) == s.(ended := true)
  {
    EndsClean(s, "");
  }

  // ----- when a session can end -----

  // The steps that a stream needs to finish.
  function Remaining(pc: Pc): nat {
    match pc case Opening => 4 case Streaming => 3 case Idle => 3 case Returned => 2 case Stopped => 1 case Gone => 0
  }

  function StreamWork(streams: seq<Stream>): nat {
    if streams == [] then 0 else StreamWork(streams[..|streams| - 1]) + Remaining(streams[|streams| - 1].pc)
  }

  function Work(s: Session): nat {
    StreamWork(s.streams) +
    match s.reader
    case Checked(_) => 10 case Reading => 5 case Ending => 4 case Waiting => 3 case Reporting => 2 case Closing => 1
        case Closed => 0
  }

  lemma {:induction false} WorkAdded(streams: seq<Stream>, x: Stream)
    ensures StreamWork(streams + [x]) == StreamWork(streams) + Remaining(x.pc)
  {
    assert (streams + [x])[..|streams|] == streams;
  }

  lemma {:induction false} WorkUpdated(streams: seq<Stream>, i: nat, x: Stream)
    requires i < |streams|
    ensures StreamWork(streams[i := x]) + Remaining(streams[i].pc) == StreamWork(streams) + Remaining(x.pc)
  {
    var n := |streams| - 1;
    if i == n {
      assert streams[i := x][..n] == streams[..n];
    } else {
      assert streams[i := x][..n] == streams[..n][i := x];
      WorkUpdated(streams[..n], i, x);
    }
  }

  lemma {:induction false} StopWorks(s: Session, sub: Subscribe)
    requires Tabled(s.watchers, s.streams)
    ensures StreamWork(StopKey(s, sub).streams) == StreamWork(s.streams) && |StopKey(s, sub).streams| == |s.streams|
    ensures forall i :: 0 <= i < |s.streams| ==> StopKey(s, sub).streams[i].pc == s.streams[i].pc
  {
    if Key(sub) in s.watchers {
      var j := s.watchers[Key(sub)];
      WorkUpdated(s.streams, j, s.streams[j].(cancelled := true));
    }
  }

  lemma {:induction false} DeferredStopWorks(s: Session, i: nat)
    requires Tabled(s.watchers, s.streams) && PcIs(s, i, Returned)
    ensures StreamWork(Next(s, DeferredStop(i)).streams) < StreamWork(s.streams)
  {
    StopWorks(s, s.streams[i].sub);
    var t := StopKey(s, s.streams[i].sub);
    WorkUpdated(t.streams, i, t.streams[i].(pc := Stopped));
  }

  predicate NoneIdle(streams: seq<Stream>) {
    forall i :: 0 <= i < |streams| ==> !streams[i].pc.Idle?
  }

  // No live stream waits for a request that goes on.
  predicate FreeToEnd(s: Session) {
    s.ended || NoneIdle(s.streams)
  }

  // The next step of a stream that does not have to wait.
  function Onward(x: Stream, i: nat): Step {
    match x.pc
    case Opening => Begin(i, true)
    case Streaming => Return(i)
    case Idle => Return(i)
    case Returned => DeferredStop(i)
    case Stopped => Done(i)
    case Gone => Done(i)
  }

  lemma {:induction false} OnwardWorks(s: Session, i: nat)
    requires Tabled(s.watchers, s.streams) && i < |s.streams| && !s.streams[i].pc.Gone? && FreeToEnd(s)
    ensures Enabled(s, Onward(s.streams[i], i))
    ensures StreamWork(Next(s, Onward(s.streams[i], i)).streams) < StreamWork(s.streams)
  {
    if s.streams[i].pc.Returned? {
      DeferredStopWorks(s, i);
    } else {
      MovesOn(s, i);
    }
  }

  lemma {:induction false} MovesOn(s: Session, i: nat)
    requires i < |s.streams| && !s.streams[i].pc.Gone? && !s.streams[i].pc.Returned? && FreeToEnd(s)
    ensures Enabled(s, Onward(s.streams[i], i))
    ensures StreamWork(Next(s, Onward(s.streams[i], i)).streams) < StreamWork(s.streams)
  {
    var x := s.streams[i];
    var pc := if x.pc.Opening? then Streaming else if x.pc.Stopped? then Gone else Returned;
    WorkUpdated(s.streams, i, x.(pc := pc));
    assert Next(s, Onward(x, i)).streams == s.streams[i := x.(pc := pc)];
  }

  lemma {:induction false} OnwardStaysFree(s: Session, i: nat)
    requires Tabled(s.watchers, s.streams) && i < |s.streams| && !s.streams[i].pc.Gone? && FreeToEnd(s)
    requires Enabled(s, Onward(s.streams[i], i))
    ensures FreeToEnd(Next(s, Onward(s.streams[i], i))) && Next(s, Onward(s.streams[i], i)).reader == s.reader
  {
    if s.streams[i].pc.Returned? {
      StopStaysFree(s, s.streams[i].sub);
    }
  }

  lemma {:induction false} StopStaysFree(s: Session, sub: Subscribe)
    requires Tabled(s.watchers, s.streams) && FreeToEnd(s)
    ensures FreeToEnd(StopKey(s, sub)) && |StopKey(s, sub).streams| == |s.streams| && StopKey(s, sub).reader == s.reader
  {
    StopWorks(s, sub);
  }

  // The next step of the reader, where it does not wait.
  function ReaderStep(s: Session): Step {
    match s.reader
    case Reading => ReadFails
    case Checked(_) => Add
    case Ending => Cancel
    case Waiting => Wait
    case Reporting => Report
    case Closing => Close
    case Closed => Close
  }

  lemma {:induction false} ReaderWorks(s: Session)
    requires !s.reader.Closed? && FreeToEnd(s) && (s.reader.Waiting? ==> s.group == 0)
    ensures Enabled(s, ReaderStep(s)) && FreeToEnd(Next(s, ReaderStep(s))) && Work(Next(s, ReaderStep(s))) < Work(s)
  {
    if s.reader.Checked? {
      WorkAdded(s.streams, Stream(s.reader.sub, Opening, false));
    }
  }

  /** A session in which no stream waits for the request always has a step towards its end, and keeps
      the freedom to take it. */
  lemma {:induction false} NeverStuck(s: Session) returns (step: Step)
    requires Inv(s) && !s.reader.Closed? && FreeToEnd(s)
    ensures Enabled(s, step) && step != EndRequest
    ensures FreeToEnd(Next(s, step)) && Work(Next(s, step)) < Work(s)
  {
    if s.reader.Waiting? && s.group != 0 {
      var i := SomeLive(s.streams);
      step := Onward(s.streams[i], i);
      OnwardWorks(s, i);
      OnwardStaysFree(s, i);
    } else {
      step := ReaderStep(s);
      ReaderWorks(s);
    }
  }

  lemma {:induction false} RunConcat(s: Session, step: Step, run: seq<Step>)
    requires Enabled(s, step) && IsRun(Next(s, step), run)
    ensures IsRun(s, [step] + run) && After(s, [step] + run) == After(Next(s, step), run)
  {
    assert ([step] + run)[1..] == run;
  }

  // The request goes on during the run.
  predicate RequestGoesOn(run: seq<Step>) {
    forall k :: 0 <= k < |run| ==> run[k] != EndRequest
  }

  lemma {:induction false} CanClose(s: Session) returns (run: seq<Step>)
    requires Inv(s) && FreeToEnd(s)
    ensures IsRun(s, run) && RequestGoesOn(run) && After(s, run).reader.Closed?
    decreases Work(s)
  {
    if s.reader.Closed? {
      run := [];
    } else {
      var step := NeverStuck(s);
      StepKeepsInv(s, step);
      var rest := CanClose(Next(s, step));
      RunConcat(s, step, rest);
      run := [step] + rest;
    }
  }

  lemma {:induction false} StepLeavesIdle(s: Session, step: Step, i: nat)
    requires Enabled(s, step) && step != EndRequest && !s.ended && PcIs(s, i, Idle)
    ensures PcIs(Next(s, step), i, Idle) && !Next(s, step).ended
  {
  }

  // A stream without a channel outlives every run in which the request goes on.
  lemma {:induction false} IdleStays(s: Session, run: seq<Step>, i: nat)
    requires IsRun(s, run) && RequestGoesOn(run) && !s.ended && PcIs(s, i, Idle)
    ensures PcIs(After(s, run), i, Idle)
    decreases |run|
  {
    if run != [] {
      StepLeavesIdle(s, run[0], i);
      assert RequestGoesOn(run[1..]);
      IdleStays(Next(s, run[0]), run[1..], i);
    }
  }

  ghost predicate CanReachClosed(s: Session) {
    exists run :: IsRun(s, run) && RequestGoesOn(run) && After(s, run).reader.Closed?
  }

  /** While the request goes on, a session can be brought to its end if and only if no live stream was
      left without a channel. Once the request has ended it always can. */
  lemma {:induction false} ClosesExactly(s: Session)
    requires Reachable(s)
    ensures CanReachClosed(s) <==> s.ended || NoneIdle(s.streams)
  {
    ReachableInv(s);
    if FreeToEnd(s) {
      var run := CanClose(s);
    } else {
      var i: nat :| i < |s.streams| && s.streams[i].pc.Idle?;
      forall run | IsRun(s, run) && RequestGoesOn(run) ensures !After(s, run).reader.Closed? {
        IdleStays(s, run, i);
        RunKeepsInv(s, run);
        if After(s, run).reader.Closed? {
          NoneLive(After(s, run).streams, i);
        }
      }
    }
  }

  predicate OnlyIdleLive(streams: seq<Stream>) {
    forall i :: 0 <= i < |streams| ==> streams[i].pc.Idle? || streams[i].pc.Gone?
  }

  // Nothing but the end of the request can happen.
  ghost predicate Stuck(s: Session) {
    !s.reader.Closed? && forall step :: Enabled(s, step) ==> step == EndRequest
  }

  lemma {:induction false} SomeIdle(streams: seq<Stream>)
    requires OnlyIdleLive(streams)
    ensures Live(streams) == 0 <==> NoneIdle(streams)
  {
    if streams != [] {
      SomeIdle(streams[..|streams| - 1]);
      assert streams == streams[..|streams| - 1] + [streams[|streams| - 1]];
    }
  }

  /** An open session is stuck if and only if its reader waits for streams that all lack a channel,
      and the request goes on. */
  lemma {:induction false} StuckExactly(s: Session)
    requires Reachable(s)
    ensures Stuck(s) <==> s.reader.Waiting? && !s.ended && OnlyIdleLive(s.streams) && !NoneIdle(s.streams)
  {
    ReachableInv(s);
    if Stuck(s) {
      if FreeToEnd(s) {
        var step := NeverStuck(s);
      }
      assert Enabled(s, ReaderStep(s)) || s.reader.Waiting?;
      forall i | 0 <= i < |s.streams| ensures s.streams[i].pc.Idle? || s.streams[i].pc.Gone? {
        assert !Enabled(s, Onward(s.streams[i], i));
      }
    } else if s.reader.Waiting? && !s.ended && OnlyIdleLive(s.streams) && !NoneIdle(s.streams) {
      SomeIdle(s.streams);
      WaitsForIdle(s);
    }
  }

  lemma {:induction false} WaitsForIdle(s: Session)
    requires s.reader.Waiting? && !s.ended && OnlyIdleLive(s.streams) && s.group != 0
    ensures Stuck(s)
  {
  }

  // Subscribe to a type whose store has no channel; then the connection breaks.
  function BreaksWhileIdle(sub: Subscribe): seq<Step> {
    [Receive(Request(false, sub)), Add, Begin(0, false), ReadFails, Cancel]
  }

  lemma {:induction false} BreaksFrom(sub: Subscribe, s: Session)
    requires s.reader == Checked(sub) && s.watchers == map[] && s.streams == [] && s.group == 0 && !s.ended
    ensures IsRun(s, [Add, Begin(0, false), ReadFails, Cancel])
    ensures Stuck(After(s, [Add, Begin(0, false), ReadFails, Cancel]))
  {
    var s1 := Next(s, Add);
    var s2 := Next(s1, Begin(0, false));
    var s3 := Next(s2, ReadFails);
    var s4 := Next(s3, Cancel);
    assert s4.streams == [Stream(sub, Idle, false)];
    WaitsForIdle(s4);
    RunConcat(s3, Cancel, []);
    RunConcat(s2, ReadFails, [Cancel]);
    RunConcat(s1, Begin(0, false), [ReadFails, Cancel]);
    RunConcat(s, Add, [Begin(0, false), ReadFails, Cancel]);
  }

  /** Such a session hangs until the request ends. */
  lemma {:induction false} IdleHangs(sub: Subscribe)
    ensures IsRun(Fresh(), BreaksWhileIdle(sub)) && Stuck(After(Fresh(), BreaksWhileIdle(sub)))
  {
    var asked := Receive(Request(false, sub));
    BreaksFrom(sub, Next(Fresh(), asked));
    RunConcat(Fresh(), asked, [Add, Begin(0, false), ReadFails, Cancel]);
  }

  // ----- the deferred stop -----

  // The stop of one stream cancels another one.
  predicate KillsAnother(s: Session, i: nat, j: nat) {
    && PcIs(s, i, Returned) && j < |s.streams| && i != j
    && !s.streams[j].cancelled && Next(s, DeferredStop(i)).streams[j].cancelled
  }

  /** A stream's own deferred stop cancels a different stream exactly when the client had already
      stopped it and subscribed to the key again. */
  lemma {:induction false} WhenItKillsAnother(s: Session, i: nat)
    requires Reachable(s) && PcIs(s, i, Returned)
    ensures (exists j: nat :: KillsAnother(s, i, j)) <==> s.streams[i].cancelled && Key(s.streams[i].sub) in s.watchers
  {
    ReachableInv(s);
    if s.streams[i].cancelled && Key(s.streams[i].sub) in s.watchers {
      assert KillsAnother(s, i, s.watchers[Key(s.streams[i].sub)]);
    }
  }

  // Subscribe and stop; subscribe again; then the first stream ends.
  function OnAndOff(sub: Subscribe): seq<Step> {
    [Receive(Request(false, sub)), Add, Begin(0, true), Receive(Request(true, sub))]
  }

  function Again(sub: Subscribe): seq<Step> {
    [Receive(Request(false, sub)), Add, Begin(1, true), Return(0), DeferredStop(0)]
  }

  lemma {:induction false} RunAppend(s: Session, first: seq<Step>, second: seq<Step>)
    requires IsRun(s, first) && IsRun(After(s, first), second)
    ensures IsRun(s, first + second) && After(s, first + second) == After(After(s, first), second)
    decreases |first|
  {
    if first == [] {
      assert first + second == second;
    } else {
      assert (first + second)[1..] == first[1..] + second;
      RunAppend(Next(s, first[0]), first[1..], second);
    }
  }

  lemma {:induction false} SubscribedAndStopped(sub: Subscribe)
    ensures IsRun(Fresh(), OnAndOff(sub))
    ensures After(Fresh(), OnAndOff(sub)).watchers == map[] && After(Fresh(), OnAndOff(sub)).reader == Reading
    ensures After(Fresh(), OnAndOff(sub)).streams == [Stream(sub, Streaming, true)]
  {
    var run := OnAndOff(sub);
    var s1 := Next(Fresh(), run[0]);
    var s2 := Next(s1, Add);
    var s3 := Next(s2, Begin(0, true));
    assert s3.watchers == map[Key(sub) := 0] && s3.streams == [Stream(sub, Streaming, false)];
    var s4 := Next(s3, run[3]);
    RunConcat(s3, run[3], []);
    RunConcat(s2, Begin(0, true), [run[3]]);
    RunConcat(s1, Add, [Begin(0, true), run[3]]);
    RunConcat(Fresh(), run[0], [Add, Begin(0, true), run[3]]);
  }

  lemma {:induction false} SubscribedAgain(sub: Subscribe, s: Session)
    requires s.watchers == map[] && s.reader == Reading && s.streams == [Stream(sub, Streaming, true)]
    ensures IsRun(s, Again(sub)) && After(s, Again(sub)).watchers == map[]
    ensures After(s, Again(sub)).streams == [Stream(sub, Stopped, true), Stream(sub, Streaming, true)]
  {
    var asked := Receive(Request(false, sub));
    var s1 := Next(s, asked);
    var s2 := Next(s1, Add);
    assert s2.streams == [Stream(sub, Streaming, true), Stream(sub, Opening, false)] &&
        s2.watchers == map[Key(sub) := 1];
    FirstEnds(sub, s2);
    RunConcat(s1, Add, [Begin(1, true), Return(0), DeferredStop(0)]);
    RunConcat(s, asked, [Add, Begin(1, true), Return(0), DeferredStop(0)]);
  }

  lemma {:induction false} FirstEnds(sub: Subscribe, s: Session)
    requires s.watchers == map[Key(sub) := 1]
    requires s.streams == [Stream(sub, Streaming, true), Stream(sub, Opening, false)]
    ensures IsRun(s, [Begin(1, true), Return(0), DeferredStop(0)])
    ensures After(s, [Begin(1, true), Return(0), DeferredStop(0)]).watchers == map[]
    ensures After(s, [Begin(1, true), Return(0), DeferredStop(0)]).streams ==
            [Stream(sub, Stopped, true), Stream(sub, Streaming, true)]
  {
    var s1 := Next(s, Begin(1, true));
    assert s1.streams == [Stream(sub, Streaming, true), Stream(sub, Streaming, false)];
    FirstStops(sub, s1);
    RunConcat(s, Begin(1, true), [Return(0), DeferredStop(0)]);
  }

  lemma {:induction false} FirstStops(sub: Subscribe, s: Session)
    requires s.watchers == map[Key(sub) := 1]
    requires s.streams == [Stream(sub, Streaming, true), Stream(sub, Streaming, false)]
    ensures IsRun(s, [Return(0), DeferredStop(0)])
    ensures After(s, [Return(0), DeferredStop(0)]).watchers == map[]
    ensures After(s, [Return(0), DeferredStop(0)]).streams == [Stream(sub, Stopped, true), Stream(sub, Streaming, true)]
  {
    var s1 := Next(s, Return(0));
    assert s1.streams == [Stream(sub, Returned, true), Stream(sub, Streaming, false)];
    RunConcat(s1, DeferredStop(0), []);
    RunConcat(s, Return(0), [DeferredStop(0)]);
  }

  /** The second subscription is stopped although the client never asked for that. */
  lemma {:induction false} ResubscriptionIsKilled(sub: Subscribe)
    ensures IsRun(Fresh(), OnAndOff(sub) + Again(sub))
    ensures After(Fresh(), OnAndOff(sub) + Again(sub)).streams ==
            [Stream(sub, Stopped, true), Stream(sub, Streaming, true)]
    ensures After(Fresh(), OnAndOff(sub) + Again(sub)).watchers == map[]
  {
    SubscribedAndStopped(sub);
    SubscribedAgain(sub, After(Fresh(), OnAndOff(sub)));
    RunAppend(Fresh(), OnAndOff(sub), Again(sub));
  }

  // ----- the order of a subscription's events -----

  // Subscribe and stop before the stream begins.
  function StopsFirst(sub: Subscribe): seq<Step> {
    [Receive(Request(false, sub)), Add] + [Receive(Request(true, sub)), Begin(0, true)]
  }

  /** The client can get the stop of a subscription before its start. */
  lemma {:induction false} StopCanComeFirst(sub: Subscribe)
    ensures IsRun(Fresh(), StopsFirst(sub))
    ensures After(Fresh(), StopsFirst(sub)).sent == [Event(Stop, sub), Event(Start, sub.(namespace := ""))]
  {
    var ask, stop := Receive(Request(false, sub)), Receive(Request(true, sub));
    var s1 := Next(Fresh(), ask);
    var s2 := Next(s1, Add);
    assert s2.watchers == map[Key(sub) := 0] && s2.streams == [Stream(sub, Opening, false)] && s2.sent == [];
    var s3 := Next(s2, stop);
    assert s3.sent == [Event(Stop, sub)] && s3.streams == [Stream(sub, Opening, true)];
    RunConcat(s3, Begin(0, true), []);
    RunConcat(s2, stop, [Begin(0, true)]);
    RunConcat(s1, Add, [stop, Begin(0, true)]);
    RunConcat(Fresh(), ask, [Add, stop, Begin(0, true)]);
    assert StopsFirst(sub) == [ask] + [Add, stop, Begin(0, true)];
  }

  // ----- what the client is told -----

  // The data events for an ID and a selector.
  function DataFor(sent: seq<Event>, id: string, selector: string): seq<Change> {
    if sent == [] then []
    else
      var e := sent[|sent| - 1];
      DataFor(sent[..|sent| - 1], id, selector) +
      if e.name.Data? && e.sub.id == id && e.sub.selector == selector
      then [Change(e.sub.resourceType, e.sub.namespace, e.name.payload)] else []
  }

  function Starts(sent: seq<Event>, sub: Subscribe): nat {
    if sent == [] then 0
    else Starts(sent[..|sent| - 1], sub) + if sent[|sent| - 1] == Event(Start, sub) then 1 else 0
  }

  function Failures(sent: seq<Event>, sub: Subscribe): nat {
    if sent == [] then 0
    else Failures(sent[..|sent| - 1], sub) + if sent[|sent| - 1] == Event(Failure, sub) then 1 else 0
  }

  lemma {:induction false} ToldOneMore(sent: seq<Event>, e: Event, id: string, selector: string, sub: Subscribe)
    ensures DataFor(sent + [e], id, selector) == DataFor(sent, id, selector) +
            if e.name.Data? && e.sub.id == id && e.sub.selector == selector
            then [Change(e.sub.resourceType, e.sub.namespace, e.name.payload)] else []
    ensures Starts(sent + [e], sub) == Starts(sent, sub) + if e == Event(Start, sub) then 1 else 0
    ensures Failures(sent + [e], sub) == Failures(sent, sub) + if e == Event(Failure, sub) then 1 else 0
  {
    assert (sent + [e])[..|sent|] == sent;
  }

  function GivenBy(step: Step, streams: seq<Stream>, id: string, selector: string): seq<Change> {
    match step
    case Relay(i, change) =>
      if i < |streams| && streams[i].sub.id == id && streams[i].sub.selector == selector then [change] else []
    case _ => []
  }

  // What the stores' channels gave to the streams with this ID and selector, in the order of the run.
  function Given(run: seq<Step>, streams: seq<Stream>, id: string, selector: string): seq<Change> {
    if run == [] then [] else GivenBy(run[0], streams, id, selector) + Given(run[1..], streams, id, selector)
  }

  // A start does not tell the namespace.
  predicate Begins(step: Step, streams: seq<Stream>, sub: Subscribe) {
    step.Begin? && step.i < |streams| &&
    sub == Subscribe(streams[step.i].sub.resourceType, "", streams[step.i].sub.id, streams[step.i].sub.selector)
  }

  function Begun(run: seq<Step>, streams: seq<Stream>, sub: Subscribe): nat {
    if run == [] then 0 else (if Begins(run[0], streams, sub) then 1 else 0) + Begun(run[1..], streams, sub)
  }

  // The failures of the reader name nobody.
  predicate Fails(step: Step, streams: seq<Stream>, sub: Subscribe) {
    match step
    case Fail(i) => i < |streams| && streams[i].sub == sub
    case RelayFailure(i) => i < |streams| && streams[i].sub == sub
    case Receive(Malformed) => sub == Subscribe("", "", "", "")
    case Report => sub == Subscribe("", "", "", "")
    case _ => false
  }

  function Failed(run: seq<Step>, streams: seq<Stream>, sub: Subscribe): nat {
    if run == [] then 0 else (if Fails(run[0], streams, sub) then 1 else 0) + Failed(run[1..], streams, sub)
  }

  // Streams stay, in their places and with their subscriptions.
  predicate Continues(before: seq<Stream>, now: seq<Stream>) {
    |before| <= |now| && forall i :: 0 <= i < |before| ==> now[i].sub == before[i].sub
  }

  lemma {:induction false} RunContinues(s: Session, run: seq<Step>)
    requires IsRun(s, run)
    ensures Continues(s.streams, After(s, run).streams)
    decreases |run|
  {
    if run != [] {
      assert Continues(s.streams, Next(s, run[0]).streams);
      RunContinues(Next(s, run[0]), run[1..]);
    }
  }

  // The one event that a step may send.
  predicate IsTold(step: Step, streams: seq<Stream>, told: seq<Event>) {
    match step
    case Begin(i, _) => i < |streams| && told == [Event(Start, streams[i].sub.(namespace := ""))]
    case Relay(i, change) => i < |streams| && told == [Relayed(change, streams[i].sub)]
    case Fail(i) => i < |streams| && told == [Event(Failure, streams[i].sub)]
    case RelayFailure(i) => i < |streams| && told == [Event(Failure, streams[i].sub)]
    case Receive(Malformed) => told == [Event(Failure, NOBODY)]
    case Report => told == [Event(Failure, NOBODY)]
    case _ => told == [] || (|told| == 1 && told[0].name.Stop?)
  }

  lemma {:induction false} StopTold(s: Session, sub: Subscribe) returns (told: seq<Event>)
    ensures told == [] || (|told| == 1 && told[0].name.Stop?)
    ensures StopKey(s, sub).sent == s.sent + told
  {
    told := if Key(sub) in s.watchers then [Event(Stop, sub)] else [];
  }

  lemma {:induction false} StreamTold(s: Session, step: Step) returns (told: seq<Event>)
    requires Enabled(s, step) && OfStream(step)
    ensures Next(s, step).sent == s.sent + told && IsTold(step, s.streams, told)
  {
    told := [];
    match step
    case Begin(i, _) => told := [Event(Start, s.streams[i].sub.(namespace := ""))];
    case Relay(i, change) => told := [Relayed(change, s.streams[i].sub)];
    case Fail(i) => told := [Event(Failure, s.streams[i].sub)];
    case RelayFailure(i) => told := [Event(Failure, s.streams[i].sub)];
    case DeferredStop(i) => told := StopTold(s, s.streams[i].sub);
    case _ =>
  }

  lemma {:induction false} StepTold(s: Session, step: Step) returns (told: seq<Event>)
    requires Enabled(s, step)
    ensures Next(s, step).sent == s.sent + told && IsTold(step, s.streams, told)
  {
    if OfStream(step) {
      told := StreamTold(s, step);
    } else if step.Receive? && step.message.Request? && step.message.stop {
      told := StopTold(s, step.message.sub);
    } else {
      told := if (step.Receive? && step.message.Malformed?) || step.Report? then [Event(Failure, NOBODY)] else [];
    }
  }

  lemma {:induction false} OneTold(e: Event, id: string, selector: string, sub: Subscribe)
    ensures DataFor([e], id, selector) ==
            if e.name.Data? && e.sub.id == id && e.sub.selector == selector
            then [Change(e.sub.resourceType, e.sub.namespace, e.name.payload)] else []
    ensures Starts([e], sub) == if e == Event(Start, sub) then 1 else 0
    ensures Failures([e], sub) == if e == Event(Failure, sub) then 1 else 0
  {
    ToldOneMore([], e, id, selector, sub);
    assert [] + [e] == [e];
  }

  lemma {:induction false} Tells(step: Step, streams: seq<Stream>, told: seq<Event>, id: string, selector: string,
        sub: Subscribe)
    requires IsTold(step, streams, told)
    ensures DataFor(told, id, selector) == GivenBy(step, streams, id, selector)
    ensures Starts(told, sub) == if Begins(step, streams, sub) then 1 else 0
    ensures Failures(told, sub) == if Fails(step, streams, sub) then 1 else 0
  {
    if told != [] {
      OneTold(told[0], id, selector, sub);
      assert told == [told[0]];
    }
  }

  lemma {:induction false} ToldMore(sent: seq<Event>, told: seq<Event>, id: string, selector: string, sub: Subscribe)
    requires |told| <= 1
    ensures DataFor(sent + told, id, selector) == DataFor(sent, id, selector) + DataFor(told, id, selector)
    ensures Starts(sent + told, sub) == Starts(sent, sub) + Starts(told, sub)
    ensures Failures(sent + told, sub) == Failures(sent, sub) + Failures(told, sub)
  {
    if told == [] {
      assert sent + told == sent;
    } else {
      ToldOneMore(sent, told[0], id, selector, sub);
      ToldOneMore([], told[0], id, selector, sub);
      assert sent + told == sent + [told[0]] && told == [] + [told[0]];
    }
  }

  // What was told in one step is what the step gives.
  ghost predicate ToldInStep(sent: seq<Event>, step: Step, streams: seq<Stream>, now: seq<Event>, id: string,
        selector: string, sub: Subscribe) {
    && DataFor(now, id, selector) == DataFor(sent, id, selector) + GivenBy(step, streams, id, selector)
    && Starts(now, sub) == Starts(sent, sub) + (if Begins(step, streams, sub) then 1 else 0)
    && Failures(now, sub) == Failures(sent, sub) + (if Fails(step, streams, sub) then 1 else 0)
  }

  lemma {:induction false} StepTells(s: Session, step: Step, id: string, selector: string, sub: Subscribe)
    requires Enabled(s, step)
    ensures ToldInStep(s.sent, step, s.streams, Next(s, step).sent, id, selector, sub)
  {
    var told := StepTold(s, step);
    Tells(step, s.streams, told, id, selector, sub);
    ToldMore(s.sent, told, id, selector, sub);
  }

  // A step speaks of a stream that is there before it, and which keeps its subscription.
  lemma {:induction false} SaysTheSame(s: Session, step: Step, now: seq<Stream>, sent: seq<Event>, id: string,
        selector: string, sub: Subscribe)
    requires Enabled(s, step) && Continues(s.streams, now)
    requires ToldInStep(s.sent, step, s.streams, sent, id, selector, sub)
    ensures ToldInStep(s.sent, step, now, sent, id, selector, sub)
  {
  }

  // What was told between two sessions is what the steps of the run give.
  ghost predicate Told(sent: seq<Event>, run: seq<Step>, now: Session, id: string, selector: string, sub: Subscribe) {
    && DataFor(now.sent, id, selector) == DataFor(sent, id, selector) + Given(run, now.streams, id, selector)
    && Starts(now.sent, sub) == Starts(sent, sub) + Begun(run, now.streams, sub)
    && Failures(now.sent, sub) == Failures(sent, sub) + Failed(run, now.streams, sub)
  }

  lemma {:induction false} ToldBefore(sent: seq<Event>, next: seq<Event>, now: Session, run: seq<Step>, id: string,
        selector: string, sub: Subscribe)
    requires run != [] && ToldInStep(sent, run[0], now.streams, next, id, selector, sub)
    requires Told(next, run[1..], now, id, selector, sub)
    ensures Told(sent, run, now, id, selector, sub)
  {
    var one, rest := GivenBy(run[0], now.streams, id, selector), Given(run[1..], now.streams, id, selector);
    assert (DataFor(sent, id, selector) + one) + rest == DataFor(sent, id, selector) + (one + rest);
  }

  lemma {:induction false} RunTells(s: Session, run: seq<Step>, id: string, selector: string, sub: Subscribe)
    requires IsRun(s, run)
    ensures Told(s.sent, run, After(s, run), id, selector, sub)
    decreases |run|
  {
    if run != [] {
      var next, now := Next(s, run[0]), After(s, run);
      StepTells(s, run[0], id, selector, sub);
      RunContinues(s, run);
      SaysTheSame(s, run[0], now.streams, next.sent, id, selector, sub);
      RunTells(next, run[1..], id, selector, sub);
      ToldBefore(s.sent, next.sent, now, run, id, selector, sub);
    }
  }

  /** Over every run the client gets exactly the events that the stores give to the streams of a
      subscription, in their order, a start for each stream that began and an error for each failure. */
  lemma {:induction false} ClientIsTold(run: seq<Step>, id: string, selector: string, sub: Subscribe)
    requires IsRun(Fresh(), run)
    ensures var s := After(Fresh(), run);
            && DataFor(s.sent, id, selector) == Given(run, s.streams, id, selector)
            && Starts(s.sent, sub) == Begun(run, s.streams, sub)
            && Failures(s.sent, sub) == Failed(run, s.streams, sub)
  {
    RunTells(Fresh(), run, id, selector, sub);
  }

  // ----- keys -----

  predicate NoSlash(s: string) {
    '/' !in s
  }

  // The first slash comes right after a part that holds none.
  lemma {:induction false} SlashFirst(a: string, x: string)
    requires NoSlash(a)
    ensures forall i :: 0 <= i <= |a| ==> ((a + "/" + x)[i] == '/' <==> i == |a|)
  {
  }

  lemma {:induction false} CutAtSlash(a: string, x: string, b: string, y: string)
    requires NoSlash(a) && NoSlash(b) && a + "/" + x == b + "/" + y
    ensures a == b && x == y
  {
    SlashFirst(a, x);
    SlashFirst(b, y);
    var whole := a + "/" + x;
    assert whole[|a|] == '/' && whole[|b|] == '/';
    assert (a + "/" + x)[..|a|] == a && (b + "/" + y)[..|b|] == b;
    assert (a + "/" + x)[|a| + 1..] == x && (b + "/" + y)[|b| + 1..] == y;
  }

  /** Two subscriptions have one key only if they are the same, as long as types, namespaces and IDs hold
      no slash; a selector may. */
  lemma {:induction false} KeysDiffer(a: Subscribe, b: Subscribe)
    requires NoSlash(a.resourceType) && NoSlash(a.namespace) && NoSlash(a.id)
    requires NoSlash(b.resourceType) && NoSlash(b.namespace) && NoSlash(b.id)
    ensures Key(a) == Key(b) <==> a == b
  {
    if Key(a) == Key(b) {
      var a3, b3 := a.id + "/" + a.selector, b.id + "/" + b.selector;
      var a2, b2 := a.namespace + "/" + a3, b.namespace + "/" + b3;
      assert Key(a) == a.resourceType + "/" + a2 && Key(b) == b.resourceType + "/" + b2;
      CutAtSlash(a.resourceType, a2, b.resourceType, b2);
      CutAtSlash(a.namespace, a3, b.namespace, b3);
      CutAtSlash(a.id, a.selector, b.id, b.selector);
    }
  }

  /** An ID of namespace and name shares its key with an ID and a selector that are cut elsewhere. */
  lemma {:induction false} KeysCollide()
    ensures Key(Subscribe("pods", "", "n/x", "y")) == Key(Subscribe("pods", "", "n", "x/y"))
  {
    var key := "pods" + "/" + "" + "/";
    assert key + "n/x" + "/" + "y" == key + "n" + "/" + "x/y";
  }

  // ----- the session of watcher.go, with its fields -----

  class WatchSession {
    var watchers: map<string, nat>
    var streams: seq<Stream>
    var group: int
    var reader: Reader
    var sent: seq<Event>
    var ended: bool

    function Now(): Session
      reads this
    {
      Session(watchers, streams, group, reader, sent, ended)
    }

    constructor ()
      ensures Now() == Fresh()
    {
      watchers, streams, group, reader, sent, ended := map[], [], 0, Reading, [], false;
    }

    method SendEvent(e: Event)
      modifies this
      ensures Now() == Send(old(Now()), e)
    {
      sent := sent + [e];
    }

    method Goto(i: nat, pc: Pc)
      requires i < |streams|
      modifies this
      ensures Now() == At(old(Now()), i, pc)
    {
      streams := streams[i := streams[i].(pc := pc)];
    }

    method StopSub(sub: Subscribe)
      modifies this
      ensures Now() == StopKey(old(Now()), sub)
    {
      if Key(sub) in watchers {
        var i := watchers[Key(sub)];
        if i < |streams| {
          streams := streams[i := streams[i].(cancelled := true)];
        }
        SendEvent(Event(Stop, sub));
      }
      watchers := watchers - {Key(sub)};
    }

    method AddSub(sub: Subscribe)
      modifies this
      ensures Now() == AddStream(old(Now()), sub)
    {
      watchers := watchers[Key(sub) := |streams|];
      group := group + 1;
      streams := streams + [Stream(sub, Opening, false)];
    }

    // One turn of the read loop, up to the release of the lock.
    method Read(message: Message)
      requires reader.Reading?
      modifies this
      ensures Now() == Next(old(Now()), Receive(message))
    {
      match message {
        case Malformed => SendEvent(Event(Failure, NOBODY));
        case Request(stop, sub) =>
          if stop {
            StopSub(sub);
          } else if Key(sub) !in watchers {
            reader := Checked(sub);
          }
      }
    }

    // The end of the read loop: the error, the deferred cancel and wait, the report and the close.
    method Leave(step: Step)
      requires !OfStream(step) && !step.Receive? && !step.EndRequest? && Enabled(Now(), step)
      modifies this
      ensures Now() == Next(old(Now()), step)
    {
      match reader {
        case Reading => reader := Ending;
        case Checked(sub) =>
          AddSub(sub);
          reader := Reading;
        case Ending => reader := Waiting;
        case Waiting => reader := Reporting;
        case Reporting =>
          SendEvent(Event(Failure, NOBODY));
          reader := Closing;
        case Closing => reader := Closed;
      }
    }

    method StreamStep(step: Step)
      requires OfStream(step) && Enabled(Now(), step)
      modifies this
      ensures Now() == Next(old(Now()), step)
    {
      var i := step.i;
      var sub := streams[i].sub;
      match step {
        case Begin(_, relays) =>
          SendEvent(Event(Start, sub.(namespace := "")));
          Goto(i, if relays then Streaming else Idle);
        case Fail(_) =>
          SendEvent(Event(Failure, sub));
          Goto(i, Returned);
        case Relay(_, change) =>
          var from := sub.(resourceType := change.resourceType, namespace := change.namespace);
          SendEvent(Event(Data(change.payload), from));
        case RelayFailure(_) => SendEvent(Event(Failure, sub));
        case Return(_) => Goto(i, Returned);
        case DeferredStop(_) =>
          StopSub(sub);
          Goto(i, Stopped);
        case Done(_) =>
          group := group - 1;
          Goto(i, Gone);
      }
    }

    /** Any interleaving of messages and streams, from a new session on: an event of the schedule that
        cannot happen is passed over, and the session keeps its invariant throughout. */
    method Run(schedule: seq<Step>) returns (ghost taken: seq<Step>)
      requires Inv(Now())
      modifies this
      ensures IsRun(old(Now()), taken) && Now() == After(old(Now()), taken) && Inv(Now())
    {
      ghost var start := Now();
      taken := [];
      for k := 0 to |schedule|
        invariant IsRun(start, taken) && Now() == After(start, taken) && Inv(Now())
      {
        var step := schedule[k];
        if Enabled(Now(), step) {
          StepKeepsInv(Now(), step);
          RunConcat(Now(), step, []);
          RunAppend(start, taken, [step]);
          taken := taken + [step];
          if step.Receive? {
            Read(step.message);
          } else if OfStream(step) {
            StreamStep(step);
          } else if step.EndRequest? {
            ended := true;
          } else {
            Leave(step);
          }
        }
      }
    }
  }
}
