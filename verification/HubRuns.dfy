/** The WebSocket hub and its write pumps as a state machine
    (internal/delivery/websocket/hub.go, internal/delivery/websocket/client.go).
    The mutex makes registration, broadcast and shutdown exclude each other; between
    any two channel operations of the hub every pump may run. */
module HubRuns {
  import opened Wrappers

  type Message = string

  /** Identifies a connection. */
  type Cid = int

  const SEND_BUFFER_SIZE: nat := 256

  /** The `send` channel of a client. */
  datatype Chan = Chan(buffer: seq<Message>, closed: bool)

  /** A send that does not block; a full buffer closes the channel instead. */
  function Offer(ch: Chan, m: Message): Chan {
    if |ch.buffer| < SEND_BUFFER_SIZE then ch.(buffer := ch.buffer + [m]) else ch.(closed := true)
  }

  /** Where the write pump of a client is; a batch is what the open frame holds. */
  datatype Pump =
    | Waiting
    | Writing(batch: seq<Message>)
    | Draining(batch: seq<Message>, left: nat)
    | Ended(clean: bool)

  /** `frames` are the complete frames written. `put`, `taken`, `joined` and `gone`
      record history and are never read by a step: what was sent to the channel, what
      was received from it, and how many broadcasts there had been when the client
      was registered and removed. */
  datatype Link = Link(
    send: Chan, pump: Pump, frames: seq<seq<Message>>,
    put: seq<Message>, taken: seq<Message>, joined: nat, gone: Option<nat>)

  /** Who holds the mutex. */
  datatype Lock = Free | Broadcasting(index: nat, msg: Message, todo: set<Cid>) | Stopping

  datatype HubState = HubState(clients: set<Cid>, all: map<Cid, Link>, lock: Lock, said: seq<Message>)

  predicate Init(h: HubState) {
    h.clients == {} && h.all == map[] && h.lock == Free && h.said == []
  }

  datatype Step =
    // the event loop and `Stop`
    | Register(c: Cid)
    | Unregister(c: Cid)
    | Broadcast(msg: Message)
    | OfferTo(c: Cid)
    | EndBroadcast
    | Stop
    | StopOne(c: Cid)
    | EndStop
    // the write pump
    | Receive(c: Cid, ok: bool)
    | Measure(c: Cid)
    | Drain(c: Cid, ok: bool)
    | DrainFails(c: Cid)
    | Flush(c: Cid, ok: bool)
    | SeeClose(c: Cid)
    | Ping(c: Cid, ok: bool)

  predicate Enabled(h: HubState, step: Step) {
    match step
    case Register(c) => h.lock.Free? && c !in h.all
    case Unregister(c) => h.lock.Free? && c in h.all
    case Broadcast(_) => h.lock.Free?
    case OfferTo(c) => h.lock.Broadcasting? && c in h.lock.todo && c in h.all
    case EndBroadcast => h.lock.Broadcasting? && h.lock.todo == {}
    case Stop => h.lock.Free?
    case StopOne(c) => h.lock.Stopping? && c in h.clients && c in h.all
    case EndStop => h.lock.Stopping? && h.clients == {}
    case Receive(c, _) => c in h.all && h.all[c].pump.Waiting? && h.all[c].send.buffer != []
    case Measure(c) => c in h.all && h.all[c].pump.Writing?
    case Drain(c, _) =>
      c in h.all && h.all[c].pump.Draining? && h.all[c].pump.left > 0 && h.all[c].send.buffer != []
    case DrainFails(c) => c in h.all && h.all[c].pump.Draining? && h.all[c].pump.left > 0
    case Flush(c, _) => c in h.all && h.all[c].pump.Draining? && h.all[c].pump.left == 0
    case SeeClose(c) =>
      c in h.all && h.all[c].pump.Waiting? && h.all[c].send.buffer == [] && h.all[c].send.closed
    case Ping(c, _) => c in h.all && h.all[c].pump.Waiting?
  }

  /** Sending on a closed channel and closing one twice panic. */
  predicate Panics(h: HubState, step: Step)
    requires Enabled(h, step)
  {
    match step
    case Unregister(c) => c in h.clients && h.all[c].send.closed
    case OfferTo(c) => h.all[c].send.closed
    case StopOne(c) => h.all[c].send.closed
    case _ => false
  }

  function NewLink(joined: nat): Link {
    Link(Chan([], false), Waiting, [], [], [], joined, None)
  }

  function Closed(cl: Link, gone: nat): Link {
    cl.(send := cl.send.(closed := true), gone := Some(gone))
  }

  /** One client's part in a broadcast. */
  function Offered(cl: Link, m: Message, index: nat): Link {
    var send := Offer(cl.send, m);
    if |cl.send.buffer| < SEND_BUFFER_SIZE then cl.(send := send, put := cl.put + [m])
    else cl.(send := send, gone := Some(index))
  }

  /** The pump takes the oldest message. */
  function Taken(cl: Link): Link
    requires cl.send.buffer != []
  {
    cl.(send := cl.send.(buffer := cl.send.buffer[1..]), taken := cl.taken + [cl.send.buffer[0]])
  }

  /** What a pump step makes of its client. */
  function PumpStep(cl: Link, step: Step): Link
    requires step.Receive? ==> cl.pump.Waiting? && cl.send.buffer != []
    requires step.Measure? ==> cl.pump.Writing?
    requires step.Drain? ==> cl.pump.Draining? && cl.pump.left > 0 && cl.send.buffer != []
    requires step.Flush? ==> cl.pump.Draining?
  {
    match step
    case Receive(_, ok) => Taken(cl).(pump := if ok then Writing([cl.send.buffer[0]]) else Ended(false))
    case Measure(_) => cl.(pump := Draining(cl.pump.batch, |cl.send.buffer|))
    case Drain(_, ok) =>
      Taken(cl).(pump := if ok then Draining(cl.pump.batch + [cl.send.buffer[0]], cl.pump.left - 1)
                         else Ended(false))
    case DrainFails(_) => cl.(pump := Ended(false))
    case Flush(_, ok) =>
      if ok then cl.(pump := Waiting, frames := cl.frames + [cl.pump.batch]) else cl.(pump := Ended(false))
    case SeeClose(_) => cl.(pump := Ended(true))
    case Ping(_, ok) => if ok then cl else cl.(pump := Ended(false))
    case _ => cl
  }

  predicate ByPump(step: Step) {
    step.Receive? || step.Measure? || step.Drain? || step.DrainFails? || step.Flush? || step.SeeClose? || step.Ping?
  }

  function Apply(h: HubState, step: Step): HubState
    requires Enabled(h, step)
  {
    match step
    case Register(c) => h.(clients := h.clients + {c}, all := h.all[c := NewLink(|h.said|)])
    case Unregister(c) =>
      if c in h.clients then h.(clients := h.clients - {c}, all := h.all[c := Closed(h.all[c], |h.said|)]) else h
    case Broadcast(m) => h.(lock := Broadcasting(|h.said|, m, h.clients), said := h.said + [m])
    case OfferTo(c) =>
      var cl := h.all[c];
      var h' := h.(lock := h.lock.(todo := h.lock.todo - {c}),
                   all := h.all[c := Offered(cl, h.lock.msg, h.lock.index)]);
      if |cl.send.buffer| < SEND_BUFFER_SIZE then h' else h'.(clients := h.clients - {c})
    case EndBroadcast => h.(lock := Free)
    case Stop => h.(lock := Stopping)
    case StopOne(c) => h.(clients := h.clients - {c}, all := h.all[c := Closed(h.all[c], |h.said|)])
    case EndStop => h.(lock := Free)
    case _ => h.(all := h.all[step.c := PumpStep(h.all[step.c], step)])
  }

  ghost predicate ValidRun(h: HubState, steps: seq<Step>)
    decreases |steps|
  {
    steps == [] || (Enabled(h, steps[0]) && ValidRun(Apply(h, steps[0]), steps[1..]))
  }

  ghost function After(h: HubState, steps: seq<Step>): HubState
    requires ValidRun(h, steps)
    decreases |steps|
  {
    if steps == [] then h else After(Apply(h, steps[0]), steps[1..])
  }

  // ------------------------------------------------------------ invariant

  /** The messages of all complete frames, in order. */
  function Concat(frames: seq<seq<Message>>): seq<Message> {
    if frames == [] then [] else Concat(frames[..|frames| - 1]) + frames[|frames| - 1]
  }

  function Batch(p: Pump): seq<Message> {
    if p.Writing? || p.Draining? then p.batch else []
  }

  /** The number of broadcasts when the client was removed, or so far; one that is
      under way counts only once it has been offered to the client. */
  function Until(h: HubState, c: Cid): nat
    requires c in h.all
  {
    if h.all[c].gone.Some? then h.all[c].gone.value
    else if h.lock.Broadcasting? && c in h.lock.todo then h.lock.index
    else |h.said|
  }

  /** The channel: open while registered, bounded, and fed by a contiguous run of
      the broadcasts. */
  predicate SendOk(h: HubState, c: Cid)
    requires c in h.all
  {
    var cl := h.all[c];
    && (c in h.clients <==> !cl.send.closed) && (cl.send.closed <==> cl.gone.Some?)
    && |cl.send.buffer| <= SEND_BUFFER_SIZE
    && cl.joined <= Until(h, c) <= |h.said| && cl.put == h.said[cl.joined..Until(h, c)]
  }

  /** The pump: nothing is lost or reordered between channel and frames, and a drain
      finds what it counted. */
  predicate PumpOk(cl: Link) {
    && cl.put == cl.taken + cl.send.buffer
    && (forall i :: 0 <= i < |cl.frames| ==> cl.frames[i] != [])
    && (cl.pump.Writing? || cl.pump.Draining? ==> cl.pump.batch != [])
    && (cl.pump.Draining? ==> cl.pump.left <= |cl.send.buffer|)
    && (if cl.pump.Ended? && !cl.pump.clean then Concat(cl.frames) <= cl.taken
        else Concat(cl.frames) + Batch(cl.pump) == cl.taken)
    && (cl.pump.Ended? && cl.pump.clean ==> cl.send.closed && cl.send.buffer == [])
  }

  predicate LockOk(h: HubState) {
    h.lock.Broadcasting? ==>
      h.lock.todo <= h.clients && |h.said| == h.lock.index + 1 && h.said[h.lock.index] == h.lock.msg
  }

  ghost predicate ClientOk(h: HubState, c: Cid)
    requires c in h.all
  {
    SendOk(h, c) && PumpOk(h.all[c])
  }

  ghost predicate Inv(h: HubState) {
    && h.clients <= h.all.Keys && LockOk(h)
    && forall c {:trigger ClientOk(h, c)} :: c in h.all ==> ClientOk(h, c)
  }

  lemma TakenOk(cl: Link)
    requires PumpOk(cl) && !cl.pump.Ended? && cl.send.buffer != []
    ensures Taken(cl).put == Taken(cl).taken + Taken(cl).send.buffer
    ensures Concat(cl.frames) + (Batch(cl.pump) + [cl.send.buffer[0]]) == Taken(cl).taken
    ensures Concat(cl.frames) <= Taken(cl).taken
  {
    assert [cl.send.buffer[0]] + cl.send.buffer[1..] == cl.send.buffer;
    assert Taken(cl).taken + Taken(cl).send.buffer == cl.taken + cl.send.buffer;
  }

  /** The pump of one client never touches the hub's side of it. */
  lemma PumpStepOk(cl: Link, step: Step)
    requires PumpOk(cl) && ByPump(step)
    requires step.Receive? ==> cl.pump.Waiting? && cl.send.buffer != []
    requires step.Measure? ==> cl.pump.Writing?
    requires step.Drain? ==> cl.pump.Draining? && cl.pump.left > 0 && cl.send.buffer != []
    requires step.DrainFails? ==> cl.pump.Draining?
    requires step.Flush? ==> cl.pump.Draining? && cl.pump.left == 0
    requires step.SeeClose? ==> cl.pump.Waiting? && cl.send.buffer == [] && cl.send.closed
    requires step.Ping? ==> cl.pump.Waiting?
    ensures PumpOk(PumpStep(cl, step))
    ensures var cl' := PumpStep(cl, step);
      && cl'.send.closed == cl.send.closed && cl'.gone == cl.gone && cl'.joined == cl.joined
      && cl'.put == cl.put && |cl'.send.buffer| <= |cl.send.buffer|
  {
    if step.Receive? || step.Drain? {
      TakenOk(cl);
      assert step.Receive? ==> Batch(cl.pump) + [cl.send.buffer[0]] == [cl.send.buffer[0]];
    } else if step.Flush? {
    } else if step.SeeClose? || step.Ping? {
      assert Concat(cl.frames) + [] == Concat(cl.frames);
    }
  }

  lemma PumpKeepsInvariant(h: HubState, step: Step)
    requires Inv(h) && Enabled(h, step) && ByPump(step)
    ensures Inv(Apply(h, step))
  {
    var h' := Apply(h, step);
    forall c | c in h'.all ensures ClientOk(h', c) {
      assert ClientOk(h, c);
      if c == step.c { PumpStepOk(h.all[c], step); }
      assert Until(h', c) == Until(h, c);
    }
  }

  lemma OfferKeepsInvariant(h: HubState, c: Cid)
    requires Inv(h) && Enabled(h, OfferTo(c))
    ensures Inv(Apply(h, OfferTo(c)))
  {
    var h' := Apply(h, OfferTo(c));
    forall d | d in h'.all ensures ClientOk(h', d) {
      assert ClientOk(h, d);
    }
  }

  lemma HubKeepsInvariant(h: HubState, step: Step)
    requires Inv(h) && Enabled(h, step) && !ByPump(step) && !step.OfferTo?
    ensures Inv(Apply(h, step))
  {
    var h' := Apply(h, step);
    forall c | c in h'.all ensures ClientOk(h', c) {
      if c in h.all {
        assert ClientOk(h, c);
        if step.Broadcast? {
          assert c in h.clients ==> Until(h', c) == |h.said|;
          assert h'.said[h.all[c].joined..Until(h, c)] == h.said[h.all[c].joined..Until(h, c)];
        }
      }
    }
  }

  lemma StepKeepsInvariant(h: HubState, step: Step)
    requires Inv(h) && Enabled(h, step)
    ensures Inv(Apply(h, step))
  {
    if ByPump(step) {
      PumpKeepsInvariant(h, step);
    } else if step.OfferTo? {
      OfferKeepsInvariant(h, step.c);
    } else {
      HubKeepsInvariant(h, step);
    }
  }

  lemma {:induction false} RunKeepsInvariant(h: HubState, steps: seq<Step>)
    requires Inv(h) && ValidRun(h, steps)
    ensures Inv(After(h, steps))
    decreases |steps|
  {
    if steps != [] {
      StepKeepsInvariant(h, steps[0]);
      RunKeepsInvariant(Apply(h, steps[0]), steps[1..]);
    }
  }

  ghost predicate Reachable(h: HubState) {
    exists h0, steps :: Init(h0) && ValidRun(h0, steps) && After(h0, steps) == h
  }

  lemma ReachableInvariant(h: HubState)
    requires Reachable(h)
    ensures Inv(h)
  {
    var h0, steps :| Init(h0) && ValidRun(h0, steps) && After(h0, steps) == h;
    RunKeepsInvariant(h0, steps);
  }

  /** Nothing is sent to a removed client any more, and it stays removed. */
  lemma {:induction false} RemovalIsFinal(h: HubState, steps: seq<Step>, c: Cid)
    requires Inv(h) && ValidRun(h, steps) && c in h.all && h.all[c].gone.Some?
    ensures c in After(h, steps).all
    ensures var cl, cl' := h.all[c], After(h, steps).all[c];
      cl'.gone == cl.gone && cl'.put == cl.put && cl'.send.closed && |cl'.send.buffer| <= |cl.send.buffer|
    decreases |steps|
  {
    assert ClientOk(h, c);
    if steps != [] {
      StepKeepsInvariant(h, steps[0]);
      if ByPump(steps[0]) && steps[0].c == c { PumpStepOk(h.all[c], steps[0]); }
      RemovalIsFinal(Apply(h, steps[0]), steps[1..], c);
    }
  }

  // ------------------------------------------------------------- theorems

  /** No reachable hub sends on a closed channel or closes a channel twice. */
  lemma NeverPanics(h: HubState, step: Step)
    requires Reachable(h) && Enabled(h, step)
    ensures !Panics(h, step)
  {
    ReachableInvariant(h);
    if step.Unregister? || step.OfferTo? || step.StopOne? { assert ClientOk(h, step.c); }
  }

  /** What was sent to a client is exactly the run of broadcasts from its registration
      to its removal, without the one that found its buffer full; at most 256 of them
      are waiting, and its channel is closed exactly once it is removed. */
  lemma ChannelCarriesItsRun(h: HubState, c: Cid)
    requires Reachable(h) && c in h.all
    ensures var cl := h.all[c];
      && cl.joined <= Until(h, c) <= |h.said| && cl.put == h.said[cl.joined..Until(h, c)]
      && |cl.send.buffer| <= 256
      && (cl.send.closed <==> c !in h.clients)
  {
    ReachableInvariant(h);
    assert ClientOk(h, c);
  }

  // ------------------------------------------- the steps one by one

  /** Nothing but one client's link has changed. */
  ghost predicate OnlyLink(h: HubState, h': HubState, c: Cid) {
    && h'.clients == h.clients && h'.lock == h.lock && h'.said == h.said && h'.all.Keys == h.all.Keys
    && forall d :: d in h.all && d != c ==> h'.all[d] == h.all[d]
  }

  /** The pump's receive, the count of what waits behind the message, and the drain. */
  lemma PumpReads(h: HubState, step: Step)
    requires Enabled(h, step) && (step.Receive? || step.Measure? || step.Drain?)
    ensures var h', cl := Apply(h, step), h.all[step.c];
      && OnlyLink(h, h', step.c) && step.c in h'.all
      && match step
         case Measure(c) => h'.all[c] == cl.(pump := Draining(cl.pump.batch, |cl.send.buffer|))
         case Receive(c, ok) =>
           && h'.all[c].send == Chan(cl.send.buffer[1..], cl.send.closed)
           && h'.all[c].taken == cl.taken + [cl.send.buffer[0]] && h'.all[c].frames == cl.frames
           && h'.all[c].pump == (if ok then Writing([cl.send.buffer[0]]) else Ended(false))
         case Drain(c, ok) =>
           && h'.all[c].send == Chan(cl.send.buffer[1..], cl.send.closed)
           && h'.all[c].taken == cl.taken + [cl.send.buffer[0]] && h'.all[c].frames == cl.frames
           && h'.all[c].pump == (if ok then Draining(cl.pump.batch + [cl.send.buffer[0]], cl.pump.left - 1)
                                 else Ended(false))
         case _ => true
  {
  }

  /** The end of a frame, of the channel and of the connection. */
  lemma PumpEnds(h: HubState, step: Step)
    requires Enabled(h, step) && (step.DrainFails? || step.Flush? || step.SeeClose? || step.Ping?)
    ensures var h', cl := Apply(h, step), h.all[step.c];
      && OnlyLink(h, h', step.c) && step.c in h'.all
      && h'.all[step.c] == match step
                           case Flush(_, ok) =>
                             if ok then cl.(pump := Waiting, frames := cl.frames + [cl.pump.batch])
                             else cl.(pump := Ended(false))
                           case SeeClose(_) => cl.(pump := Ended(true))
                           case Ping(_, ok) => if ok then cl else cl.(pump := Ended(false))
                           case _ => cl.(pump := Ended(false))
  {
  }

  /** From the count on, the size of the frame is settled: the message and all that
      waited behind it. */
  lemma FrameSizeIsSettled(h: HubState, step: Step, c: Cid)
    requires Enabled(h, step) && c in h.all && c in Apply(h, step).all && Apply(h, step).all[c].pump.Draining?
    ensures var pump, pump' := h.all[c].pump, Apply(h, step).all[c].pump;
      || (step == Measure(c) && pump.Writing? && |pump'.batch| + pump'.left == |pump.batch| + |h.all[c].send.buffer|)
      || (pump.Draining? && |pump'.batch| + pump'.left == |pump.batch| + pump.left)
  {
    if ByPump(step) && step.c == c {
      if step.Receive? || step.Measure? || step.Drain? { PumpReads(h, step); } else { PumpEnds(h, step); }
    }
  }

  /** The steps of the hub other than an offer. */
  lemma HubMoves(h: HubState, step: Step)
    requires Reachable(h) && Enabled(h, step) && !ByPump(step) && !step.OfferTo?
    ensures var h' := Apply(h, step);
      && (step.Register? ==>
            && h'.clients == h.clients + {step.c} && h'.lock == h.lock && h'.said == h.said
            && h'.all == h.all[step.c := Link(Chan([], false), Waiting, [], [], [], |h.said|, None)])
      && (step.Unregister? || step.StopOne? ==>
            && h'.clients == h.clients - {step.c} && h'.lock == h.lock && h'.said == h.said
            && h'.all == (if step.c !in h.clients then h.all
                          else h.all[step.c := h.all[step.c].(send := Chan(h.all[step.c].send.buffer, true),
                                                              gone := Some(|h.said|))]))
      && (step.Broadcast? ==>
            && h'.clients == h.clients && h'.all == h.all && h'.said == h.said + [step.msg]
            && h'.lock == Broadcasting(|h.said|, step.msg, h.clients))
      && (step.Stop? ==> h' == h.(lock := Stopping))
      && (step.EndBroadcast? || step.EndStop? ==> h' == h.(lock := Free))
  {
    ReachableInvariant(h);
  }

  /** A client is dropped from a broadcast exactly when 256 messages wait for it;
      otherwise it gets the message behind those that wait. */
  lemma DroppedIffFull(h: HubState, c: Cid)
    requires Reachable(h) && Enabled(h, OfferTo(c))
    ensures var before, after := h.all[c], Apply(h, OfferTo(c));
      && |before.send.buffer| <= 256 && c in after.all && after.all.Keys == h.all.Keys
      && (if |before.send.buffer| < 256 then
            && after.clients == h.clients && c in h.clients
            && after.all[c].send == Chan(before.send.buffer + [h.lock.msg], false)
            && after.all[c].put == before.put + [h.lock.msg] && after.all[c].gone.None?
          else
            && after.clients == h.clients - {c}
            && after.all[c].send == Chan(before.send.buffer, true)
            && after.all[c].put == before.put && after.all[c].gone == Some(h.lock.index))
      && forall d :: d in h.all && d != c ==> after.all[d] == h.all[d]
  {
    ReachableInvariant(h);
    assert ClientOk(h, c);
  }

  // -------------------------------------------- slow clients block nobody

  /** The steps of the hub that are left until it releases the mutex. */
  function StepsLeft(h: HubState): nat {
    match h.lock
    case Free => 0
    case Broadcasting(_, _, todo) => |todo| + 1
    case Stopping => |h.clients| + 1
  }

  /** While it holds the mutex, the hub never waits for a client or a pump: it has a
      step to take, whatever the buffers hold, and each one brings the release nearer. */
  lemma HubNeverBlocks(h: HubState)
    requires Reachable(h) && !h.lock.Free?
    ensures exists step :: !ByPump(step) && Enabled(h, step)
    ensures forall step :: Enabled(h, step) ==>
      StepsLeft(Apply(h, step)) == StepsLeft(h) - if ByPump(step) then 0 else 1
  {
    HubHasStep(h);
    forall step | Enabled(h, step)
      ensures StepsLeft(Apply(h, step)) == StepsLeft(h) - if ByPump(step) then 0 else 1
    {
      if ByPump(step) { PumpsLeaveMutex(h, step); } else { HubStepCounts(h, step); }
    }
  }

  lemma PumpsLeaveMutex(h: HubState, step: Step)
    requires Enabled(h, step) && ByPump(step)
    ensures StepsLeft(Apply(h, step)) == StepsLeft(h) && Apply(h, step).lock == h.lock
  {
  }

  lemma HubStepCounts(h: HubState, step: Step)
    requires Enabled(h, step) && !ByPump(step) && !h.lock.Free?
    ensures StepsLeft(Apply(h, step)) == StepsLeft(h) - 1
  {
  }

  lemma HubHasStep(h: HubState)
    requires Reachable(h) && !h.lock.Free?
    ensures exists step :: !ByPump(step) && Enabled(h, step)
  {
    ReachableInvariant(h);
    var left := if h.lock.Broadcasting? then h.lock.todo else h.clients;
    if left == {} {
      assert Enabled(h, if h.lock.Broadcasting? then EndBroadcast else EndStop);
    } else {
      assert (forall x :: x !in left) ==> left == {};
      var c :| c in left;
      assert Enabled(h, if h.lock.Broadcasting? then OfferTo(c) else StopOne(c));
    }
  }

  function HubSteps(steps: seq<Step>): nat {
    if steps == [] then 0 else (if ByPump(steps[0]) then 0 else 1) + HubSteps(steps[1..])
  }

  /** The mutex is held up to the last state of the run. */
  ghost predicate HeldThroughout(h: HubState, steps: seq<Step>)
    requires ValidRun(h, steps)
    decreases |steps|
  {
    !h.lock.Free? && (steps == [] || HeldThroughout(Apply(h, steps[0]), steps[1..]))
  }

  lemma ReachableNext(h: HubState, step: Step)
    requires Reachable(h) && Enabled(h, step)
    ensures Reachable(Apply(h, step))
  {
    var h0, steps :| Init(h0) && ValidRun(h0, steps) && After(h0, steps) == h;
    RunAppend(h0, steps, step);
  }

  lemma {:induction false} RunAppend(h: HubState, steps: seq<Step>, step: Step)
    requires ValidRun(h, steps) && Enabled(After(h, steps), step)
    ensures ValidRun(h, steps + [step]) && After(h, steps + [step]) == Apply(After(h, steps), step)
    decreases |steps|
  {
    var all := steps + [step];
    if steps == [] {
      assert all[1..] == [];
    } else {
      assert all[1..] == steps[1..] + [step];
      RunAppend(Apply(h, steps[0]), steps[1..], step);
    }
  }

  /** However the pumps interleave, the hub takes one step for each step left, so a
      broadcast releases the mutex after exactly one offer per registered client. */
  lemma {:induction false} HeldForStepsLeft(h: HubState, steps: seq<Step>)
    requires Reachable(h) && ValidRun(h, steps) && HeldThroughout(h, steps)
    ensures HubSteps(steps) + StepsLeft(After(h, steps)) == StepsLeft(h)
    decreases |steps|
  {
    if steps != [] {
      HubNeverBlocks(h);
      ReachableNext(h, steps[0]);
      HeldForStepsLeft(Apply(h, steps[0]), steps[1..]);
    }
  }

  /** From the start of a broadcast or of a shutdown, as long as the mutex is held, the
      hub has taken at most one step for each client that was registered. */
  lemma MutexHeldBriefly(h: HubState, begin: Step, steps: seq<Step>)
    requires Reachable(h) && (begin.Broadcast? || begin.Stop?) && Enabled(h, begin)
    requires ValidRun(Apply(h, begin), steps) && HeldThroughout(Apply(h, begin), steps)
    ensures HubSteps(steps) <= |h.clients|
    ensures HubSteps(steps) == |h.clients| ==>
      forall step :: !ByPump(step) && Enabled(After(Apply(h, begin), steps), step) ==>
        Apply(After(Apply(h, begin), steps), step).lock.Free?
  {
    var h1 := Apply(h, begin);
    ReachableNext(h, begin);
    HeldForStepsLeft(h1, steps);
    HeldAtTheEnd(h1, steps);
  }

  lemma {:induction false} HeldAtTheEnd(h: HubState, steps: seq<Step>)
    requires Reachable(h) && ValidRun(h, steps) && HeldThroughout(h, steps)
    ensures Reachable(After(h, steps)) && !After(h, steps).lock.Free?
    decreases |steps|
  {
    if steps != [] {
      ReachableNext(h, steps[0]);
      HeldAtTheEnd(Apply(h, steps[0]), steps[1..]);
    }
  }

  /** A draining pump always finds the messages it has counted. */
  lemma DrainNeverBlocks(h: HubState, c: Cid, ok: bool)
    requires Reachable(h) && c in h.all && h.all[c].pump.Draining? && h.all[c].pump.left > 0
    ensures Enabled(h, Drain(c, ok))
  {
    ReachableInvariant(h);
    assert ClientOk(h, c);
  }

  /** Messages joined by newlines, as one frame carries them. */
  function Payload(batch: seq<Message>): string {
    if batch == [] then ""
    else if |batch| == 1 then batch[0]
    else Payload(batch[..|batch| - 1]) + "\n" + batch[|batch| - 1]
  }

  function Payloads(frames: seq<seq<Message>>): seq<string> {
    seq(|frames|, i requires 0 <= i < |frames| => Payload(frames[i]))
  }

  lemma {:induction false} PayloadAppend(a: seq<Message>, b: seq<Message>)
    requires a != [] && b != []
    ensures Payload(a + b) == Payload(a) + "\n" + Payload(b)
    decreases |b|
  {
    var n := |b| - 1;
    assert (a + b)[..|a + b| - 1] == a + b[..n] && (a + b)[|a + b| - 1] == b[n];
    if n == 0 {
      assert a + b[..n] == a;
    } else {
      PayloadAppend(a, b[..n]);
    }
  }

  /** However the messages are split into frames, the frames joined by newlines are the
      messages joined by newlines. */
  lemma {:induction false} FramingIsInvisible(frames: seq<seq<Message>>)
    requires forall i :: 0 <= i < |frames| ==> frames[i] != []
    ensures Payload(Payloads(frames)) == Payload(Concat(frames))
    ensures frames != [] ==> Concat(frames) != []
    decreases |frames|
  {
    if |frames| == 1 {
      assert Concat(frames[..0]) + frames[0] == frames[0];
    } else if |frames| > 1 {
      var n := |frames| - 1;
      FramingIsInvisible(frames[..n]);
      assert Payloads(frames)[..n] == Payloads(frames[..n]);
      PayloadAppend(Concat(frames[..n]), frames[n]);
    }
  }

  /** What the peer has received is the newline-joined beginning of its run of
      broadcasts; it is the whole run once the pump has seen the channel closed. */
  lemma PeerSeesPrefixOfRun(h: HubState, c: Cid)
    requires Reachable(h) && c in h.all
    ensures var cl := h.all[c];
      var run := cl.put;
      && Concat(cl.frames) <= run
      && Payload(Payloads(cl.frames)) == Payload(run[..|Concat(cl.frames)|])
      && (cl.pump == Ended(true) ==> cl.gone.Some? && Payload(Payloads(cl.frames)) == Payload(run))
  {
    ReachableInvariant(h);
    assert ClientOk(h, c);
    FramingIsInvisible(h.all[c].frames);
    var cl := h.all[c];
    assert Concat(cl.frames) <= cl.taken <= cl.put;
    assert cl.put[..|Concat(cl.frames)|] == Concat(cl.frames);
    if cl.pump == Ended(true) { assert Concat(cl.frames) == cl.taken == cl.put; }
  }
}
