/** The hub, its clients and their write pumps in the form of the source
    (internal/delivery/websocket/hub.go, internal/delivery/websocket/client.go). The
    preconditions of `TrySend` and `CloseSend` are the panics of a Go channel. */
module Hubs {
  import opened HubRuns

  const NEWLINE := "\n"

  /** One side of a WebSocket. `fails` decides which writes fail; after the first
      failed write all later ones fail. */
  class Connection {
    const fails: nat -> bool
    var writes: nat
    var broken: bool
    var open: string
    var wire: seq<string>

    constructor (fails: nat -> bool)
      ensures !broken && wire == []
    {
      this.fails := fails;
      writes, broken, open, wire := 0, false, "", [];
    }

    method Attempt() returns (ok: bool)
      modifies this`writes, this`broken
      ensures broken == !ok && (old(broken) ==> !ok)
    {
      ok := !broken && !fails(writes);
      writes, broken := writes + 1, !ok;
    }

    method NextWriter() returns (ok: bool)
      modifies this
      ensures broken == !ok && (old(broken) ==> !ok)
      ensures wire == old(wire) && (ok ==> open == "")
    {
      ok := Attempt();
      if ok { open := ""; }
    }

    method Write(text: string) returns (ok: bool)
      modifies this
      ensures broken == !ok && (old(broken) ==> !ok)
      ensures wire == old(wire) && (ok ==> open == old(open) + text)
    {
      ok := Attempt();
      if ok { open := open + text; }
    }

    /** Completes the frame: only now does the peer have a message. */
    method CloseWriter() returns (ok: bool)
      modifies this
      ensures broken == !ok && (old(broken) ==> !ok)
      ensures wire == if ok then old(wire) + [old(open)] else old(wire)
    {
      ok := Attempt();
      if ok { wire := wire + [open]; }
    }

    /** Ping or close frame. */
    method WriteControl() returns (ok: bool)
      modifies this`writes, this`broken
      ensures broken == !ok && (old(broken) ==> !ok)
    {
      ok := Attempt();
    }
  }

  /** What the hub does to a client between two operations of its pump. */
  datatype HubAct = Deliver(msg: Message) | Remove

  datatype PumpResult = Running | ClosedByHub | ConnectionFailed

  class Client {
    const conn: Connection
    const plan: nat -> seq<HubAct>
    const ticks: nat -> bool
    var turn: nat
    var buffer: seq<Message>
    var closed: bool
    ghost var put: seq<Message>
    ghost var taken: seq<Message>
    ghost var frames: seq<seq<Message>>

    function Send(): Chan
      reads this
    {
      Chan(buffer, closed)
    }

    ghost predicate Valid()
      reads this
    {
      |buffer| <= SEND_BUFFER_SIZE && put == taken + buffer
    }

    /** The peer has exactly the frames made of what was taken. */
    ghost predicate WireOk()
      reads this, conn
    {
      && conn.wire == Payloads(frames)
      && (forall i :: 0 <= i < |frames| ==> frames[i] != [])
      && Concat(frames) <= taken
    }

    constructor (conn: Connection, plan: nat -> seq<HubAct>, ticks: nat -> bool)
      requires conn.wire == []
      ensures Valid() && WireOk() && !closed && buffer == [] && put == [] && this.conn == conn
      ensures taken == [] && frames == []
    {
      this.conn, this.plan, this.ticks := conn, plan, ticks;
      turn, buffer, closed := 0, [], false;
      put, taken, frames := [], [], [];
    }

    /** A send that does not block. */
    method TrySend(m: Message) returns (sent: bool)
      requires Valid() && !closed
      modifies this`buffer, this`put
      ensures Valid() && (sent <==> |old(buffer)| < 256)
      ensures buffer == (if sent then old(buffer) + [m] else old(buffer))
      ensures put == (if sent then old(put) + [m] else old(put))
    {
      sent := |buffer| < SEND_BUFFER_SIZE;
      if sent {
        assert taken + (buffer + [m]) == put + [m];
        buffer, put := buffer + [m], put + [m];
      }
    }

    method CloseSend()
      requires Valid() && !closed
      modifies this`closed
      ensures Valid() && closed
    {
      closed := true;
    }

    /** The pump's receive. */
    method Take() returns (m: Message)
      requires Valid() && buffer != []
      modifies this`buffer, this`taken
      ensures Valid() && [m] + buffer == old(buffer) && taken == old(taken) + [m]
    {
      m := buffer[0];
      assert buffer == [m] + buffer[1..];
      buffer, taken := buffer[1..], taken + [m];
    }

    /** The hub acts while the pump is between two operations. */
    method HubActs()
      requires Valid()
      modifies this`turn, this`buffer, this`put, this`closed
      ensures Valid() && old(buffer) <= buffer && old(put) <= put
      ensures old(closed) ==> closed && buffer == old(buffer) && put == old(put)
    {
      var acts := plan(turn);
      turn := turn + 1;
      for i := 0 to |acts|
        invariant Valid() && old(buffer) <= buffer && old(put) <= put
        invariant old(closed) ==> closed && buffer == old(buffer) && put == old(put)
      {
        if !closed {
          var full := true;
          if acts[i].Deliver? {
            var sent := TrySend(acts[i].msg);
            full := !sent;
          }
          if full { CloseSend(); }
        }
      }
    }

    /** One frame: the next message and all that are waiting behind it, joined by
        newlines. On failure the connection is broken and the peer gets no frame. */
    method WriteFrame() returns (ok: bool)
      requires Valid() && WireOk() && buffer != [] && Concat(frames) == taken
      modifies this, conn
      ensures Valid() && WireOk()
      ensures ok ==> Concat(frames) == taken && |frames| == |old(frames)| + 1
      ensures ok ==> frames[..|old(frames)|] == old(frames) && |frames[|old(frames)|]| >= |old(buffer)|
      ensures !ok ==> conn.broken && frames == old(frames)
      ensures old(taken) < taken && old(put) <= put
      ensures ok ==> old(put) <= taken
      ensures old(closed) ==> closed && put == old(put)
    {
      var msg := Take();
      ok := conn.NextWriter();
      if !ok { return; }
      ok := conn.Write(msg);
      if !ok { return; }
      HubActs();
      ok := FinishFrame([msg]);
    }

    /** The frame from its first message on. */
    method FinishFrame(ghost first: seq<Message>) returns (ok: bool)
      requires Valid() && WireOk() && first != [] && conn.open == Payload(first) && Concat(frames) + first == taken
      modifies this, conn
      ensures Valid() && WireOk()
      ensures ok ==> Concat(frames) == taken && |frames| == |old(frames)| + 1
      ensures ok ==> frames[..|old(frames)|] == old(frames)
                     && |frames[|old(frames)|]| >= |first| + |old(buffer)|
      ensures !ok ==> conn.broken && frames == old(frames)
      ensures old(taken) <= taken && old(put) <= put
      ensures ok ==> |taken| >= |old(taken)| + |old(buffer)|
      ensures old(closed) ==> closed && put == old(put)
    {
      ghost var batch := DrainInto(first);
      ok := conn.CloseWriter();
      if ok {
        frames := frames + [batch];
      }
    }

    /** Drains what is queued at this moment into the open frame. */
    method DrainInto(ghost first: seq<Message>) returns (ghost batch: seq<Message>)
      requires Valid() && first != [] && conn.open == Payload(first)
      requires Concat(frames) + first == taken
      modifies this`turn, this`buffer, this`put, this`closed, this`taken, conn
      ensures Valid() && conn.wire == old(conn.wire)
      ensures old(taken) <= taken && old(put) <= put && (old(closed) ==> closed && put == old(put))
      ensures !conn.broken ==> conn.open == Payload(batch) && Concat(frames) + batch == taken && batch != []
      ensures !conn.broken ==> |batch| == |first| + |old(buffer)|
    {
      batch := first;
      var n := |buffer|;
      var i := 0;
      while i < n
        invariant 0 <= i <= n && Valid() && conn.wire == old(conn.wire)
        invariant old(taken) <= taken && old(put) <= put && (old(closed) ==> closed && put == old(put))
        invariant n - i <= |buffer|
        invariant conn.open == Payload(batch) && Concat(frames) + batch == taken && batch != []
        invariant |batch| == |first| + i
      {
        var ok := conn.Write(NEWLINE);
        if !ok { break; }
        HubActs();
        var m := Take();
        ok := conn.Write(m);
        if !ok { break; }
        PayloadAppend(batch, [m]);
        batch := batch + [m];
        HubActs();
        i := i + 1;
      }
    }

    /** `WritePump` for at most `rounds` rounds. The peer has received the newline-joined
        beginning of what was sent to the channel; all that was taken, as long as the
        connection has not failed; and all that was ever sent, once the channel was
        seen closed. The first round that is not a ping writes all that waits, and of a
        closed channel no more than two are needed to see the end. */
    method WritePump(rounds: nat) returns (r: PumpResult)
      requires Valid() && WireOk() && Concat(frames) == taken
      modifies this, conn
      ensures Valid() && WireOk() && Concat(frames) <= put && old(put) <= put
      ensures Payload(conn.wire) == Payload(put[..|Concat(frames)|])
      ensures r.Running? ==> Concat(frames) == taken
      ensures r.Running? && Receives(ticks, rounds) > 0 ==> old(put) <= taken
      ensures old(closed) && Receives(ticks, rounds) > 1 ==> !r.Running?
      ensures r.ClosedByHub? ==> closed && buffer == [] && Payload(conn.wire) == Payload(put)
      ensures r.ConnectionFailed? ==> conn.broken
    {
      r := Running;
      for i := 0 to rounds
        invariant Valid() && WireOk() && Concat(frames) == taken && r.Running?
        invariant old(put) <= put && (old(closed) ==> closed && put == old(put))
        invariant Receives(ticks, i) > 0 ==> old(put) <= taken
        invariant old(closed) ==> Receives(ticks, i) <= 1
      {
        r := PumpRound(ticks(i));
        if !r.Running? { break; }
      }
      FramingIsInvisible(frames);
      assert Concat(frames) <= taken <= put;
      assert put[..|Concat(frames)|] == Concat(frames);
      assert r.ClosedByHub? ==> put == taken;
    }

    /** One round: a ping, or the next frame, or the end of the channel. */
    method PumpRound(tick: bool) returns (r: PumpResult)
      requires Valid() && WireOk() && Concat(frames) == taken
      modifies this, conn
      ensures Valid() && WireOk() && Concat(frames) <= taken
      ensures old(taken) <= taken && old(put) <= put && (old(closed) ==> closed && put == old(put))
      ensures !r.ConnectionFailed? ==> Concat(frames) == taken
      ensures r.Running? && !tick ==> old(put) <= taken
      ensures old(closed) && old(buffer) == [] && !tick ==> !r.Running?
      ensures r.ClosedByHub? ==> closed && buffer == []
      ensures r.ConnectionFailed? ==> conn.broken
    {
      HubActs();
      if tick {
        var ok := conn.WriteControl();
        return if ok then Running else ConnectionFailed;
      }
      if buffer != [] {
        var ok := WriteFrame();
        return if ok then Running else ConnectionFailed;
      }
      if !closed { return Running; }
      var _ := conn.WriteControl();
      r := ClosedByHub;
    }
  }

  /** The rounds that are not pings, among the first `n`. */
  function Receives(ticks: nat -> bool, n: nat): nat {
    if n == 0 then 0 else Receives(ticks, n - 1) + if ticks(n - 1) then 0 else 1
  }

  // -------------------------------------------------------------- the hub

  /** What the event loop receives. */
  datatype HubEvent = Registers(client: Client) | Unregisters(client: Client) | Publishes(msg: Message)

  /** The messages among the first events. */
  function Published(events: seq<HubEvent>): seq<Message> {
    if events == [] then []
    else
      var e := events[|events| - 1];
      Published(events[..|events| - 1]) + if e.Publishes? then [e.msg] else []
  }

  /** When each client was registered last, in broadcasts. */
  ghost function JoinedAfter(events: seq<HubEvent>, was: map<Client, nat>, said: nat): map<Client, nat> {
    if events == [] then was
    else
      var before := events[..|events| - 1];
      var joined := JoinedAfter(before, was, said);
      var e := events[|events| - 1];
      if e.Registers? then joined[e.client := said + |Published(before)|] else joined
  }

  /** A client registered once is served from the next broadcast on. */
  lemma {:induction false} JoinedAt(events: seq<HubEvent>, was: map<Client, nat>, said: nat, i: nat)
    requires i < |events| && events[i].Registers?
    requires forall j :: i < j < |events| && events[j].Registers? ==> events[j].client != events[i].client
    ensures var joined := JoinedAfter(events, was, said);
      events[i].client in joined && joined[events[i].client] == said + |Published(events[..i])|
    decreases |events|
  {
    if i < |events| - 1 {
      var before := events[..|events| - 1];
      assert before[..i] == events[..i];
      JoinedAt(before, was, said, i);
    }
  }

  /** A client that left at index `k` has registered again since. */
  ghost predicate Rejoined(events: seq<HubEvent>, k: nat)
    requires k < |events| && events[k].Unregisters?
  {
    exists j :: k < j < |events| && events[j] == Registers(events[k].client)
  }

  /** Whoever has left is not registered, unless registered again since. */
  ghost predicate OnlyRejoined(events: seq<HubEvent>, clients: set<Client>) {
    forall k :: 0 <= k < |events| && events[k].Unregisters? && events[k].client in clients ==> Rejoined(events, k)
  }

  lemma RejoinedStep(events: seq<HubEvent>, i: nat, before: set<Client>, after: set<Client>)
    requires i < |events| && OnlyRejoined(events[..i], before)
    requires after <= before + if events[i].Registers? then {events[i].client} else {}
    requires events[i].Unregisters? ==> events[i].client !in after
    ensures OnlyRejoined(events[..i + 1], after)
  {
    var now := events[..i + 1];
    forall k | 0 <= k < |now| && now[k].Unregisters? && now[k].client in after ensures Rejoined(now, k) {
      if now[k].client in before {
        assert Rejoined(events[..i], k);
        var j :| k < j < i && events[..i][j] == Registers(events[k].client);
        assert now[j] == events[j];
      } else {
        assert now[i] == Registers(now[k].client);
      }
    }
  }

  ghost function ClientsIn(events: seq<HubEvent>): set<Client> {
    set i | 0 <= i < |events| && !events[i].Publishes? :: events[i].client
  }

  /** The registered clients and how many messages wait in their buffers, as the
      first events leave them; no pump runs in between. */
  ghost function LoadAfter(events: seq<HubEvent>, was: map<Client, nat>): map<Client, nat> {
    if events == [] then was
    else LoadNext(LoadAfter(events[..|events| - 1], was), events[|events| - 1])
  }

  ghost function LoadNext(load: map<Client, nat>, e: HubEvent): map<Client, nat> {
    match e
    case Registers(c) => load[c := 0]
    case Unregisters(c) => load - {c}
    case Publishes(_) => map c | c in load && load[c] < SEND_BUFFER_SIZE :: load[c] + 1
  }

  lemma LoadNextKeys(load: map<Client, nat>, msg: Message)
    ensures forall c :: c in LoadNext(load, Publishes(msg)).Keys <==> c in load.Keys && load[c] < SEND_BUFFER_SIZE
  {
  }

  /** From index `from` on nobody unregisters the client, and its buffer, with `load`
      messages in it, takes all broadcasts. */
  ghost predicate Keeps(events: seq<HubEvent>, from: nat, c: Client, load: nat)
    requires from <= |events|
  {
    && load + |Published(events[from..])| <= 256
    && forall k :: from <= k < |events| ==> events[k] != Unregisters(c)
  }

  ghost predicate KeepsFrom(events: seq<HubEvent>, i: nat, c: Client)
    requires i < |events|
  {
    events[i] == Registers(c) && Keeps(events, i + 1, c, 0)
  }

  /** The client was registered, before or by an event, and has kept its place. */
  ghost predicate Stays(events: seq<HubEvent>, was: map<Client, nat>, c: Client) {
    || (c in was && Keeps(events, 0, c, was[c]))
    || exists i :: 0 <= i < |events| && KeepsFrom(events, i, c)
  }

  /** Nobody registers twice. */
  ghost predicate RegistersOnce(events: seq<HubEvent>, was: map<Client, nat>) {
    && (forall i :: 0 <= i < |events| && events[i].Registers? ==> events[i].client !in was)
    && forall i, j :: 0 <= i < j < |events| && events[i].Registers? && events[j].Registers? ==>
         events[i].client != events[j].client
  }

  /** One more event. */
  lemma PlaceNext(events: seq<HubEvent>, was: map<Client, nat>, c: Client, from: nat, load: nat)
    requires from < |events| && events[|events| - 1] != Registers(c)
    requires var init := events[..|events| - 1];
      && (c in LoadAfter(init, was) <==> Keeps(init, from, c, load))
      && (c in LoadAfter(init, was) ==> LoadAfter(init, was)[c] == load + |Published(init[from..])|)
    ensures c in LoadAfter(events, was) <==> Keeps(events, from, c, load)
    ensures c in LoadAfter(events, was) ==> LoadAfter(events, was)[c] == load + |Published(events[from..])|
  {
    var n := |events| - 1;
    var init, last := events[..n], events[from..];
    assert last[..|last| - 1] == init[from..] && last[|last| - 1] == events[n];
    forall k | from <= k < n ensures events[k] == init[k] {}
    assert Keeps(events, from, c, load) ==> Keeps(init, from, c, load);
  }

  /** What there is to know of a client that has a place since index `from`. */
  lemma {:induction false} PlaceSince(events: seq<HubEvent>, was: map<Client, nat>, c: Client, from: nat, load: nat)
    requires RegistersOnce(events, was) && from <= |events| && load <= SEND_BUFFER_SIZE
    requires c in LoadAfter(events[..from], was) && LoadAfter(events[..from], was)[c] == load
    requires forall k :: from <= k < |events| ==> events[k] != Registers(c)
    ensures c in LoadAfter(events, was) <==> Keeps(events, from, c, load)
    ensures c in LoadAfter(events, was) ==> LoadAfter(events, was)[c] == load + |Published(events[from..])|
    decreases |events|
  {
    if from == |events| {
      assert events[..from] == events;
    } else {
      var n := |events| - 1;
      var init := events[..n];
      assert init[..from] == events[..from];
      PlaceSince(init, was, c, from, load);
      PlaceNext(events, was, c, from, load);
    }
  }

  lemma {:induction false} NoPlaceUntil(events: seq<HubEvent>, was: map<Client, nat>, c: Client)
    requires c !in was && forall k :: 0 <= k < |events| ==> events[k] != Registers(c)
    ensures c !in LoadAfter(events, was)
    decreases |events|
  {
    if events != [] { NoPlaceUntil(events[..|events| - 1], was, c); }
  }

  lemma StaysIff(events: seq<HubEvent>, was: map<Client, nat>, c: Client)
    requires RegistersOnce(events, was) && forall d :: d in was ==> was[d] <= SEND_BUFFER_SIZE
    ensures c in LoadAfter(events, was) <==> Stays(events, was, c)
  {
    if c in was {
      assert events[..0] == [];
      PlaceSince(events, was, c, 0, was[c]);
    } else if i :| 0 <= i < |events| && events[i] == Registers(c) {
      assert events[..i + 1][..i] == events[..i] && events[..i + 1][i] == events[i];
      PlaceSince(events, was, c, i + 1, 0);
      assert c in LoadAfter(events, was) ==> KeepsFrom(events, i, c);
    } else {
      NoPlaceUntil(events, was, c);
    }
  }

  lemma SaidGrows(said: seq<Message>, msg: Message, from: nat, put: seq<Message>)
    requires from <= |said| && put == said[from..]
    ensures var later := said + [msg]; put + [msg] == later[from..] == later[from..|later|]
  {
  }

  class Hub {
    var clients: set<Client>
    ghost var said: seq<Message>
    ghost var joined: map<Client, nat>  // broadcasts before the registration

    /** An open channel that was sent all broadcasts from the registration of its
        client to the `n`-th. */
    ghost predicate Serves(c: Client, n: nat)
      reads this, c
    {
      && c in joined && joined[c] <= n <= |said|
      && c.Valid() && !c.closed && c.put == said[joined[c]..n]
    }

    /** All registered clients are served up to the latest broadcast. */
    ghost predicate Valid()
      reads this, clients
    {
      forall c :: c in clients ==> Serves(c, |said|)
    }

    /** How many messages wait for each registered client. */
    ghost function Loads(): map<Client, nat>
      reads this`clients, clients`buffer
    {
      map c | c in clients :: |c.buffer|
    }

    /** These clients are registered, and that is how many messages wait for each. */
    ghost predicate Loaded(load: map<Client, nat>)
      reads this`clients, clients`buffer
    {
      clients == load.Keys && forall c :: c in clients ==> |c.buffer| == load[c]
    }

    constructor ()
      ensures Valid() && clients == {} && said == [] && joined == map[]
    {
      clients, said, joined := {}, [], map[];
    }

    method Register(c: Client)
      requires Valid() && c !in clients && IsNew(c)
      modifies this
      ensures Valid() && clients == old(clients) + {c} && said == old(said)
      ensures joined == old(joined)[c := |said|]
    {
      clients := clients + {c};
      joined := joined[c := |said|];
      forall d | d in clients ensures Serves(d, |said|) {
        if d != c { assert old(Serves(d, |said|)); }
      }
    }

    /** Closes the channel of a registered client, which has then been sent exactly its
        run; any other is left alone. */
    method Unregister(c: Client)
      requires Valid()
      modifies this`clients, c`closed
      ensures Valid() && clients == old(clients) - {c}
      ensures c.closed == (c in old(clients) || old(c.closed))
      ensures c in old(clients) ==> joined[c] <= |said| && c.put == said[joined[c]..]
    {
      if c in clients {
        assert Serves(c, |said|);
        clients := clients - {c};
        c.CloseSend();
        forall d | d in clients ensures Serves(d, |said|) {
          assert old(Serves(d, |said|));
        }
      }
    }

    /** Every registered client gets the message, or is removed if its buffer is full;
        a removed one has been sent exactly its run. */
    method Broadcast(msg: Message)
      requires Valid()
      modifies this, clients
      ensures Valid() && said == old(said) + [msg] && joined == old(joined)
      ensures clients == set c | c in old(clients) && |old(c.buffer)| < 256
      ensures forall c :: c in old(clients) ==>
        && c.buffer == (if |old(c.buffer)| < 256 then old(c.buffer) + [msg] else old(c.buffer))
        && c.closed == (|old(c.buffer)| >= 256)
      ensures forall c :: c in old(clients) && c !in clients ==> c.put == old(said[joined[c]..])
    {
      ghost var was := map c | c in clients :: c.put;
      forall c | c in clients ensures c in joined && joined[c] <= |said| && was[c] == said[joined[c]..] {
        assert Serves(c, |said|);
      }
      OfferAll(msg);
      said := said + [msg];
      forall c | c in clients ensures Serves(c, |said|) {
        assert c.put == was[c] + [msg];
        SaidGrows(old(said), msg, joined[c], was[c]);
      }
    }

    /** The loop over the clients. */
    method OfferAll(msg: Message)
      requires forall c :: c in clients ==> c.Valid() && !c.closed
      modifies this`clients, clients
      ensures clients == set c | c in old(clients) && |old(c.buffer)| < 256
      ensures forall c :: c in old(clients) ==> Given(c, old(Chan(c.buffer, c.closed)), old(c.put), msg)
    {
      var rest := clients;
      while rest != {}
        invariant rest <= clients <= old(clients)
        invariant forall c :: c in rest ==> c.Valid() && !c.closed && c.buffer == old(c.buffer) && c.put == old(c.put)
        invariant forall c :: c in old(clients) && c !in rest ==>
          && Given(c, old(Chan(c.buffer, c.closed)), old(c.put), msg)
          && (c in clients <==> |old(c.buffer)| < SEND_BUFFER_SIZE)
        decreases rest
      {
        assert (forall x :: x !in rest) ==> rest == {};
        var c :| c in rest;
        OfferTo(c, msg);
        rest := rest - {c};
      }
    }

    /** One client's part in a broadcast. */
    method OfferTo(c: Client, msg: Message)
      requires c in clients && c.Valid() && !c.closed
      modifies this`clients, c
      ensures clients == if |old(c.buffer)| < 256 then old(clients) else old(clients) - {c}
      ensures Given(c, old(Chan(c.buffer, c.closed)), old(c.put), msg)
    {
      var sent := c.TrySend(msg);
      if !sent {
        clients := clients - {c};
        c.CloseSend();
      }
    }

    /** Closes every channel that is still open. */
    method Stop()
      requires Valid()
      modifies this`clients, clients
      ensures Valid() && clients == {}
      ensures forall c :: c in old(clients) ==> c.closed && c.buffer == old(c.buffer)
    {
      while clients != {}
        invariant Valid() && clients <= old(clients)
        invariant forall c :: c in old(clients) ==> c.buffer == old(c.buffer) && (c in clients || c.closed)
        decreases clients
      {
        assert (forall x :: x !in clients) ==> clients == {};
        var c :| c in clients;
        Unregister(c);
      }
    }

    /** A broadcast, by what waits in the buffers. */
    method BroadcastTo(msg: Message, ghost load: map<Client, nat>)
      requires Valid() && Loaded(load)
      modifies this, clients
      ensures Valid() && Loaded(LoadNext(load, Publishes(msg))) && clients <= old(clients)
      ensures said == old(said) + [msg] && joined == old(joined)
    {
      Broadcast(msg);
      LoadNextKeys(load, msg);
      assert clients == LoadNext(load, Publishes(msg)).Keys;
    }

    method RegisterWith(c: Client, ghost load: map<Client, nat>)
      requires Valid() && Loaded(load) && c !in clients && IsNew(c)
      modifies this
      ensures Valid() && Loaded(LoadNext(load, Registers(c)))
      ensures said == old(said) && joined == old(joined)[c := |old(said)|]
    {
      Register(c);
    }

    method UnregisterFrom(c: Client, ghost load: map<Client, nat>)
      requires Valid() && Loaded(load)
      modifies this`clients, c`closed
      ensures Valid() && Loaded(LoadNext(load, Unregisters(c)))
      ensures c !in old(clients) ==> c.closed == old(c.closed)
    {
      Unregister(c);
    }

    /** One round of the event loop. */
    method Handle(e: HubEvent, ghost load: map<Client, nat>)
      requires Valid() && Loaded(load) && (e.Registers? ==> e.client !in clients && IsNew(e.client))
      modifies this, clients, if e.Publishes? then {} else {e.client}
      ensures Valid() && Loaded(LoadNext(load, e))
      ensures e.Unregisters? && e.client !in old(clients) ==>
        e.client.closed == old(e.client.closed) && unchanged(e.client`buffer, e.client`put, e.client`taken)
      ensures said == old(said) + if e.Publishes? then [e.msg] else []
      ensures joined == if e.Registers? then old(joined)[e.client := |old(said)|] else old(joined)
    {
      match e {
        case Registers(c) => RegisterWith(c, load);
        case Unregisters(c) => UnregisterFrom(c, load);
        case Publishes(msg) => BroadcastTo(msg, load);
      }
    }

    /** What the first events have made of the hub. */
    ghost predicate HasHandled(events: seq<HubEvent>, was: map<Client, nat>, said0: seq<Message>,
                               joined0: map<Client, nat>)
      reads this, clients
    {
      && Valid() && Loaded(LoadAfter(events, was))
      && said == said0 + Published(events) && joined == JoinedAfter(events, joined0, |said0|)
      && OnlyRejoined(events, clients)
    }

    /** Event number `i`. */
    method HandleNext(events: seq<HubEvent>, i: nat, ghost was: map<Client, nat>, ghost said0: seq<Message>,
                      ghost joined0: map<Client, nat>)
      requires i < |events| && HasHandled(events[..i], was, said0, joined0)
      requires events[i].Registers? ==> events[i].client !in clients && IsNew(events[i].client)
      modifies this, clients, if events[i].Publishes? then {} else {events[i].client}
      ensures HasHandled(events[..i + 1], was, said0, joined0)
      ensures clients <= old(clients) + if events[i].Registers? then {events[i].client} else {}
      ensures events[i].Unregisters? && events[i].client !in old(clients) && old(IsNew(events[i].client)) ==>
        IsNew(events[i].client)
    {
      ghost var before := clients;
      assert events[..i + 1][..i] == events[..i];
      Handle(events[i], LoadAfter(events[..i], was));
      RejoinedStep(events, i, before, clients);
    }

    /** The event loop until its context is cancelled. Whatever the order of events, a
        client is registered afterwards exactly if it was registered, before or by an
        event, has not left since, and its buffer took all broadcasts since; and
        everyone registered has been sent all of them. */
    method Start(events: seq<HubEvent>)
      requires Valid()
      requires forall i :: 0 <= i < |events| && events[i].Registers? ==>
        events[i].client !in clients && IsNew(events[i].client)
      requires forall i, j :: 0 <= i < j < |events| && events[i].Registers? && events[j].Registers? ==>
        events[i].client != events[j].client
      modifies this, clients, ClientsIn(events)
      ensures Valid() && said == old(said) + Published(events)
      ensures joined == JoinedAfter(events, old(joined), |old(said)|)
      ensures forall c :: c in clients <==> Stays(events, old(Loads()), c)
      ensures OnlyRejoined(events, clients)
    {
      ghost var was, said0, joined0 := Loads(), said, joined;
      for i := 0 to |events|
        invariant HasHandled(events[..i], was, said0, joined0) && clients <= old(clients) + ClientsIn(events)
        invariant forall j :: i <= j < |events| && events[j].Registers? ==>
          events[j].client !in clients && IsNew(events[j].client)
      {
        assert !events[i].Publishes? ==> events[i].client in ClientsIn(events);
        HandleNext(events, i, was, said0, joined0);
      }
      assert events[..|events|] == events;
      forall c ensures c in clients <==> Stays(events, was, c) { StaysIff(events, was, c); }
    }
  }

  /** As `NewClient` leaves it. */
  ghost predicate IsNew(c: Client)
    reads c
  {
    c.Valid() && !c.closed && c.put == []
  }

  /** The client's part in a broadcast is done. */
  ghost predicate Given(c: Client, send: Chan, put: seq<Message>, msg: Message)
    reads c
  {
    && c.Valid() && Chan(c.buffer, c.closed) == Offer(send, msg)
    && c.put == if |send.buffer| < SEND_BUFFER_SIZE then put + [msg] else put
  }
}
