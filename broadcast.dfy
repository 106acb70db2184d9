/**
 * The broadcast server (websocket_server.py).
 *
 * Class `Server` holds the set of connected clients and the unbounded queue of
 * events waiting to go out. A fan-out tries every client of a snapshot of the set
 * and afterwards removes exactly those whose send failed; the heartbeat goes out
 * only while somebody is connected; a `ping` from a client is answered with a
 * `pong`. Clients are identified by number, whether a send succeeds is an
 * oracle, and what each client received is kept per client, in order.
 */
module Broadcast {

  type ClientId = nat

  /** An event handed to `broadcast`, in its serialised form. */
  type Payload = string

  /** What the server writes to a client. */
  datatype Message =
    | Event(data: Payload)
    | Heartbeat(timestamp: real)
    | ConnectionEstablished(timestamp: real)
    | Pong(timestamp: real)

  /** What a client writes: a `ping`, a well-formed message of another type, or text that is not JSON. */
  datatype ClientMessage = Ping | OtherType | Malformed

  /** The clients left after a fan-out: those of the snapshot whose send succeeded. */
  function Survivors(clients: set<ClientId>, ok: ClientId -> bool): (r: set<ClientId>)
    ensures r <= clients
    ensures forall c :: c in clients ==> (c in r <==> ok(c))
  {
    set c | c in clients && ok(c)
  }

  /** The clients a fan-out drops. */
  function Dead(clients: set<ClientId>, ok: ClientId -> bool): (r: set<ClientId>)
    ensures r <= clients
    ensures forall c :: c in clients ==> (c in r <==> !ok(c))
  {
    set c | c in clients && !ok(c)
  }

  /** Removing the dead leaves exactly the survivors, and the two never overlap. */
  lemma {:induction false} RemovingDeadLeavesSurvivors(clients: set<ClientId>, ok: ClientId -> bool)
    ensures clients - Dead(clients, ok) == Survivors(clients, ok)
    ensures Dead(clients, ok) * Survivors(clients, ok) == {}
    ensures Dead(clients, ok) + Survivors(clients, ok) == clients
  {
    var d, s := Dead(clients, ok), Survivors(clients, ok);
    forall c | c in clients - d ensures c in s {
    }
    forall c | c in s ensures c in clients - d {
    }
  }

  lemma DeadStep(done: set<ClientId>, c: ClientId, ok: ClientId -> bool)
    ensures Dead(done + {c}, ok) == Dead(done, ok) + (if ok(c) then {} else {c})
  {
    var l, r := Dead(done + {c}, ok), Dead(done, ok) + (if ok(c) then {} else {c});
    forall d | d in l ensures d in r {
    }
    forall d | d in r ensures d in l {
    }
  }

  lemma MoveOne(all: set<ClientId>, todo: set<ClientId>, c: ClientId)
    requires c in todo && todo <= all
    ensures all - (todo - {c}) == (all - todo) + {c}
  {
    var l, r := all - (todo - {c}), (all - todo) + {c};
    forall d | d in l ensures d in r {
    }
    forall d | d in r ensures d in l {
    }
  }

  class Server {
    var clients: set<ClientId>
    /** `message_queue`, oldest first. */
    var messageQueue: seq<Payload>
    var running: bool
    /** What each client was sent successfully. */
    var received: map<ClientId, seq<Message>>

    /** The messages client `c` has received so far. */
    function Inbox(c: ClientId): seq<Message>
      reads this
    {
      if c in received then received[c] else []
    }

    constructor ()
      ensures clients == {} && messageQueue == [] && running
      ensures forall c :: Inbox(c) == []
    {
      clients := {};
      messageQueue := [];
      running := true;
      received := map[];
    }

    method Stop()
      modifies this`running
      ensures !running
    {
      running := false;
    }

    /** `broadcast`: the queue has no bound, so the event always joins the tail. */
    method Push(data: Payload)
      modifies this`messageQueue
      ensures messageQueue == old(messageQueue) + [data]
    {
      messageQueue := messageQueue + [data];
    }

    /** Record one successful send to `c`. */
    method Deliver(c: ClientId, msg: Message)
      modifies this`received
      ensures Inbox(c) == old(Inbox(c)) + [msg]
      ensures forall d :: d != c ==> Inbox(d) == old(Inbox(d))
    {
      received := received[c := Inbox(c) + [msg]];
    }

    /**
     * `_do_broadcast`: nothing without clients; otherwise every client of a snapshot
     * is sent `msg` once, the ones whose send fails are collected, and only they are
     * removed once the whole snapshot has been tried.
     */
    method DoBroadcast(msg: Message, ok: ClientId -> bool)
      modifies this`clients, this`received
      ensures clients == Survivors(old(clients), ok)
      ensures forall c :: Inbox(c) == old(Inbox(c)) + (if c in old(clients) && ok(c) then [msg] else [])
    {
      if clients == {} {
        return;
      }
      var dead := SendToAll(clients, msg, ok);
      RemovingDeadLeavesSurvivors(clients, ok);
      clients := clients - dead;
    }

    /** The loop of `_do_broadcast` over a snapshot: try each client once and collect the failures. */
    method SendToAll(snapshot: set<ClientId>, msg: Message, ok: ClientId -> bool) returns (dead: set<ClientId>)
      modifies this`received
      ensures dead == Dead(snapshot, ok)
      ensures forall c :: Inbox(c) == old(Inbox(c)) + (if c in snapshot && ok(c) then [msg] else [])
    {
      var todo := snapshot;
      dead := {};
      ghost var done: set<ClientId> := {};
      while todo != {}
        invariant todo <= snapshot && done == snapshot - todo
        invariant dead == Dead(done, ok)
        invariant forall d :: Inbox(d) == old(Inbox(d)) + (if d in done && ok(d) then [msg] else [])
        decreases |todo|
      {
        var c :| c in todo;
        DeadStep(done, c, ok);
        MoveOne(snapshot, todo, c);
        if ok(c) {
          Deliver(c, msg);
        } else {
          dead := dead + {c};
        }
        todo, done := todo - {c}, done + {c};
      }
    }

    /** One tick of `_queue_processor`: while running, at most one event leaves the front and is fanned out. */
    method ProcessTick(ok: ClientId -> bool)
      modifies this`clients, this`received, this`messageQueue
      ensures !old(running) || old(messageQueue) == [] ==>
        messageQueue == old(messageQueue) && clients == old(clients)
        && forall c :: Inbox(c) == old(Inbox(c))
      ensures old(running) && old(messageQueue) != [] ==>
        && messageQueue == old(messageQueue)[1..]
        && clients == Survivors(old(clients), ok)
        && forall c :: Inbox(c) == old(Inbox(c)) + (if c in old(clients) && ok(c) then [Event(old(messageQueue)[0])] else [])
    {
      if !running || messageQueue == [] {
        return;
      }
      var data := messageQueue[0];
      messageQueue := messageQueue[1..];
      DoBroadcast(Event(data), ok);
    }

    /** One tick of `_heartbeat`: a heartbeat goes out only when some client is connected. */
    method HeartbeatTick(now: real, ok: ClientId -> bool)
      modifies this`clients, this`received
      ensures !old(running) || old(clients) == {} ==>
        clients == old(clients) && forall c :: Inbox(c) == old(Inbox(c))
      ensures old(running) && old(clients) != {} ==>
        && clients == Survivors(old(clients), ok)
        && forall c :: Inbox(c) == old(Inbox(c)) + (if c in old(clients) && ok(c) then [Heartbeat(now)] else [])
    {
      if !running || clients == {} {
        return;
      }
      DoBroadcast(Heartbeat(now), ok);
    }

    /**
     * A client connects: it joins the set and is sent `connection_established`; if
     * that send fails the session ends and the client leaves again.
     */
    method ClientConnected(c: ClientId, now: real, ok: bool)
      modifies this`clients, this`received
      ensures ok ==> clients == old(clients) + {c} && Inbox(c) == old(Inbox(c)) + [ConnectionEstablished(now)]
      ensures !ok ==> clients == old(clients) - {c} && Inbox(c) == old(Inbox(c))
      ensures forall d :: d != c ==> Inbox(d) == old(Inbox(d))
    {
      clients := clients + {c};
      if ok {
        Deliver(c, ConnectionEstablished(now));
      } else {
        clients := clients - {c};
      }
    }

    /**
     * A message from client `c`: a `ping` is answered with a `pong` (a failed reply
     * is swallowed); anything else, parsable or not, is ignored. The client set is
     * left alone either way.
     */
    method OnClientMessage(c: ClientId, m: ClientMessage, now: real, ok: bool)
      modifies this`received
      ensures m == Ping && ok ==> Inbox(c) == old(Inbox(c)) + [Pong(now)]
      ensures m != Ping || !ok ==> Inbox(c) == old(Inbox(c))
      ensures forall d :: d != c ==> Inbox(d) == old(Inbox(d))
    {
      if m == Ping && ok {
        Deliver(c, Pong(now));
      }
    }

    /** The session of `c` ends: it is discarded from the set (if a fan-out has not already dropped it). */
    method ClientDisconnected(c: ClientId)
      modifies this`clients
      ensures clients == old(clients) - {c}
    {
      clients := clients - {c};
    }
  }
}
