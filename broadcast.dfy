/**
 The replaying broadcast channel (`WebSocketsManager`).

 `add`, `write` and `close` run under the manager's one lock, so each is one
 atomic step of a sequential state machine over the history list, the set of
 attached subscribers, the map from subscriber to its disconnect event and the
 closed flag; `_remove` and `_send_bytes_to` run inside those steps, and the
 lock-free `is_closed` only reads the flag. Whether a send to a subscriber fails is not under the
 manager's control: each operation takes the set of subscribers whose sends
 fail during that call.

 The ghost fields describe what the subscribers see: `Delivered[ws]` is what
 `ws` has received since its latest `Add`, and `Faithful` holds the
 subscribers none of whose sends failed since their latest `Add`.
 */
module Broadcast {

  /** An `asyncio.Event`: a one-shot flag that an observer's connection waits on. */
  class DisconnectEvent {
    var isSet: bool

    constructor ()
      ensures !isSet
    {
      isSet := false;
    }

    method Set()
      modifies this
      ensures isSet
    {
      isSet := true;
    }
  }

  class WebSocketsManager<Sub(==), Chunk> {
    var history: seq<Chunk>
    var websockets: set<Sub>
    var disconnectEvents: map<Sub, DisconnectEvent>
    var closed: bool

    ghost var Delivered: map<Sub, seq<Chunk>>
    ghost var Faithful: set<Sub>

    /** The manager's invariant: every attached subscriber has a disconnect
        event, no two subscribers share an event, and a subscriber that is
        attached and never missed a send has received the history exactly;
        one that never missed a send has received a prefix. */
    ghost predicate Valid()
      reads this
    {
      && Attached()
      && (forall ws :: ws in Faithful && ws in websockets ==> Delivered[ws] == history)
    }

    /** The part of `Valid` that also holds inside `write`, between the
        append to the history and the end of the fan-out. */
    ghost predicate Attached()
      reads this
    {
      && websockets <= disconnectEvents.Keys
      && (forall a, b :: a in disconnectEvents && b in disconnectEvents && a != b ==>
            disconnectEvents[a] != disconnectEvents[b])
      && websockets <= Delivered.Keys
      && Faithful <= Delivered.Keys
      && (forall ws :: ws in Faithful ==> Delivered[ws] <= history)
    }

    /** No attached subscriber's disconnect event is set: whoever waits on
        one is still connected. Every operation keeps this. */
    ghost predicate Pending()
      reads this`websockets, this`disconnectEvents, disconnectEvents.Values
    {
      forall ws :: ws in websockets && ws in disconnectEvents ==> !disconnectEvents[ws].isSet
    }

    constructor ()
      ensures Valid() && Pending()
      ensures history == [] && websockets == {} && disconnectEvents == map[] && !closed
      ensures Delivered == map[] && Faithful == {}
    {
      history := [];
      websockets := {};
      disconnectEvents := map[];
      closed := false;
      Delivered := map[];
      Faithful := {};
    }

    /** `_is_connected`: whether `ws` is attached. */
    predicate IsConnected(ws: Sub)
      reads this
    {
      ws in websockets
    }

    /** `is_closed`. */
    predicate IsClosed()
      reads this
    {
      closed
    }

    /** `_send_bytes_to`: sends `b` to `ws`; the answer is true when the
        connection is gone, which here means `ws` is among `failing`. */
    method SendBytesTo(ws: Sub, b: Chunk, failing: set<Sub>) returns (disconnected: bool)
      requires ws in Delivered
      modifies this`Delivered, this`Faithful
      ensures disconnected <==> ws in failing
      ensures Delivered == old(Delivered)[ws := if disconnected then old(Delivered[ws]) else old(Delivered[ws]) + [b]]
      ensures Faithful == if disconnected then old(Faithful) - {ws} else old(Faithful)
    {
      disconnected := ws in failing;
      if disconnected {
        Faithful := Faithful - {ws};
      } else {
        Delivered := Delivered[ws := Delivered[ws] + [b]];
      }
    }

    /** `add`: attaches `ws` with a fresh, unset disconnect event and replays
        the whole history to it in order. The closed flag is not consulted and
        the outcome of the replay sends is ignored: a failed replay leaves `ws`
        attached. */
    method Add(ws: Sub, failing: set<Sub>)
      requires Valid()
      modifies this
      ensures Valid() && (old(Pending()) ==> Pending())
      ensures IsConnected(ws) && websockets == old(websockets) + {ws}
      ensures ws in disconnectEvents && fresh(disconnectEvents[ws]) && !disconnectEvents[ws].isSet
      ensures disconnectEvents == old(disconnectEvents)[ws := disconnectEvents[ws]]
      ensures history == old(history) && closed == old(closed)
      ensures var replayFailed := ws in failing && history != [];
              && Delivered == old(Delivered)[ws := if replayFailed then [] else history]
              && Faithful == if replayFailed then old(Faithful) - {ws} else old(Faithful) + {ws}
    {
      Attach(ws);
      Replay(ws, failing);
      forall other | other in Faithful && other in websockets && other != ws
        ensures Delivered[other] == history
      {
        assert other in old(Faithful) && other in old(websockets);
      }
    }

    /** The first half of `add`: `ws` is attached with a fresh, unset
        disconnect event and has received nothing yet. */
    method Attach(ws: Sub)
      requires Valid()
      modifies this`websockets, this`disconnectEvents, this`Delivered, this`Faithful
      ensures Attached()
      ensures forall other :: other in Faithful && other in websockets && other != ws ==> Delivered[other] == history
      ensures old(Pending()) ==> Pending()
      ensures websockets == old(websockets) + {ws}
      ensures ws in disconnectEvents && fresh(disconnectEvents[ws]) && !disconnectEvents[ws].isSet
      ensures disconnectEvents == old(disconnectEvents)[ws := disconnectEvents[ws]]
      ensures Delivered == old(Delivered)[ws := []] && Faithful == old(Faithful) + {ws}
    {
      websockets := websockets + {ws};
      var event := new DisconnectEvent();
      disconnectEvents := disconnectEvents[ws := event];
      Delivered := Delivered[ws := []];
      Faithful := Faithful + {ws};
    }

    /** The replay loop of `add`: the history, oldest entry first, is sent
        to `ws`, which has received nothing yet. */
    method Replay(ws: Sub, failing: set<Sub>)
      requires ws in Delivered && Delivered[ws] == [] && ws in Faithful
      modifies this`Delivered, this`Faithful
      ensures Delivered == old(Delivered)[ws := if ws in failing then [] else history]
      ensures Faithful == if ws in failing && history != [] then old(Faithful) - {ws} else old(Faithful)
    {
      for i := 0 to |history|
        invariant Delivered == old(Delivered)[ws := if ws in failing then [] else history[..i]]
        invariant Faithful == if ws in failing && i > 0 then old(Faithful) - {ws} else old(Faithful)
      {
        assert history[..i + 1] == history[..i] + [history[i]];
        var _ := SendBytesTo(ws, history[i], failing);
      }
      assert history[..|history|] == history;
    }

    /** `_remove`: detaches `ws`, sets its disconnect event and forgets the
        event. Called only for an attached subscriber, under the lock. */
    method Remove(ws: Sub)
      requires Valid()
      requires ws in websockets
      modifies this`websockets, this`disconnectEvents, disconnectEvents[ws]
      ensures Valid() && (old(Pending()) ==> Pending())
      ensures !IsConnected(ws) && websockets == old(websockets) - {ws}
      ensures disconnectEvents == old(disconnectEvents) - {ws}
      ensures old(disconnectEvents[ws]).isSet
    {
      var event := disconnectEvents[ws];
      websockets := websockets - {ws};
      event.Set();
      disconnectEvents := disconnectEvents - {ws};
    }

    /** `close`: sets the event of every attached subscriber, marks the
        channel closed and detaches everyone. The events stay in the map. */
    method Close()
      requires Valid()
      modifies this, disconnectEvents.Values
      ensures Valid() && Pending()
      ensures IsClosed() && websockets == {}
      ensures history == old(history) && disconnectEvents == old(disconnectEvents)
      ensures Delivered == old(Delivered) && Faithful == old(Faithful)
      ensures forall ws :: ws in old(websockets) ==> disconnectEvents[ws].isSet
      ensures forall ws :: ws in disconnectEvents && ws !in old(websockets) ==>
                disconnectEvents[ws].isSet == old(disconnectEvents[ws].isSet)
    {
      var pending := websockets;
      while pending != {}
        modifies disconnectEvents.Values
        invariant pending <= websockets
        invariant forall ws :: ws in websockets - pending ==> disconnectEvents[ws].isSet
        invariant forall ws :: ws in disconnectEvents && ws !in websockets - pending ==>
                    disconnectEvents[ws].isSet == old(disconnectEvents[ws].isSet)
        decreases pending
      {
        var ws :| ws in pending;
        disconnectEvents[ws].Set();
        pending := pending - {ws};
      }
      closed := true;
      websockets := {};
    }

    /** `write`: appends `b` to the history, whether or not the channel is
        closed, then sends it to every attached subscriber; those whose send
        failed are removed once the fan-out is over. The source returns early
        when nobody is attached; here that case is the empty fan-out, which
        leaves the same state. */
    method Write(b: Chunk, failing: set<Sub>)
      requires Valid()
      modifies this, disconnectEvents.Values
      ensures Valid() && (old(Pending()) ==> Pending())
      ensures history == old(history) + [b] && closed == old(closed)
      ensures websockets == old(websockets) - failing
      ensures disconnectEvents == old(disconnectEvents) - (old(websockets) * failing)
      ensures disconnectEvents.Values <= old(disconnectEvents.Values)
      ensures forall ws :: ws in old(websockets) * failing ==> old(disconnectEvents[ws]).isSet
      ensures forall ws :: ws in disconnectEvents ==> disconnectEvents[ws].isSet == old(disconnectEvents[ws].isSet)
      ensures Delivered.Keys == old(Delivered.Keys)
      ensures forall ws :: ws in old(websockets) - failing ==> Delivered[ws] == old(Delivered[ws]) + [b]
      ensures forall ws :: ws in Delivered && ws !in old(websockets) - failing ==> Delivered[ws] == old(Delivered[ws])
      ensures Faithful == old(Faithful) - (old(websockets) * failing)
    {
      Append(b);
      Broadcast(b, failing);
    }

    /** The first step of `write`: `b` joins the history. The subscribers
        that were up to date are now exactly one entry behind. */
    method Append(b: Chunk)
      requires Valid()
      modifies this`history
      ensures history == old(history) + [b]
      ensures Attached() && (old(Pending()) ==> Pending())
      ensures forall ws :: ws in Faithful && ws in websockets ==> Delivered[ws] + [b] == history
    {
      ghost var before := history;
      ghost var pending := Pending();
      history := history + [b];
      assert Pending() == pending;
      forall ws | ws in Faithful
        ensures Delivered[ws] <= history
      {
        assert Delivered[ws] <= before;
      }
    }

    /** The broadcast portion of `write`, once `b` is the last history entry:
        the fan-out, then the removal of the subscribers whose send failed. */
    method Broadcast(b: Chunk, failing: set<Sub>)
      requires Attached()
      requires forall ws :: ws in Faithful && ws in websockets ==> Delivered[ws] + [b] == history
      modifies this`websockets, this`disconnectEvents, this`Delivered, this`Faithful, disconnectEvents.Values
      ensures Valid() && (old(Pending()) ==> Pending())
      ensures websockets == old(websockets) - failing
      ensures disconnectEvents == old(disconnectEvents) - (old(websockets) * failing)
      ensures forall ws :: ws in old(websockets) * failing ==> old(disconnectEvents[ws]).isSet
      ensures forall ws :: ws in disconnectEvents ==> disconnectEvents[ws].isSet == old(disconnectEvents[ws].isSet)
      ensures Delivered.Keys == old(Delivered.Keys)
      ensures forall ws :: ws in old(websockets) - failing ==> Delivered[ws] == old(Delivered[ws]) + [b]
      ensures forall ws :: ws in Delivered && ws !in old(websockets) - failing ==> Delivered[ws] == old(Delivered[ws])
      ensures Faithful == old(Faithful) - (old(websockets) * failing)
      ensures disconnectEvents.Values <= old(disconnectEvents.Values)
    {
      var toRemove := FanOut(b, failing);
      RemoveAll(toRemove);
      forall e | e in disconnectEvents.Values
        ensures e in old(disconnectEvents.Values)
      {
        var ws :| ws in disconnectEvents && disconnectEvents[ws] == e;
        assert ws in old(disconnectEvents);
      }
    }

    /** The broadcast loop of `write`: sends `b` to each attached subscriber
        and collects those whose connection is gone. */
    method FanOut(b: Chunk, failing: set<Sub>) returns (toRemove: set<Sub>)
      requires websockets <= Delivered.Keys
      modifies this`Delivered, this`Faithful
      ensures toRemove == websockets * failing
      ensures Delivered.Keys == old(Delivered.Keys)
      ensures forall ws :: ws in websockets - failing ==> Delivered[ws] == old(Delivered[ws]) + [b]
      ensures forall ws :: ws in Delivered && ws !in websockets - failing ==> Delivered[ws] == old(Delivered[ws])
      ensures Faithful == old(Faithful) - toRemove
    {
      toRemove := {};
      var pending := websockets;
      while pending != {}
        invariant pending <= websockets
        invariant toRemove == (websockets - pending) * failing
        invariant Delivered.Keys == old(Delivered.Keys)
        invariant forall ws :: ws in (websockets - pending) - failing ==> Delivered[ws] == old(Delivered[ws]) + [b]
        invariant forall ws :: ws in Delivered && ws !in (websockets - pending) - failing ==> Delivered[ws] == old(Delivered[ws])
        invariant Faithful == old(Faithful) - toRemove
        decreases pending
      {
        var ws :| ws in pending;
        var shouldRemove := SendBytesTo(ws, b, failing);
        if shouldRemove {
          toRemove := toRemove + {ws};
        }
        pending := pending - {ws};
      }
    }

    /** The removal loop of `write`: `_remove` for each collected subscriber. */
    method RemoveAll(toRemove: set<Sub>)
      requires Valid()
      requires toRemove <= websockets
      modifies this`websockets, this`disconnectEvents, disconnectEvents.Values
      ensures Valid() && (old(Pending()) ==> Pending())
      ensures websockets == old(websockets) - toRemove
      ensures disconnectEvents == old(disconnectEvents) - toRemove
      ensures forall ws :: ws in toRemove ==> old(disconnectEvents[ws]).isSet
      ensures forall ws :: ws in disconnectEvents ==> disconnectEvents[ws].isSet == old(disconnectEvents[ws].isSet)
    {
      var removing := toRemove;
      while removing != {}
        invariant removing <= toRemove
        invariant Valid() && (old(Pending()) ==> Pending())
        invariant websockets == old(websockets) - (toRemove - removing)
        invariant disconnectEvents == old(disconnectEvents) - (toRemove - removing)
        invariant forall ws :: ws in toRemove - removing ==> old(disconnectEvents[ws]).isSet
        invariant forall ws :: ws in disconnectEvents ==> disconnectEvents[ws].isSet == old(disconnectEvents[ws].isSet)
        decreases removing
      {
        var ws :| ws in removing;
        Remove(ws);
        removing := removing - {ws};
      }
    }
  }
}
