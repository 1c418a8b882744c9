/**
  The SocketIO adapter class of src/strategy.js.

  The adapter keeps the socket.io server instance it created (`inst`, null
  until `CreateSocket`) and the connection callbacks `Connect` registered.
  Every call it makes on an object it does not own, and every local event it
  emits, is appended to `trace`; each method's contract says exactly which
  records it appends.
 */
module Strategy {
  import opened Engine
  import opened Routing

  /** The `{ event, target, data }` object passed to `broadcast`; `broadcast` writes its `target`. */
  class BroadcastIntent {
    var event: string
    var target: Target
    var data: seq<Value>

    constructor (event: string, target: Target, data: seq<Value>)
      ensures this.event == event && this.target == target && this.data == data
    {
      this.event, this.target, this.data := event, target, data;
    }
  }

  /** An inbound request; `socket` is the handle of the connection it arrived on. */
  datatype Request = Request(socket: Handle)

  /** The callback `connect(name, ...)` subscribes to the namespace's connections. */
  datatype ConnectionCallback = ConnectionCallback(name: string, nsp: Nsp)

  /** How a call ended: with a value, or with an exception propagating out of it. */
  datatype Outcome<T> = Returned(value: T) | Threw(error: JsError)

  /** `TypeError`: a property was read from `undefined`. */
  datatype JsError = TypeError

  /**
    The trace `Connect` builds call by call is the old trace followed by
    `ConnectCalls`, and it holds no more emissions than before.
   */
  lemma ConnectTrace(start: seq<Call>, server: IoServer, name: string, middleware: seq<Fn>)
    ensures start + [Of(server, name)] + UseCalls(Nsp(server, name), middleware) + [OnConnection(Nsp(server, name))]
         == start + ConnectCalls(server, name, middleware)
    ensures Emissions(start + ConnectCalls(server, name, middleware)) == Emissions(start)
  {
    var nsp := Nsp(server, name);
    var calls := ConnectCalls(server, name, middleware);
    assert calls == [Of(server, name)] + UseCalls(nsp, middleware) + [OnConnection(nsp)];
    assert start + [Of(server, name)] + UseCalls(nsp, middleware) + [OnConnection(nsp)] == start + calls;
    ConnectAddsNoEmission(start, server, name, middleware);
  }

  /**
    Extending a trace keeps every subscription it recorded; with `more` ending
    in the subscription of `cbs`' last callback, all of `cbs` are recorded.
   */
  lemma SubscriptionsKept(cbs: seq<ConnectionCallback>, start: seq<Call>, more: seq<Call>)
    requires cbs != [] && more != [] && more[|more| - 1] == OnConnection(cbs[|cbs| - 1].nsp)
    requires forall i :: 0 <= i < |cbs| - 1 ==> OnConnection(cbs[i].nsp) in start
    ensures forall cb :: cb in cbs ==> OnConnection(cb.nsp) in start + more
  {
    var all := start + more;
    assert all[|all| - 1] == OnConnection(cbs[|cbs| - 1].nsp);
    forall cb | cb in cbs ensures OnConnection(cb.nsp) in all {
      var i :| 0 <= i < |cbs| && cbs[i] == cb;
      if i < |cbs| - 1 {
        assert OnConnection(cb.nsp) in start;
      }
    }
  }

  class SocketIO {
    /** The socket.io server instance; null while unbound. */
    var inst: IoServer?
    /** The connection callbacks registered by `Connect`, oldest first. */
    var callbacks: seq<ConnectionCallback>
    /** Every call made on a foreign object and every local event emitted, oldest first. */
    var trace: seq<Call>

    /**
      Each registered callback listens on the namespace of its own name, and
      its subscription to that namespace's connections is in the trace.
     */
    ghost predicate Valid()
      reads this
    {
      forall cb :: cb in callbacks ==> cb.nsp.name == cb.name && OnConnection(cb.nsp) in trace
    }

    constructor ()
      ensures Valid()
      ensures inst == null && callbacks == [] && trace == []
    {
      inst, callbacks, trace := null, [], [];
    }

    /**
      Fills in a missing target with the sender's id, then emits exactly
      once: through `nsp.to(target)` for a truthy target, on the namespace
      itself otherwise.
     */
    method Broadcast(request: Request, intent: BroadcastIntent)
      requires Valid()
      modifies this`trace, intent`target
      ensures Valid()
      ensures intent.target == ResolveTarget(old(intent.target), request.socket.socket.id)
      ensures trace == old(trace) + Dispatch(request.socket.nsp, intent.target, intent.event, intent.data)
      ensures Emissions(trace) == Emissions(old(trace)) +
        [Emit(Route(request.socket.nsp, old(intent.target), request.socket.socket.id), EmitArgs(intent.event, intent.data))]
    {
      if intent.target.Unset? {
        var id := GetSocketId(request.socket);
        intent.target := Str(id);
      }
      var nsp := request.socket.nsp;
      var args := [Text(intent.event)] + intent.data;
      if intent.target.Str? && intent.target.s != "" {
        var self := Room(nsp, intent.target.s);
        trace := trace + [To(nsp, intent.target.s)];
        trace := trace + [Emit(self, args)];
      } else {
        var self := Everyone(nsp);
        trace := trace + [Emit(self, args)];
      }
      EmissionsAppend(old(trace), Dispatch(nsp, intent.target, intent.event, intent.data));
    }

    /**
      On a bound adapter: looks up the namespace, attaches the middleware in
      list order, subscribes to its connections and returns the adapter
      itself. Unbound, reading `of` from the missing server throws before
      any call is made.
     */
    method Connect(name: string, middleware: seq<Fn>) returns (r: Outcome<SocketIO>)
      requires Valid()
      modifies this`trace, this`callbacks
      ensures Valid()
      ensures old(inst) == null ==> r == Threw(TypeError) && trace == old(trace) && callbacks == old(callbacks)
      ensures old(inst) != null ==>
        && r == Returned(this)
        && trace == old(trace) + ConnectCalls(inst, name, middleware)
        && callbacks == old(callbacks) + [ConnectionCallback(name, Nsp(inst, name))]
      ensures Emissions(trace) == Emissions(old(trace))
    {
      if inst == null {
        return Threw(TypeError);
      }
      var server := inst;
      var nsp := Nsp(server, name);
      ghost var start := trace;
      trace := trace + [Of(server, name)];
      for i := 0 to |middleware|
        invariant trace == start + [Of(server, name)] + UseCalls(nsp, middleware[..i])
        invariant callbacks == old(callbacks)
      {
        UseCallsSnoc(nsp, middleware[..i], middleware[i]);
        assert middleware[..i + 1] == middleware[..i] + [middleware[i]];
        trace := trace + [Use(nsp, middleware[i])];
      }
      assert middleware[..|middleware|] == middleware;
      trace := trace + [OnConnection(nsp)];
      ghost var calls := ConnectCalls(server, name, middleware);
      ConnectTrace(start, server, name, middleware);
      SubscriptionsKept(callbacks + [ConnectionCallback(name, nsp)], start, calls);
      callbacks := callbacks + [ConnectionCallback(name, nsp)];
      r := Returned(this);
    }

    /**
      The engine invoking the `k`-th registered connection callback for a new
      connection `socket`: one local `${name}_connected` event carrying the
      socket and the namespace.
     */
    method ConnectionArrived(k: nat, socket: Conn)
      requires Valid()
      requires k < |callbacks|
      modifies this`trace
      ensures Valid()
      ensures trace == old(trace) + [LocalEmit(ConnectedEvent(callbacks[k].name), Handle(socket, callbacks[k].nsp))]
      ensures Emissions(trace) == Emissions(old(trace))
      ensures ConnectedEvent(callbacks[k].name) == ConnectedEvent(callbacks[k].nsp.name)
      ensures OnConnection(callbacks[k].nsp) in old(trace)
    {
      var cb := callbacks[k];
      trace := trace + [LocalEmit(ConnectedEvent(cb.name), Handle(socket, cb.nsp))];
      EmissionsAppend(old(trace), [LocalEmit(ConnectedEvent(cb.name), Handle(socket, cb.nsp))]);
    }

    /** Builds a fresh socket.io server on the host's raw listener and keeps it. */
    method CreateSocket(server: HostServer)
      requires Valid()
      modifies this`inst, this`trace
      ensures Valid()
      ensures fresh(inst) && inst.raw == server.raw
      ensures trace == old(trace) + [GetRawServer(server), Io(server.raw)]
    {
      trace := trace + [GetRawServer(server)];
      var raw := server.raw;
      trace := trace + [Io(raw)];
      inst := new IoServer(raw);
    }

    /** Closes the handle's connection. */
    method Disconnect(obj: Handle)
      requires Valid()
      modifies this`trace
      ensures Valid()
      ensures trace == old(trace) + [DisconnectCall(obj.socket)]
    {
      trace := trace + [DisconnectCall(obj.socket)];
    }

    /** The identifier the engine gave the handle's connection. */
    method GetSocketId(obj: Handle) returns (id: string)
      ensures id == obj.socket.id
    {
      id := obj.socket.id;
    }

    /** Puts the handle's connection in `channel`. */
    method JoinChannel(obj: Handle, channel: string)
      requires Valid()
      modifies this`trace
      ensures Valid()
      ensures trace == old(trace) + [Join(obj.socket, channel)]
    {
      trace := trace + [Join(obj.socket, channel)];
    }

    /** Takes the handle's connection out of `channel`. */
    method LeaveChannel(obj: Handle, channel: string)
      requires Valid()
      modifies this`trace
      ensures Valid()
      ensures trace == old(trace) + [Leave(obj.socket, channel)]
    {
      trace := trace + [Leave(obj.socket, channel)];
    }

    /** Registers `fn` for inbound `event`s on the handle's connection. */
    method Listen(obj: Handle, event: string, fn: Fn)
      requires Valid()
      modifies this`trace
      ensures Valid()
      ensures trace == old(trace) + [On(obj.socket, event, fn)]
    {
      trace := trace + [On(obj.socket, event, fn)];
    }
  }

  /** The first broadcast case of the unit tests: no target, so the sender's own id. */
  method UnsetTargetScenario(nsp: Nsp)
  {
    var request := Request(Handle(Conn(0, "socketId"), nsp));
    var adapter := new SocketIO();
    var args := [Text("some event"), Number(1), Number(2), Number(5)];
    assert EmitArgs("some event", [Number(1), Number(2), Number(5)]) == args;
    var intent := new BroadcastIntent("some event", Unset, [Number(1), Number(2), Number(5)]);
    adapter.Broadcast(request, intent);
    assert intent.target == Str("socketId");
    assert adapter.trace == [To(nsp, "socketId"), Emit(Room(nsp, "socketId"), args)];
  }

  /** The second broadcast case of the unit tests: an explicit target, addressed exactly. */
  method ExplicitTargetScenario(nsp: Nsp)
  {
    var request := Request(Handle(Conn(0, "socketId"), nsp));
    var adapter := new SocketIO();
    var args := [Text("some event2"), Number(1), Number(2), Number(5), Number(6)];
    assert EmitArgs("some event2", [Number(1), Number(2), Number(5), Number(6)]) == args;
    var intent := new BroadcastIntent("some event2", Str("some target"), [Number(1), Number(2), Number(5), Number(6)]);
    adapter.Broadcast(request, intent);
    assert intent.target == Str("some target");
    assert adapter.trace == [To(nsp, "some target"), Emit(Room(nsp, "some target"), args)];
  }

  /** The third broadcast case of the unit tests: a null target, emitted on the namespace itself. */
  method NullTargetScenario(nsp: Nsp)
  {
    var request := Request(Handle(Conn(0, "socketId"), nsp));
    var adapter := new SocketIO();
    var args := [Text("some2 event2"), Number(1), Number(3), Number(5)];
    assert EmitArgs("some2 event2", [Number(1), Number(3), Number(5)]) == args;
    var intent := new BroadcastIntent("some2 event2", Null, [Number(1), Number(3), Number(5)]);
    adapter.Broadcast(request, intent);
    assert intent.target == Null;
    assert adapter.trace == [Emit(Everyone(nsp), args)];
  }
}
