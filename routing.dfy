/**
  The decisions inside the SocketIO adapter (src/strategy.js), as functions:
  how `broadcast` resolves its target and which calls it then makes, and which
  calls `connect` makes. The adapter class in module Strategy performs exactly
  these calls; the contracts here say what they mean.
 */
module Routing {
  import opened Engine

  /**
    The `target` of a broadcast intent: absent (`undefined`), explicitly
    `null`, or a string (possibly empty).
   */
  datatype Target = Unset | Null | Str(s: string)

  /** JavaScript truthiness of a target: only a non-empty string is truthy. */
  predicate Truthy(t: Target)
  {
    t.Str? && t.s != ""
  }

  /** The target after `broadcast` has filled in a missing one with the sender's id. */
  function ResolveTarget(t: Target, senderId: string): (r: Target)
    ensures !r.Unset?
    ensures r == t <==> !t.Unset?
    ensures t.Unset? ==> r == Str(senderId)
  {
    if t.Unset? then Str(senderId) else t
  }

  /**
    Resolving is idempotent: once `broadcast` has filled in the target, the
    same intent object broadcast again, from any connection, keeps it.
   */
  lemma ResolveTargetIdempotent(t: Target, firstSender: string, laterSender: string)
    ensures ResolveTarget(ResolveTarget(t, firstSender), laterSender) == ResolveTarget(t, firstSender)
  {
  }

  /** The argument list of an emit: the event name, then the data in its own order. */
  function EmitArgs(event: string, data: seq<Value>): (args: seq<Value>)
    ensures |args| == |data| + 1
    ensures args[0] == Text(event)
    ensures forall i :: 0 <= i < |data| ==> args[i + 1] == data[i]
  {
    [Text(event)] + data
  }

  /** Whom an emit with (already resolved) target `t` reaches. */
  function Addressed(nsp: Nsp, t: Target): (a: Addressee)
    ensures a.nsp == nsp
    ensures a.Room? <==> Truthy(t)
    ensures a.Room? ==> t == Str(a.target)
  {
    if Truthy(t) then Room(nsp, t.s) else Everyone(nsp)
  }

  /**
    The routing rule of `broadcast` from the intent's target as given: an
    unset target echoes to the sender, a non-empty target is addressed
    exactly, and a null or empty target reaches the whole namespace.
   */
  function Route(nsp: Nsp, t: Target, senderId: string): (a: Addressee)
    ensures t.Unset? && senderId != "" ==> a == Room(nsp, senderId)
    ensures t.Str? && t.s != "" ==> a == Room(nsp, t.s)
    ensures t.Null? || t == Str("") ==> a == Everyone(nsp)
    ensures t.Unset? && senderId == "" ==> a == Everyone(nsp)
    ensures !t.Unset? ==> a == Addressed(nsp, t)
  {
    Addressed(nsp, ResolveTarget(t, senderId))
  }

  /**
    The calls `broadcast` makes once its target is `t`: for a truthy target
    one `nsp.to(t)` followed by one emit on what it returns; otherwise one
    emit on the namespace itself and nothing else.
   */
  function Dispatch(nsp: Nsp, t: Target, event: string, data: seq<Value>): (calls: seq<Call>)
    ensures Emissions(calls) == [Emit(Addressed(nsp, t), EmitArgs(event, data))]
    ensures calls[|calls| - 1] == Emit(Addressed(nsp, t), EmitArgs(event, data))
    ensures Truthy(t) ==> calls == [To(nsp, t.s), Emit(Room(nsp, t.s), EmitArgs(event, data))]
    ensures forall c :: c in calls && !c.Emit? ==> Truthy(t) && c == To(nsp, t.s)
    ensures (exists c :: c in calls && c.To?) <==> Truthy(t)
  {
    var emit := Emit(Addressed(nsp, t), EmitArgs(event, data));
    if Truthy(t) then
      assert [To(nsp, t.s), emit][1..] == [emit];
      [To(nsp, t.s), emit]
    else
      assert [emit][1..] == [];
      [emit]
  }

  /** The `nsp.use` calls of `middleware.forEach(fn => nsp.use(fn))`. */
  function UseCalls(nsp: Nsp, middleware: seq<Fn>): (calls: seq<Call>)
    ensures |calls| == |middleware|
    ensures forall i :: 0 <= i < |middleware| ==> calls[i] == Use(nsp, middleware[i])
  {
    if middleware == [] then []
    else [Use(nsp, middleware[0])] + UseCalls(nsp, middleware[1..])
  }

  /** Registering one more middleware adds its `use` call after all earlier ones. */
  lemma UseCallsSnoc(nsp: Nsp, middleware: seq<Fn>, fn: Fn)
    ensures UseCalls(nsp, middleware + [fn]) == UseCalls(nsp, middleware) + [Use(nsp, fn)]
  {
    var l, r := UseCalls(nsp, middleware + [fn]), UseCalls(nsp, middleware) + [Use(nsp, fn)];
    assert |l| == |r|;
    forall i | 0 <= i < |l| ensures l[i] == r[i] {
      assert (middleware + [fn])[i] == if i < |middleware| then middleware[i] else fn;
    }
  }

  /**
    The calls `connect(name, middleware)` makes on a bound server: one
    `of(name)`, then one `use` per middleware in list order, then one
    subscription to the namespace's connections.
   */
  function ConnectCalls(server: IoServer, name: string, middleware: seq<Fn>): (calls: seq<Call>)
    ensures |calls| == |middleware| + 2
    ensures calls[0] == Of(server, name)
    ensures forall i :: 0 <= i < |middleware| ==> calls[i + 1] == Use(Nsp(server, name), middleware[i])
    ensures calls[|calls| - 1] == OnConnection(Nsp(server, name))
    ensures forall i :: 0 < i < |calls| ==> !calls[i].Of?
    ensures Emissions(calls) == []
  {
    var nsp := Nsp(server, name);
    var calls := [Of(server, name)] + UseCalls(nsp, middleware) + [OnConnection(nsp)];
    assert forall c :: c in calls ==> !c.Emit?;
    calls
  }

  /** Whatever trace `connect` extends, it reaches no client: the trace's emissions stay as they were. */
  lemma ConnectAddsNoEmission(start: seq<Call>, server: IoServer, name: string, middleware: seq<Fn>)
    ensures Emissions(start + ConnectCalls(server, name, middleware)) == Emissions(start)
  {
    EmissionsAppend(start, ConnectCalls(server, name, middleware));
  }

  /** The name of the local event `connect` emits for each new connection: `${name}_connected`. */
  function ConnectedEvent(name: string): (event: string)
    ensures |event| == |name| + 10
    ensures event[..|name|] == name
    ensures event[|name|..] == "_connected"
  {
    name + "_connected"
  }

  /** Different namespaces announce their connections under different event names. */
  lemma ConnectedEventInjective(a: string, b: string)
    ensures ConnectedEvent(a) == ConnectedEvent(b) ==> a == b
  {
    if ConnectedEvent(a) == ConnectedEvent(b) {
      assert a == ConnectedEvent(a)[..|a|];
      assert b == ConnectedEvent(b)[..|b|];
    }
  }
}
