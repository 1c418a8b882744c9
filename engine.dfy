/**
  The socket.io engine and the host server, seen only from the adapter's side.

  Nothing here models what the engine does with a call: its objects are plain
  references (a namespace is named by the server instance it belongs to and
  its name, a connection by an opaque reference and its id), and every call the
  adapter makes on them is a `Call` record appended to a trace. The adapter's
  contracts are then statements about which records it appends, in what order.
 */
module Engine {

  /** The raw http(s) listener that the host server hands out. */
  datatype RawServer = RawServer(ref: nat)

  /** The host framework's server object; `getRawServer()` returns `raw`. */
  datatype HostServer = HostServer(ref: nat, raw: RawServer)

  /** A socket.io server instance, built by `io(raw)`; each call builds a new one. */
  class IoServer {
    const raw: RawServer

    constructor (raw: RawServer)
      ensures this.raw == raw
    {
      this.raw := raw;
    }
  }

  /** The namespace object `server.of(name)` returns: the same name on the same server gives the same namespace. */
  datatype Nsp = Nsp(server: IoServer, name: string)

  /** A live connection (a socket.io socket); `id` is the identifier the engine gave it. */
  datatype Conn = Conn(ref: nat, id: string)

  /** The `{ socket, nsp }` object the adapter hands to the application for each connection. */
  datatype Handle = Handle(socket: Conn, nsp: Nsp)

  /** A JavaScript function passed through the adapter (middleware or event handler). */
  datatype Fn = Fn(ref: nat)

  /** A value passed as an event argument. */
  datatype Value = Text(s: string) | Number(n: int) | Other(ref: nat)

  /** What an emit reaches: the whole namespace, or the room `nsp.to(target)` addresses. */
  datatype Addressee = Everyone(nsp: Nsp) | Room(nsp: Nsp, target: string)

  /** One call the adapter makes on an object it does not own. */
  datatype Call =
    | GetRawServer(host: HostServer)            // server.getRawServer()
    | Io(raw: RawServer)                        // io(raw)
    | Of(server: IoServer, name: string)        // inst.of(name)
    | Use(nsp: Nsp, fn: Fn)                     // nsp.use(fn)
    | OnConnection(nsp: Nsp)                    // nsp.on('connection', callback)
    | To(nsp: Nsp, target: string)              // nsp.to(target)
    | Emit(to: Addressee, args: seq<Value>)     // addressee.emit(...args)
    | LocalEmit(event: string, payload: Handle) // this.emit(event, { socket, nsp })
    | Join(conn: Conn, channel: string)         // socket.join(channel)
    | Leave(conn: Conn, channel: string)        // socket.leave(channel)
    | On(conn: Conn, event: string, fn: Fn)     // socket.on(event, fn)
    | DisconnectCall(conn: Conn)                // socket.disconnect()

  /** The emits that reach the engine's clients, in the order they were made. */
  function Emissions(calls: seq<Call>): (r: seq<Call>)
    ensures |r| <= |calls|
    ensures forall i :: 0 <= i < |r| ==> r[i].Emit?
    ensures (forall i :: 0 <= i < |calls| ==> calls[i].Emit?) ==> r == calls
    ensures (forall i :: 0 <= i < |calls| ==> !calls[i].Emit?) ==> r == []
  {
    if calls == [] then []
    else if calls[0].Emit? then [calls[0]] + Emissions(calls[1..])
    else Emissions(calls[1..])
  }

  /** Emissions of a trace extended by more calls are the old emissions followed by the new ones. */
  lemma {:induction false} EmissionsAppend(a: seq<Call>, b: seq<Call>)
    ensures Emissions(a + b) == Emissions(a) + Emissions(b)
  {
    if a != [] {
      assert (a + b)[1..] == a[1..] + b;
      EmissionsAppend(a[1..], b);
    } else {
      assert a + b == b;
    }
  }
}
