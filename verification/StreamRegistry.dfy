/** `RPC_STREAM_ID` and `RPC_STREAMS`, the counter and the map behind the foreign callbacks, over the process
    whose streams they hold. Each method is proved to be the corresponding step of `Ffi`. */
module StreamRegistry {
  import opened Common
  import opened Json
  import opened RpcProcess
  import Ffi
  import Rpc

  const I32_MAX: int := 0x7FFF_FFFF
  const I32_MIN: int := -0x8000_0000

  class Streams {
    const process: Process
    var nextId: int
    var streams: map<int, nat>
    ghost var callbacks: seq<Ffi.Callback>

    /** The counter is the id of the next ticket. */
    ghost predicate Valid()
      reads this, process
    {
      process.Valid() && nextId == Ffi.StreamId(|callbacks|)
    }

    ghost function View(): Ffi.State
      reads this, process
    {
      Ffi.State(process.View(), streams, callbacks)
    }

    constructor (process: Process)
      requires process.Valid() && process.View() == Rpc.INIT
      ensures this.process == process && Valid() && View() == Ffi.INIT
    {
      this.process := process;
      nextId, streams, callbacks := 1, map[], [];
    }

    /** `fetch_add(1)` for a callback on invocation `v`: the old value is its id, and the counter wraps from the
        largest `i32` to the smallest. */
    method Draw(ghost v: nat) returns (id: int)
      requires Valid() && Ffi.Enabled(View(), Ffi.Enter(v))
      modifies this
      ensures Valid() && View() == Ffi.Next(old(View()), Ffi.Enter(v)) && id == Ffi.StreamId(old(|callbacks|))
    {
      id := nextId;
      nextId := if id == I32_MAX then I32_MIN else id + 1;
      callbacks := callbacks + [Ffi.Callback(v, Ffi.Drawn)];
    }

    /** Registers the stream of callback `i`; every live callback finds its own stream afterwards if and only if
        none of them has the same id. */
    method Insert(id: int, stream: nat, ghost i: nat)
      requires Valid() && Ffi.Enabled(View(), Ffi.Insert(i)) && id == Ffi.StreamId(i) && stream == callbacks[i].v
      modifies this
      ensures Valid() && View() == Ffi.Next(old(View()), Ffi.Insert(i))
      ensures old(Ffi.RegistryOk(View()) && Ffi.CallbacksOk(View())) ==>
        (Ffi.RegistryOk(View()) <==> forall j: nat | old(Ffi.Is(View(), j, Ffi.Live)) :: Ffi.StreamId(j) != id)
    {
      ghost var before := View();
      streams := streams[id := stream];
      callbacks := callbacks[i := callbacks[i].(pc := Ffi.Live)];
      if Ffi.RegistryOk(before) && Ffi.CallbacksOk(before) {
        Ffi.InsertIff(before, i);
      }
    }

    /** `rpc_push*` of callback `i`: the push goes to the stream its id leads to now, if any; for a live callback
        of a registry in order that is its own. */
    method Push(id: int, payload: Json, bytes: Bytes, reliable: bool, ghost i: nat) returns (found: bool)
      requires Valid() && Ffi.Enabled(View(), Ffi.Push(i, payload, bytes, reliable)) && id == Ffi.StreamId(i)
      modifies process
      ensures Valid() && View() == Ffi.Next(old(View()), Ffi.Push(i, payload, bytes, reliable))
      ensures old(Ffi.RegistryOk(View()) && Ffi.Is(View(), i, Ffi.Live)) ==>
        found &&
        process.View() == Rpc.Next(old(process.View()), Rpc.Push(old(callbacks[i].v), payload, bytes, reliable))
    {
      hide Rpc.Enabled, Rpc.Next;
      found := id in streams;
      if found {
        process.Push(streams[id], payload, bytes, reliable);
      }
    }

    /** The callback has returned. */
    method Remove(id: int, ghost i: nat)
      requires Valid() && Ffi.Enabled(View(), Ffi.Exit(i)) && id == Ffi.StreamId(i)
      modifies this
      ensures Valid() && View() == Ffi.Next(old(View()), Ffi.Exit(i))
    {
      streams := streams - {id};
      callbacks := callbacks[i := callbacks[i].(pc := Ffi.Gone)];
    }
  }
}
