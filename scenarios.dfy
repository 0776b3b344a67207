/** Clients of `TuyaNode` that drive it through short event sequences and
    state, from the handlers' contracts alone, what the node has done. */
module Scenarios {
  import opened Types
  import opened Supervisor
  import opened Node


  /** `true`, then "toggle", then `{dps: 5, set: false}`, each on an idle
      queue and with no failure: three calls in input order, each followed by
      one 2000 ms wait, and the queue idle again. */
  method ThreeCommandsInOrder(cfg: Config) returns (effects: seq<Effect>, left: seq<Payload>)
    ensures effects == [
      DeviceSet(map["set" := Bool(true)]), Wait(2000),
      DeviceToggle, Wait(2000),
      DeviceSet(map["dps" := Num(5), "set" := Bool(false)]), Wait(2000)]
    ensures left == []
  {
    var node := new TuyaNode(cfg);
    node.SetDevice(Flag(true), {});
    node.SetDevice(Text("toggle"), {});
    node.SetDevice(Obj(map["dps" := Num(5), "set" := Bool(false)]), {});
    effects := node.log[1..];
    left := node.queue;
  }

  /** A number reaching the `in` test throws: the drain stops there, leaves
      what follows it queued, and asks for one recovery connection. The
      queue is preloaded as when inputs arrive while another drain waits. */
  method PrimitiveAbortsDrain(cfg: Config) returns (effects: seq<Effect>, left: seq<Payload>)
    ensures effects == [DeviceToggle, Wait(2000), Discover(3000)]
    ensures left == [Text("request")]
  {
    var node := new TuyaNode(cfg);
    node.queue := [Text("toggle"), OtherPrim];
    node.SetDevice(Text("request"), {});
    effects := node.log[1..];
    left := node.queue;
  }

  /** A `disconnected` event with reconnects allowed schedules one reconnect
      after 5000 ms, and a `connected` event that follows cancels it. */
  method ReconnectCancelledByConnected(cfg: Config) returns (delays: seq<int>, pending: bool)
    ensures delays == [5000]
    ensures !pending
  {
    var node := new TuyaNode(cfg);
    node.OnDisconnected();
    delays := [node.log[|node.log| - 1].delay];
    node.OnConnected();
    pending := node.ReconnectPending();
  }

  /** Two `disconnected` events in a row: `timeout` only keeps the second
      timer, so the `connected` handler cancels that one and the first
      reconnect stays due. */
  method OverwrittenReconnectSurvives(cfg: Config) returns (pending: nat)
    ensures pending == 1
  {
    var node := new TuyaNode(cfg);
    node.OnDisconnected();
    node.OnDisconnected();
    node.OnConnected();
    pending := |node.timers|;
  }

  /** Three refused connections in a row schedule retries after 5, 10 and
      15 seconds and leave the counter at 3. */
  method ThreeRefusals(cfg: Config) returns (delays: seq<int>, count: nat)
    ensures delays == [5000, 10000, 15000]
    ensures count == 3
  {
    var node := new TuyaNode(cfg);
    var refused := ErrorInfo(false, true);
    delays := [];
    var i := 0;
    while i < 3
      invariant 0 <= i <= 3
      invariant node.Valid() && node.retries == i
      invariant delays == Ramp(0, i)
      invariant fresh(node)
    {
      node.OnError(refused);
      delays := delays + [node.log[|node.log| - 1].delay];
      RampExtend(0, i);
      i := i + 1;
    }
    count := node.retries;
  }

  /** A `connected` event between two refusals does not reset the counter. */
  method RetriesSurviveConnected(cfg: Config) returns (count: nat)
    ensures count == 2
  {
    var node := new TuyaNode(cfg);
    node.OnError(ErrorInfo(false, true));
    node.OnConnected();
    node.OnError(ErrorInfo(false, true));
    count := node.retries;
  }

  /** Closing the node while the device is connected, for removal or
      redeploy alike, means the `disconnected` event that follows schedules
      no reconnect. */
  method CloseSuppressesReconnect(cfg: Config, removed: bool) returns (timersLeft: nat)
    ensures timersLeft == 0
  {
    var node := new TuyaNode(cfg);
    node.Close(removed, true);
    node.OnDisconnected();
    timersLeft := |node.timers|;
  }

  /** With `timerOFF` set, `n` data events leave `n` auto-off timers
      pending: none replaces an earlier one. */
  method AutoOffTimersAccumulate(cfg: Config, n: nat, dps: Dps) returns (pending: nat)
    requires cfg.timerOFF != 0
    ensures pending == n
  {
    var node := new TuyaNode(cfg);
    var i := 0;
    while i < n
      invariant 0 <= i <= n
      invariant node.Valid() && node.cfg == cfg
      invariant |node.timers| == i
      invariant fresh(node)
    {
      node.OnData(dps, Undefined, Undefined);
      i := i + 1;
    }
    pending := |node.timers|;
  }
}
