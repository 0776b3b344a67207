/** One tuya-local node: the state its closure keeps (`commandQueue`,
    `connectionRetries`, `set_timeout`, `dev_info.available` and the
    `timeout` handle of the pending reconnect) and the handlers that update
    it. Every call into the device, every timer and every message sent is
    appended to `log`; a pending timer stays in `timers` until it fires or is
    cleared. */
module Node {
  import opened Types
  import opened Commands
  import opened Supervisor
  import opened Telemetry

  class TuyaNode {
    const cfg: Config
    /** `node.commandQueue` */
    var queue: seq<Payload>
    /** `connectionRetries` */
    var retries: nat
    /** `set_timeout`: whether a `disconnected` event schedules a reconnect */
    var setTimeoutFlag: bool
    /** The `timeout` variable: the timer of the last reconnect scheduled by
        `disconnected`, or `None` while it has never been assigned. */
    var reconnectHandle: Option<nat>
    /** Timers scheduled and neither fired nor cleared, by id. */
    var timers: map<nat, Job>
    /** The id the next scheduled timer gets. */
    var nextTimer: nat
    /** `dev_info.available` */
    var available: Option<bool>
    /** Everything the node has done to the outside world, oldest first. */
    var log: seq<Effect>

    ghost predicate Valid()
      reads this
    {
      && retries <= MAX_RETRIES
      && (forall id :: id in timers ==> id < nextTimer)
      && (reconnectHandle.Some? ==> reconnectHandle.value < nextTimer)
    }

    /** `dev_info` as it is now. */
    function Info(): DevInfo
      reads this
    {
      DevInfo(cfg.name, cfg.ip, cfg.id, available)
    }

    /** Whether the timer in `timeout` is still due to fire. */
    predicate ReconnectPending()
      reads this
    {
      reconnectHandle.Some? && reconnectHandle.value in timers
    }

    /** Deploy: nothing queued, no retries yet, reconnects allowed, and the
        deploy connection request `connectToDevice(5, …)`. */
    constructor (config: Config)
      ensures Valid() && cfg == config
      ensures queue == [] && retries == 0 && setTimeoutFlag
      ensures reconnectHandle == None && timers == map[] && available == None
      ensures log == [Discover(INPUT_CONNECT_TIMEOUT)]
    {
      cfg := config;
      queue := [];
      retries := 0;
      setTimeoutFlag := true;
      reconnectHandle := None;
      timers := map[];
      nextTimer := 0;
      available := None;
      log := [Discover(INPUT_CONNECT_TIMEOUT)];
    }

    /** `connectToDevice(timeout, …)`: starts a discovery; its outcome
        arrives later through `OnDiscovery`. */
    method ConnectToDevice(timeout: int)
      requires Valid()
      modifies this`log
      ensures Valid()
      ensures log == old(log) + [Discover(timeout)]
    {
      log := log + [Discover(timeout)];
    }

    /** `setTimeout(job, delay)`: a fresh timer id, recorded as pending. */
    method ScheduleTimer(delay: int, job: Job) returns (id: nat)
      requires Valid()
      modifies this`timers, this`nextTimer, this`log
      ensures Valid()
      ensures id == old(nextTimer) && id !in old(timers)
      ensures nextTimer == old(nextTimer) + 1
      ensures timers == old(timers)[id := job]
      ensures log == old(log) + [Schedule(id, delay, job)]
    {
      id := nextTimer;
      timers := timers[id := job];
      nextTimer := nextTimer + 1;
      log := log + [Schedule(id, delay, job)];
    }

    /** `try { clearTimeout(timeout) } catch …`: cancels the timer `timeout`
        refers to; while `timeout` was never assigned, the read throws, the
        error is only logged, and nothing changes. */
    method ClearReconnectTimer()
      requires Valid()
      modifies this`timers, this`log
      ensures Valid()
      ensures !ReconnectPending()
      ensures reconnectHandle.None? ==> timers == old(timers) && log == old(log)
      ensures reconnectHandle.Some? ==>
        timers == old(timers) - {reconnectHandle.value} && log == old(log) + [Cancel(reconnectHandle.value)]
    {
      match reconnectHandle {
        case None =>
        case Some(id) =>
          timers := timers - {id};
          log := log + [Cancel(id)];
      }
    }

    /** The continuation of the discovery started by `connectToDevice`.
        A device that was found is connected to; one that was not is looked
        for again after `RETRY_DELAY` with the same timeout, without limit:
        this path neither reads nor counts `connectionRetries`. A failed
        connect after a successful find is only reported. */
    method OnDiscovery(timeout: int, found: bool)
      requires Valid()
      modifies this`timers, this`nextTimer, this`log
      ensures Valid()
      ensures found ==> log == old(log) + [DeviceConnect] && timers == old(timers)
      ensures !found ==>
        && timers == old(timers)[old(nextTimer) := Reconnect(timeout)]
        && log == old(log) + [Schedule(old(nextTimer), RETRY_DELAY, Reconnect(timeout))]
    {
      if found {
        log := log + [DeviceConnect];
      } else {
        var _ := ScheduleTimer(RETRY_DELAY, Reconnect(timeout));
      }
    }

    /** `disconnectDevice(deleted)`: a deletion forbids the reconnect that
        the coming `disconnected` event would schedule; otherwise it is
        allowed again. */
    method DisconnectDevice(deleted: bool)
      requires Valid()
      modifies this`setTimeoutFlag, this`log
      ensures Valid()
      ensures setTimeoutFlag == !deleted
      ensures log == old(log) + [DeviceDisconnect]
    {
      setTimeoutFlag := !deleted;
      log := log + [DeviceDisconnect];
    }

    /** One pass through the if/else chain of `setDevice`: the call made for
        `action`, and whether it throws when the device's verdict on the call
        is `deviceFails`. */
    method Execute(action: Action, deviceFails: bool) returns (threw: bool)
      requires Valid()
      modifies this`log
      ensures Valid()
      ensures log == old(log) + Dispatch(action)
      ensures threw == Throws(action, deviceFails)
    {
      threw := false;
      match action {
        case GetSchema =>
          log := log + [DeviceGet(map["schema" := Bool(true)])];
          threw := deviceFails;
        case RequestConnect =>
          ConnectToDevice(INPUT_CONNECT_TIMEOUT);
        case DisconnectNow =>
          log := log + [DeviceDisconnect];
          threw := deviceFails;
        case Toggle =>
          log := log + [DeviceToggle];
          threw := deviceFails;
        case SetSwitch(on) =>
          log := log + [DeviceSet(map["set" := Bool(on)])];
          threw := deviceFails;
        case SetRequest(request) =>
          log := log + [DeviceSet(request)];
          threw := deviceFails;
        case SetMultiple(data) =>
          log := log + [DeviceSet(map["multiple" := Bool(true), "data" := data])];
          threw := deviceFails;
        case Ignore =>
        case TypeError =>
          threw := true;
      }
    }

    /** `setDevice(req)`: appends `req` to the queue and drains the queue
        head first. The effects and the queue left behind are those of
        `DrainSpec` on the whole queue: a drain that completes empties it; one
        that aborts leaves the payloads after the one that threw, in order. */
    method SetDevice(req: Payload, fails: set<nat>)
      requires Valid()
      modifies this`queue, this`log
      ensures Valid()
      ensures var q := old(queue) + [req];
        var d := DrainSpec(q, fails, 0);
        && log == old(log) + d.effects
        && queue == q[d.processed..]
        && (!d.aborted ==> queue == [])
    {
      queue := queue + [req];
      ghost var q0 := queue;
      var k: nat := 0;
      while |queue| > 0
        invariant Valid()
        invariant k <= |q0| && queue == q0[k..]
        invariant DrainedSoFar(q0, fails, old(log), k, log)
        decreases |queue|
      {
        ghost var logBefore := log;
        var threw := Shift(k in fails);
        DrainedStep(q0, fails, old(log), k, logBefore, threw);
        k := k + 1;
        if threw {
          return;
        }
      }
    }

    /** One iteration of the drain loop of `setDevice`: the head payload is
        shifted off and dispatched; a dispatch that throws is answered with
        `connectToDevice(3000, …)` by the `catch`, one that does not by the
        2000 ms wait. */
    method Shift(deviceFails: bool) returns (threw: bool)
      requires Valid() && queue != []
      modifies this`queue, this`log
      ensures Valid()
      ensures queue == old(queue)[1..]
      ensures var action := Classify(old(queue)[0]);
        && threw == Throws(action, deviceFails)
        && log == old(log) + (Dispatch(action) + [if threw then Discover(RECOVERY_TIMEOUT) else Wait(INTER_COMMAND_DELAY)])
    {
      var current := queue[0];
      queue := queue[1..];
      var action := Classify(current);
      threw := Execute(action, deviceFails);
      if threw {
        ConnectToDevice(RECOVERY_TIMEOUT);
      } else {
        log := log + [Wait(INTER_COMMAND_DELAY)];
      }
    }

    /** The `disconnected` handler: the device is reported unavailable in one
        message, and a reconnect is scheduled after 5000 ms exactly when
        `set_timeout` holds; its timer becomes the one `timeout` refers to. */
    method OnDisconnected()
      requires Valid()
      modifies this`available, this`timers, this`nextTimer, this`reconnectHandle, this`log
      ensures Valid()
      ensures available == Some(false)
      ensures var sent := old(log) + [Send(Availability(Info()))];
        if old(setTimeoutFlag) then
          && log == sent + [Schedule(old(nextTimer), RECONNECT_DELAY, Reconnect(RECONNECT_DELAY))]
          && timers == old(timers)[old(nextTimer) := Reconnect(RECONNECT_DELAY)]
          && reconnectHandle == Some(old(nextTimer))
          && ReconnectPending()
        else
          log == sent && timers == old(timers) && reconnectHandle == old(reconnectHandle)
    {
      available := Some(false);
      log := log + [Send(Availability(Info()))];
      if setTimeoutFlag {
        var id := ScheduleTimer(RECONNECT_DELAY, Reconnect(RECONNECT_DELAY));
        reconnectHandle := Some(id);
      }
    }

    /** The `connected` handler: the reconnect `timeout` refers to is
        cancelled. The retry counter is left as it is. */
    method OnConnected()
      requires Valid()
      modifies this`timers, this`log
      ensures Valid()
      ensures !ReconnectPending()
      ensures reconnectHandle.None? ==> timers == old(timers) && log == old(log)
      ensures reconnectHandle.Some? ==>
        timers == old(timers) - {reconnectHandle.value} && log == old(log) + [Cancel(reconnectHandle.value)]
    {
      ClearReconnectTimer();
    }

    /** The `error` handler: a socket error cancels the reconnect `timeout`
        refers to; a refused connection counts one more retry and schedules
        `connectToDevice(5, …)` after `5000 × connectionRetries` ms, until
        the counter reaches `MAX_RETRIES`. */
    method OnError(err: ErrorInfo)
      requires Valid()
      modifies this`retries, this`timers, this`nextTimer, this`log
      ensures Valid()
      ensures var s := OnRefusal(old(retries), err);
        var cleared := if err.isSocketError && reconnectHandle.Some? then [Cancel(reconnectHandle.value)] else [];
        var base := if err.isSocketError && reconnectHandle.Some? then old(timers) - {reconnectHandle.value} else old(timers);
        && retries == s.retries
        && (s.delay.None? ==> log == old(log) + cleared && timers == base)
        && (s.delay.Some? ==>
              var id := old(nextTimer);
              && log == old(log) + cleared + [Schedule(id, s.delay.value, Reconnect(RETRY_CONNECT_TIMEOUT))]
              && timers == base[id := Reconnect(RETRY_CONNECT_TIMEOUT)])
    {
      if err.isSocketError {
        ClearReconnectTimer();
      }
      if err.isConnRefused {
        if retries < MAX_RETRIES {
          retries := retries + 1;
          var _ := ScheduleTimer(BACKOFF_STEP * retries, Reconnect(RETRY_CONNECT_TIMEOUT));
        }
      }
    }

    /** The `data` handler: the device is reported available, an auto-off
        timer is added (earlier ones are kept) when `timerOFF` is non-zero,
        and one message is sent, filtered when `filterCB` is set. */
    method OnData(dps: Dps, extra: Value, commandByte: Value)
      requires Valid()
      modifies this`available, this`timers, this`nextTimer, this`log
      ensures Valid()
      ensures available == Some(true)
      ensures var sent := [Send(DataMessage(cfg, Info(), dps, extra, commandByte))];
        match AutoOffDelay(cfg)
        case None => log == old(log) + sent && timers == old(timers)
        case Some(delay) =>
          && log == old(log) + [Schedule(old(nextTimer), delay, AutoOff)] + sent
          && timers == old(timers)[old(nextTimer) := AutoOff]
          && old(nextTimer) !in old(timers)
    {
      available := Some(true);
      if cfg.timerOFF != 0 {
        var _ := ScheduleTimer(cfg.timerOFF * 1000, AutoOff);
      }
      log := log + [Send(DataMessage(cfg, Info(), dps, extra, commandByte))];
    }

    /** The `close` handler, for removal and redeploy alike: a connected
        device is disconnected as a deletion, so no reconnect follows. */
    method Close(removed: bool, connected: bool)
      requires Valid()
      modifies this`setTimeoutFlag, this`log
      ensures Valid()
      ensures connected ==> !setTimeoutFlag && log == old(log) + [DeviceDisconnect]
      ensures !connected ==> setTimeoutFlag == old(setTimeoutFlag) && log == old(log)
    {
      if removed {
        if connected {
          DisconnectDevice(true);
        }
      } else {
        if connected {
          DisconnectDevice(true);
        }
      }
    }

    /** A pending timer fires: it leaves `timers` and runs its job, a
        reconnect or the auto-off command; a timer that is not pending does
        nothing. */
    method FireTimer(id: nat, fails: set<nat>)
      requires Valid()
      modifies this`timers, this`queue, this`log
      ensures Valid()
      ensures id !in timers && timers == old(timers) - {id}
      ensures id !in old(timers) ==> log == old(log) && queue == old(queue)
      ensures id in old(timers) && old(timers)[id].Reconnect? ==>
        log == old(log) + [Discover(old(timers)[id].timeout)] && queue == old(queue)
      ensures id in old(timers) && old(timers)[id].AutoOff? ==>
        var q := old(queue) + [AutoOffCommand()];
        var d := DrainSpec(q, fails, 0);
        log == old(log) + d.effects && queue == q[d.processed..]
    {
      if id in timers {
        var job := timers[id];
        timers := timers - {id};
        match job {
          case Reconnect(timeout) =>
            ConnectToDevice(timeout);
          case AutoOff =>
            SetDevice(AutoOffCommand(), fails);
        }
      }
    }
  }
}
