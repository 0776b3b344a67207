/** The command side of the node: how `setDevice` classifies one queued
    payload, what device call it makes for it, and what a whole drain of the
    command queue does, as a function of the queue and of the device's
    answers. The class in module Node runs the drain step by step and is
    proved equal to `DrainSpec`. */
module Commands {
  import opened Types

  /** `await wait(2000)` after every command. */
  const INTER_COMMAND_DELAY: int := 2000
  /** `connectToDevice(5, …)` for the "connect" input. */
  const INPUT_CONNECT_TIMEOUT: int := 5
  /** `connectToDevice(3000, …)` after a command threw. */
  const RECOVERY_TIMEOUT: int := 3000

  /** What the if/else chain of `setDevice` decides to do with one payload. */
  datatype Action =
    | GetSchema                              // "request"
    | RequestConnect                         // "connect"
    | DisconnectNow                          // "disconnect"
    | Toggle                                 // "toggle"
    | SetSwitch(on: bool)                    // a boolean
    | SetRequest(request: map<string, Value>) // an object with `dps`
    | SetMultiple(data: Value)               // an object with `multiple`
    | Ignore                                 // an object with neither
    | TypeError                              // `"dps" in p` on a primitive

  predicate IsTag(s: string)
  {
    s == "request" || s == "connect" || s == "disconnect" || s == "toggle"
  }

  /** The chain of tests in `setDevice`, in source order. The `in` test
      throws on exactly the primitives that are not one of the four tags and
      not a boolean, and only an object with neither `dps` nor `multiple`
      falls through every test. */
  function Classify(p: Payload): (a: Action)
    ensures a == TypeError <==> p.OtherPrim? || (p.Text? && !IsTag(p.s))
    ensures a == Ignore <==> p.Obj? && "dps" !in p.fields && "multiple" !in p.fields
  {
    match p
    case Text(s) =>
      if s == "request" then GetSchema
      else if s == "connect" then RequestConnect
      else if s == "disconnect" then DisconnectNow
      else if s == "toggle" then Toggle
      else TypeError
    case Flag(b) => SetSwitch(b)
    case OtherPrim => TypeError
    case Obj(fields) =>
      if "dps" in fields then SetRequest(fields)
      else if "multiple" in fields then SetMultiple(Field(fields, "data"))
      else Ignore
  }

  /** Each action is characterised by the payloads that reach it, so the
      chain both recognises exactly these payloads and lets earlier tests
      win (`dps` over `multiple`, the tags over everything). */
  lemma ClassifyCharacterised(p: Payload, a: Action)
    requires a == Classify(p)
    ensures a == GetSchema <==> p == Text("request")
    ensures a == RequestConnect <==> p == Text("connect")
    ensures a == DisconnectNow <==> p == Text("disconnect")
    ensures a == Toggle <==> p == Text("toggle")
    ensures a.SetSwitch? <==> p.Flag?
    ensures a.SetSwitch? ==> a.on == p.b
    ensures a.SetRequest? <==> p.Obj? && "dps" in p.fields
    ensures a.SetRequest? ==> a.request == p.fields
    ensures a.SetMultiple? <==> p.Obj? && "dps" !in p.fields && "multiple" in p.fields
    ensures a.SetMultiple? ==> a.data == Field(p.fields, "data")
    ensures a == Ignore <==> p.Obj? && "dps" !in p.fields && "multiple" !in p.fields
    ensures a == TypeError <==> p.OtherPrim? || (p.Text? && !IsTag(p.s))
  {
  }

  /** Whether the action goes through the device object (and so can fail). */
  predicate CallsDevice(a: Action)
  {
    a.GetSchema? || a.DisconnectNow? || a.Toggle? || a.SetSwitch? || a.SetRequest? || a.SetMultiple?
  }

  /** Effects the drain itself adds around the commands: the spacing waits
      and the recovery connection request. */
  predicate Bookkeeping(e: Effect)
  {
    e.Wait? || e == Discover(RECOVERY_TIMEOUT)
  }

  /** The call made for one action, before any exception surfaces. */
  function Dispatch(a: Action): (e: seq<Effect>)
    ensures |e| == 1 <==> CallsDevice(a) || a.RequestConnect?
    ensures |e| <= 1
    ensures forall x :: x in e ==> !Bookkeeping(x)
  {
    match a
    case GetSchema => [DeviceGet(map["schema" := Bool(true)])]
    case RequestConnect => [Discover(INPUT_CONNECT_TIMEOUT)]
    case DisconnectNow => [DeviceDisconnect]
    case Toggle => [DeviceToggle]
    case SetSwitch(b) => [DeviceSet(map["set" := Bool(b)])]
    case SetRequest(r) => [DeviceSet(r)]
    case SetMultiple(d) => [DeviceSet(map["multiple" := Bool(true), "data" := d])]
    case Ignore => []
    case TypeError => []
  }

  /** Whether dispatching `a` throws, when `deviceFails` says whether the
      device call (if any) rejects. `connectToDevice` catches its own errors
      and an ignored object makes no call, so neither can throw. */
  predicate Throws(a: Action, deviceFails: bool)
  {
    a == TypeError || (deviceFails && CallsDevice(a))
  }

  /** Which dispatches abort the drain: the TypeError of the `in` test
      always does, a device call does exactly when the device rejects it, and
      the "connect" request and an ignored object never do, whatever the
      device says, since `connectToDevice` catches its own errors and an
      ignored object makes no call. */
  lemma ThrowingActions(a: Action, deviceFails: bool)
    ensures Throws(TypeError, deviceFails)
    ensures !Throws(RequestConnect, deviceFails) && !Throws(Ignore, deviceFails)
    ensures CallsDevice(a) ==> (Throws(a, deviceFails) <==> deviceFails)
    ensures Throws(a, deviceFails) ==> a == TypeError || (deviceFails && Dispatch(a) != [])
  {
  }

  /** Outcome of one drain: the effects in order, how many payloads were
      shifted off the queue, and whether the loop ended by an exception. */
  datatype Drain = Drain(effects: seq<Effect>, processed: nat, aborted: bool)

  /** The drain loop of `setDevice` over queue `q`, whose payloads carry
      dispatch numbers `k`, `k + 1`, …; `fails` holds the numbers whose
      device call rejects. A command that does not
      throw is followed by one wait; the first one that throws ends the
      drain with one recovery connection request. */
  function DrainSpec(q: seq<Payload>, fails: set<nat>, k: nat): (d: Drain)
    decreases |q|
    ensures d.processed <= |q|
    ensures !d.aborted ==> d.processed == |q|
    ensures d.aborted ==> 1 <= d.processed
  {
    if q == [] then Drain([], 0, false)
    else
      var a := Classify(q[0]);
      if Throws(a, k in fails) then
        Drain(Dispatch(a) + [Discover(RECOVERY_TIMEOUT)], 1, true)
      else
        var d := DrainSpec(q[1..], fails, k + 1);
        Drain(Dispatch(a) + [Wait(INTER_COMMAND_DELAY)] + d.effects, d.processed + 1, d.aborted)
  }

  /** One step of the drain: the head payload is dispatched and either
      ends the drain or is followed by a wait and the drain of the rest. */
  lemma DrainUnfold(q: seq<Payload>, fails: set<nat>, k: nat)
    requires q != []
    ensures var a := Classify(q[0]);
      var rest := DrainSpec(q[1..], fails, k + 1);
      DrainSpec(q, fails, k) ==
        if Throws(a, k in fails) then Drain(Dispatch(a) + [Discover(RECOVERY_TIMEOUT)], 1, true)
        else Drain(Dispatch(a) + [Wait(INTER_COMMAND_DELAY)] + rest.effects, rest.processed + 1, rest.aborted)
  {
  }

  /** After `k` payloads of `q` have been drained into `log` (which began
      as `log0`), what the rest of the drain adds completes the effects of
      the whole drain. */
  ghost predicate DrainedSoFar(q: seq<Payload>, fails: set<nat>, log0: seq<Effect>, k: nat, log: seq<Effect>)
    requires k <= |q|
  {
    var total := DrainSpec(q, fails, 0);
    var rest := DrainSpec(q[k..], fails, k);
    && log0 + total.effects == log + rest.effects
    && total.processed == k + rest.processed
    && total.aborted == rest.aborted
  }

  /** Draining one more payload keeps `DrainedSoFar`; when the payload
      throws, the drain is over and the log holds all its effects. */
  lemma DrainedStep(q: seq<Payload>, fails: set<nat>, log0: seq<Effect>, k: nat, log: seq<Effect>, threw: bool)
    requires k < |q| && DrainedSoFar(q, fails, log0, k, log)
    requires threw == Throws(Classify(q[k]), k in fails)
    ensures var log' := log + (Dispatch(Classify(q[k])) + [if threw then Discover(RECOVERY_TIMEOUT) else Wait(INTER_COMMAND_DELAY)]);
      && (!threw ==> DrainedSoFar(q, fails, log0, k + 1, log'))
      && (threw ==> var total := DrainSpec(q, fails, 0); log' == log0 + total.effects && total.processed == k + 1 && total.aborted)
  {
    var a := Classify(q[k]);
    var tail := q[k..];
    assert tail != [] && tail[0] == q[k];
    DrainUnfold(tail, fails, k);
    if threw {
      assert DrainSpec(tail, fails, k).effects == Dispatch(a) + [Discover(RECOVERY_TIMEOUT)];
    } else {
      var w := Wait(INTER_COMMAND_DELAY);
      assert tail[1..] == q[k + 1..];
      var next := DrainSpec(q[k + 1..], fails, k + 1);
      assert DrainSpec(tail, fails, k).effects == Dispatch(a) + [w] + next.effects;
      assert log + (Dispatch(a) + [w] + next.effects) == (log + (Dispatch(a) + [w])) + next.effects;
    }
  }

  /** The device calls of a run of payloads, in queue order. */
  function Dispatches(q: seq<Payload>): seq<Effect>
  {
    if q == [] then [] else Dispatch(Classify(q[0])) + Dispatches(q[1..])
  }

  /** The effects of a drain without its bookkeeping (waits, recovery). */
  function Strip(e: seq<Effect>): seq<Effect>
  {
    if e == [] then [] else (if Bookkeeping(e[0]) then [] else [e[0]]) + Strip(e[1..])
  }

  lemma {:induction false} StripAppend(a: seq<Effect>, b: seq<Effect>)
    ensures Strip(a + b) == Strip(a) + Strip(b)
  {
    if a == [] {
      assert a + b == b;
    } else {
      assert (a + b)[0] == a[0] && (a + b)[1..] == a[1..] + b;
      StripAppend(a[1..], b);
    }
  }

  lemma {:induction false} StripKeeps(e: seq<Effect>)
    requires forall x :: x in e ==> !Bookkeeping(x)
    ensures Strip(e) == e
  {
    if e != [] {
      StripKeeps(e[1..]);
    }
  }

  /** Removing bookkeeping from one payload's step leaves its dispatch. */
  lemma StripStep(a: Action, last: Effect)
    requires Bookkeeping(last)
    ensures Strip(Dispatch(a) + [last]) == Dispatch(a)
  {
    StripAppend(Dispatch(a), [last]);
    StripKeeps(Dispatch(a));
    assert [last][1..] == [];
  }

  /** FIFO: the device calls of a drain are exactly those of the payloads it
      shifted off, head first, in queue order. */
  lemma {:induction false} DrainIsFifo(q: seq<Payload>, fails: set<nat>, k: nat)
    ensures Strip(DrainSpec(q, fails, k).effects) == Dispatches(q[..DrainSpec(q, fails, k).processed])
    decreases |q|
  {
    if q != [] {
      var a := Classify(q[0]);
      var n := DrainSpec(q, fails, k).processed;
      DrainUnfold(q, fails, k);
      var consumed := q[..n];
      assert consumed != [] && consumed[0] == q[0];
      if Throws(a, k in fails) {
        StripStep(a, Discover(RECOVERY_TIMEOUT));
        assert consumed[1..] == [];
      } else {
        var w := Wait(INTER_COMMAND_DELAY);
        var rest := DrainSpec(q[1..], fails, k + 1);
        DrainIsFifo(q[1..], fails, k + 1);
        StripStep(a, w);
        StripAppend(Dispatch(a) + [w], rest.effects);
        assert consumed[1..] == q[1..][..rest.processed];
      }
    }
  }

  /** How many times `x` occurs in `e`. */
  function Occurrences(e: seq<Effect>, x: Effect): nat
  {
    if e == [] then 0 else (if e[0] == x then 1 else 0) + Occurrences(e[1..], x)
  }

  lemma {:induction false} OccurrencesAppend(a: seq<Effect>, b: seq<Effect>, x: Effect)
    ensures Occurrences(a + b, x) == Occurrences(a, x) + Occurrences(b, x)
  {
    if a == [] {
      assert a + b == b;
    } else {
      assert (a + b)[0] == a[0] && (a + b)[1..] == a[1..] + b;
      OccurrencesAppend(a[1..], b, x);
    }
  }

  /** The occurrences of a bookkeeping effect in one payload's step. */
  lemma StepOccurrences(a: Action, last: Effect, x: Effect)
    requires Bookkeeping(x)
    ensures Occurrences(Dispatch(a) + [last], x) == if last == x then 1 else 0
  {
    OccurrencesAppend(Dispatch(a), [last], x);
    var e := Dispatch(a);
    if e != [] {
      assert e[0] != x && e[1..] == [];
    }
    assert [last][1..] == [];
  }

  /** Every command that completes is followed by exactly one 2000 ms wait,
      the one that throws by none. */
  lemma {:induction false} DrainSpacing(q: seq<Payload>, fails: set<nat>, k: nat)
    ensures var d := DrainSpec(q, fails, k);
      Occurrences(d.effects, Wait(INTER_COMMAND_DELAY)) == (if d.aborted then d.processed - 1 else d.processed)
    decreases |q|
  {
    if q != [] {
      var a := Classify(q[0]);
      var w := Wait(INTER_COMMAND_DELAY);
      DrainUnfold(q, fails, k);
      if Throws(a, k in fails) {
        StepOccurrences(a, Discover(RECOVERY_TIMEOUT), w);
      } else {
        var rest := DrainSpec(q[1..], fails, k + 1);
        DrainSpacing(q[1..], fails, k + 1);
        StepOccurrences(a, w, w);
        OccurrencesAppend(Dispatch(a) + [w], rest.effects, w);
      }
    }
  }

  /** The reference layout of a run of commands that all complete: each
      payload's calls, then its own 2000 ms wait, in queue order. */
  function Spaced(q: seq<Payload>): seq<Effect>
    decreases |q|
  {
    if q == [] then [] else Dispatch(Classify(q[0])) + [Wait(INTER_COMMAND_DELAY)] + Spaced(q[1..])
  }

  /** Each command's wait directly follows its own calls: a completed drain
      is laid out as `Spaced` of the whole queue, and an aborted drain as
      `Spaced` of the payloads before the throwing one, then that payload's
      calls and the recovery request. */
  lemma {:induction false} DrainIsSpaced(q: seq<Payload>, fails: set<nat>, k: nat)
    ensures var d := DrainSpec(q, fails, k);
      !d.aborted ==> d.effects == Spaced(q)
    ensures var d := DrainSpec(q, fails, k);
      d.aborted ==> d.effects == Spaced(q[..d.processed - 1]) + Dispatch(Classify(q[d.processed - 1])) + [Discover(RECOVERY_TIMEOUT)]
    decreases |q|
  {
    if q != [] {
      var a := Classify(q[0]);
      var w := Wait(INTER_COMMAND_DELAY);
      var n := DrainSpec(q, fails, k).processed;
      DrainUnfold(q, fails, k);
      if Throws(a, k in fails) {
        assert q[..n - 1] == [];
      } else {
        var rest := DrainSpec(q[1..], fails, k + 1);
        DrainIsSpaced(q[1..], fails, k + 1);
        if rest.aborted {
          var before := q[..n - 1];
          assert before != [] && before[0] == q[0];
          assert before[1..] == q[1..][..rest.processed - 1];
          assert q[n - 1] == q[1..][rest.processed - 1];
          assert Spaced(before) == Dispatch(a) + [w] + Spaced(before[1..]);
        }
      }
    }
  }

  /** An aborted drain issues exactly one recovery `connectToDevice(3000, …)`;
      a drain that completes issues none. */
  lemma {:induction false} DrainRecovery(q: seq<Payload>, fails: set<nat>, k: nat)
    ensures var d := DrainSpec(q, fails, k);
      Occurrences(d.effects, Discover(RECOVERY_TIMEOUT)) == (if d.aborted then 1 else 0)
    decreases |q|
  {
    if q != [] {
      var a := Classify(q[0]);
      var r := Discover(RECOVERY_TIMEOUT);
      DrainUnfold(q, fails, k);
      if Throws(a, k in fails) {
        StepOccurrences(a, r, r);
      } else {
        var w := Wait(INTER_COMMAND_DELAY);
        var rest := DrainSpec(q[1..], fails, k + 1);
        DrainRecovery(q[1..], fails, k + 1);
        StepOccurrences(a, w, r);
        OccurrencesAppend(Dispatch(a) + [w], rest.effects, r);
      }
    }
  }

  /** The recovery request of an aborted drain is its last effect. */
  lemma {:induction false} DrainEndsWithRecovery(q: seq<Payload>, fails: set<nat>, k: nat)
    requires DrainSpec(q, fails, k).aborted
    ensures var e := DrainSpec(q, fails, k).effects; |e| > 0 && e[|e| - 1] == Discover(RECOVERY_TIMEOUT)
    decreases |q|
  {
    var a := Classify(q[0]);
    DrainUnfold(q, fails, k);
    if !Throws(a, k in fails) {
      DrainEndsWithRecovery(q[1..], fails, k + 1);
    }
  }

  /** Whether payload `i` of a drain started at dispatch number `k` throws. */
  predicate ThrowsAt(q: seq<Payload>, fails: set<nat>, k: nat, i: nat)
    requires i < |q|
  {
    Throws(Classify(q[i]), (k + i) in fails)
  }

  lemma ThrowsAtTail(q: seq<Payload>, fails: set<nat>, k: nat, i: nat)
    requires 0 < i < |q|
    ensures ThrowsAt(q, fails, k, i) == ThrowsAt(q[1..], fails, k + 1, i - 1)
  {
    assert q[1..][i - 1] == q[i];
  }

  /** An aborted drain stopped at the first payload that throws: the last
      payload it consumed throws and none before it does. */
  lemma {:induction false} DrainAbortsAtFirstThrow(q: seq<Payload>, fails: set<nat>, k: nat)
    requires DrainSpec(q, fails, k).aborted
    ensures ThrowsAt(q, fails, k, DrainSpec(q, fails, k).processed - 1)
    ensures forall i :: 0 <= i < DrainSpec(q, fails, k).processed - 1 ==> !ThrowsAt(q, fails, k, i)
    decreases |q|
  {
    var n := DrainSpec(q, fails, k).processed;
    if !ThrowsAt(q, fails, k, 0) {
      DrainAbortsAtFirstThrow(q[1..], fails, k + 1);
      ThrowsAtTail(q, fails, k, n - 1);
      forall i | 0 < i < n - 1 ensures !ThrowsAt(q, fails, k, i) {
        ThrowsAtTail(q, fails, k, i);
      }
    }
  }

  /** A drain completes, consuming the whole queue, exactly when no payload
      of the queue throws. */
  lemma {:induction false} DrainCompletesIffNoThrow(q: seq<Payload>, fails: set<nat>, k: nat)
    ensures !DrainSpec(q, fails, k).aborted <==> forall i :: 0 <= i < |q| ==> !ThrowsAt(q, fails, k, i)
    decreases |q|
  {
    var d := DrainSpec(q, fails, k);
    if d.aborted {
      DrainAbortsAtFirstThrow(q, fails, k);
    } else if q != [] {
      assert !ThrowsAt(q, fails, k, 0);
      DrainCompletesIffNoThrow(q[1..], fails, k + 1);
      forall i | 0 < i < |q| ensures !ThrowsAt(q, fails, k, i) {
        ThrowsAtTail(q, fails, k, i);
      }
    }
  }
}
