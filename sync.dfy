/**
 * What one call of the `deviceState` and `deviceControl` tools does, as
 * recursive functions over the reading store, the link state and the waits
 * the environment supplies; and the properties of those calls.
 *
 * Each `time.sleep(WAIT_PUBLISH)` is a `Wait`: the inbound messages that
 * arrive during it (each handled by `on_message`) and whether the link is up
 * when it ends.
 */
module Sync {
  import opened Optional
  import opened Home

  /** Number of refresh attempts a query makes while the reading is unknown. */
  const MaxRetry := 3

  datatype Wait = Wait(inbound: seq<Inbound>, link: bool)

  /** The next wait; once the environment is used up, nothing arrives and the link stays as it is. */
  function NextWait(env: seq<Wait>, link: bool): Wait {
    if env == [] then Wait([], link) else env[0]
  }

  function Later(env: seq<Wait>): seq<Wait> {
    if env == [] then [] else env[1..]
  }

  /** The store and link state after `n` waits. */
  function Replay(store: Readings, link: bool, env: seq<Wait>, n: nat): (Readings, bool)
    decreases n
  {
    if n == 0 then (store, link)
    else
      var w := NextWait(env, link);
      Replay(Absorb(store, w.inbound), w.link, Later(env), n - 1)
  }

  /** The outcome of a tool call: its reply, what it published, the final store and link. */
  datatype Run = Run(reply: Reply, sent: seq<Publish>, store: Readings, link: bool)

  function Sending(p: seq<Publish>, r: Run): Run {
    r.(sent := p + r.sent)
  }

  /** Concatenation regroups; stated once so callers need not re-derive it. */
  lemma Regroup<T>(a: seq<T>, b: seq<T>, c: seq<T>)
    ensures (a + b) + c == a + (b + c)
  {
  }

  lemma SendingTwice(p: seq<Publish>, q: seq<Publish>, r: Run)
    ensures Sending(p, Sending(q, r)) == Sending(p + q, r)
  {
    assert p + (q + r.sent) == (p + q) + r.sent;
  }

  /**
   * `deviceState(device, retry_count)`. The link is checked on every attempt;
   * attempt -1 neither probes nor waits.
   */
  function StateRun(device: string, retry: int, store: Readings, link: bool, env: seq<Wait>): Run
    decreases MaxRetry - retry
  {
    if !link then Run(NotConnected, [], store, link)
    else match LookupDevice(device)
      case None => Run(InvalidDevice, [], store, link)
      case Some(d) =>
        var st := Classify(d, Get(store, d));
        if st != Unknown then Run(Report(d, st), [], store, link)
        else if retry >= MaxRetry then Run(Report(d, Unknown), [], store, link)
        else if retry == -1 then StateRun(device, retry + 1, store, link, env)
        else
          var w := NextWait(env, link);
          Sending([Probe(d)], StateRun(device, retry + 1, Absorb(store, w.inbound), w.link, Later(env)))
  }

  /**
   * `deviceControl(device, action)`: reset the reading, publish the command,
   * wait, then query with retry count 0.
   */
  function ControlRun(device: string, action: string, store: Readings, link: bool, env: seq<Wait>): Run {
    if !link then Run(NotConnected, [], store, link)
    else match Command(device, action)
      case None => Run(InvalidAction(device, action), [], store, link)
      case Some((d, payload)) =>
        var w := NextWait(env, link);
        var settled := Absorb(Put(store, d, UnknownReading), w.inbound);
        Sending([Publish(CommandTopic(d), payload)], StateRun(device, 0, settled, w.link, Later(env)))
  }

  /**
   * The most refresh probes a query starting at `retry` can send: one per
   * attempt from `retry` up to `MaxRetry - 1`, except attempt -1.
   */
  function ProbeBudget(retry: int): (n: nat)
    ensures 0 <= retry <= MaxRetry ==> n == MaxRetry - retry
    ensures n <= MaxRetry <==> retry >= -1
  {
    if retry >= MaxRetry then 0
    else if retry >= 0 then MaxRetry - retry
    else MaxRetry - retry - 1
  }

  /** A disconnected link fails both tools at once: no publish, no change. */
  lemma NotConnectedFailsFast(device: string, action: string, retry: int, store: Readings, env: seq<Wait>)
    ensures StateRun(device, retry, store, false, env) == Run(NotConnected, [], store, false)
    ensures ControlRun(device, action, store, false, env) == Run(NotConnected, [], store, false)
  {
  }

  /** A definitive reading answers at once: no probe, no wait, no change. */
  lemma DefinitiveAnswersAtOnce(device: string, retry: int, store: Readings, env: seq<Wait>)
    requires LookupDevice(device).Some?
    requires Classify(LookupDevice(device).value, Get(store, LookupDevice(device).value)) != Unknown
    ensures var d := LookupDevice(device).value;
      StateRun(device, retry, store, true, env)
      == Run(Report(d, Classify(d, Get(store, d))), [], store, true)
  {
  }

  /** Retry count -1 suppresses the probe of its own attempt only: the query then runs as from 0. */
  lemma SuppressedAttempt(device: string, store: Readings, link: bool, env: seq<Wait>)
    ensures StateRun(device, -1, store, link, env) == StateRun(device, 0, store, link, env)
  {
  }

  /**
   * A query publishes nothing but refresh probes of its own device, at most
   * `ProbeBudget(retry)` of them.
   */
  lemma {:induction false} QueryOnlyProbes(device: string, retry: int, store: Readings, link: bool, env: seq<Wait>)
    ensures var r := StateRun(device, retry, store, link, env);
      && |r.sent| <= ProbeBudget(retry)
      && (LookupDevice(device).None? ==> r.sent == [])
      && forall i :: 0 <= i < |r.sent| ==>
           LookupDevice(device).Some? && r.sent[i] == Probe(LookupDevice(device).value)
    decreases MaxRetry - retry
  {
    if link && LookupDevice(device).Some? {
      var d := LookupDevice(device).value;
      if Classify(d, Get(store, d)) == Unknown && retry < MaxRetry {
        if retry == -1 {
          QueryOnlyProbes(device, 0, store, link, env);
        } else {
          var w := NextWait(env, link);
          QueryOnlyProbes(device, retry + 1, Absorb(store, w.inbound), w.link, Later(env));
        }
      }
    }
  }

  /**
   * A query never writes the store: the final store and link are those the
   * waits leave, and every probe is followed by exactly one wait.
   */
  lemma {:induction false} QueryOnlyWaitsWrite(device: string, retry: int, store: Readings, link: bool, env: seq<Wait>)
    ensures var r := StateRun(device, retry, store, link, env);
      (r.store, r.link) == Replay(store, link, env, |r.sent|)
    decreases MaxRetry - retry
  {
    if link && LookupDevice(device).Some? {
      var d := LookupDevice(device).value;
      if Classify(d, Get(store, d)) == Unknown && retry < MaxRetry {
        if retry == -1 {
          QueryOnlyWaitsWrite(device, 0, store, link, env);
        } else {
          var w := NextWait(env, link);
          QueryOnlyWaitsWrite(device, retry + 1, Absorb(store, w.inbound), w.link, Later(env));
        }
      }
    }
  }

  /** Every wait keeps the link up and brings no reading of device `d`. */
  predicate Quiet(d: Device, env: seq<Wait>) {
    forall i :: 0 <= i < |env| ==> env[i].link && Silent(d, env[i].inbound)
  }

  /** `n` refresh probes of device `d`. */
  function Probes(d: Device, n: nat): (ps: seq<Publish>)
    ensures |ps| == n && forall i :: 0 <= i < n ==> ps[i] == Probe(d)
  {
    if n == 0 then [] else [Probe(d)] + Probes(d, n - 1)
  }

  lemma QuietLater(d: Device, env: seq<Wait>)
    requires Quiet(d, env)
    ensures Quiet(d, Later(env)) && NextWait(env, true).link && Silent(d, NextWait(env, true).inbound)
  {
    if env != [] {
      forall i | 0 <= i < |env| - 1 ensures env[1..][i].link && Silent(d, env[1..][i].inbound) {
        assert env[1..][i] == env[i + 1];
      }
    }
  }

  /**
   * While the reading stays unknown, a query sends exactly
   * `ProbeBudget(retry)` probes (`MaxRetry - retry` from 0..3) and then gives
   * up with the "check manually" reply.
   */
  lemma {:induction false} QueryGivesUp(device: string, d: Device, retry: int, store: Readings, env: seq<Wait>)
    requires LookupDevice(device) == Some(d)
    requires Classify(d, Get(store, d)) == Unknown
    requires Quiet(d, env)
    ensures var r := StateRun(device, retry, store, true, env);
      && r.reply == Report(d, Unknown)
      && r.sent == Probes(d, ProbeBudget(retry))
      && r.link
      && Get(r.store, d) == Get(store, d)
    decreases MaxRetry - retry
  {
    if retry < MaxRetry {
      if retry == -1 {
        QueryGivesUp(device, d, 0, store, env);
      } else {
        var w := NextWait(env, true);
        QuietLater(d, env);
        AbsorbSilent(store, d, w.inbound);
        QueryGivesUp(device, d, retry + 1, Absorb(store, w.inbound), Later(env));
      }
    }
  }

  /** Every wait keeps the link up and brings no reading that would make `d` known. */
  predicate Unsettled(d: Device, env: seq<Wait>) {
    forall i :: 0 <= i < |env| ==> env[i].link && StaysUnknown(d, env[i].inbound)
  }

  lemma UnsettledLater(d: Device, env: seq<Wait>)
    requires Unsettled(d, env)
    ensures Unsettled(d, Later(env)) && NextWait(env, true).link && StaysUnknown(d, NextWait(env, true).inbound)
  {
    if env != [] {
      forall i | 0 <= i < |env| - 1 ensures env[1..][i].link && StaysUnknown(d, env[1..][i].inbound) {
        assert env[1..][i] == env[i + 1];
      }
    }
  }

  /**
   * However the waits go, as long as they keep the link up and every reading
   * of the device they deliver is unknown or undecodable (a light reporting
   * 2 or -1, a door reporting -1, a garbled payload), a query from attempt
   * `retry` sends exactly `ProbeBudget(retry)` probes and gives up with the
   * "check manually" reply, the reading still unknown.
   */
  lemma {:induction false} QueryGivesUpWhileUnknown(device: string, d: Device, retry: int, store: Readings, env: seq<Wait>)
    requires LookupDevice(device) == Some(d)
    requires Classify(d, Get(store, d)) == Unknown
    requires Unsettled(d, env)
    ensures var r := StateRun(device, retry, store, true, env);
      && r.reply == Report(d, Unknown)
      && r.sent == Probes(d, ProbeBudget(retry))
      && r.link
      && Classify(d, Get(r.store, d)) == Unknown
    decreases MaxRetry - retry
  {
    if retry < MaxRetry {
      if retry == -1 {
        QueryGivesUpWhileUnknown(device, d, 0, store, env);
      } else {
        var w := NextWait(env, true);
        UnsettledLater(d, env);
        AbsorbKeepsUnknown(store, d, w.inbound);
        QueryGivesUpWhileUnknown(device, d, retry + 1, Absorb(store, w.inbound), Later(env));
      }
    }
  }

  /**
   * Control on an accepted pair publishes its command first, then only probes
   * of the same device (at most `MaxRetry`), and leaves the store as the
   * waits leave it after the device's reading is reset to unknown.
   */
  lemma ControlPublishesCommand(device: string, action: string, store: Readings, env: seq<Wait>)
    requires Command(device, action).Some?
    ensures var (d, payload) := Command(device, action).value;
      var r := ControlRun(device, action, store, true, env);
      && |r.sent| >= 1
      && r.sent[0] == Publish(CommandTopic(d), payload)
      && |r.sent| <= 1 + MaxRetry
      && (forall i :: 1 <= i < |r.sent| ==> r.sent[i] == Probe(d))
      && (r.store, r.link) == Replay(Put(store, d, UnknownReading), true, env, |r.sent|)
  {
    var (d, payload) := Command(device, action).value;
    var w := NextWait(env, true);
    var settled := Absorb(Put(store, d, UnknownReading), w.inbound);
    QueryOnlyProbes(device, 0, settled, w.link, Later(env));
    QueryOnlyWaitsWrite(device, 0, settled, w.link, Later(env));
    var q := StateRun(device, 0, settled, w.link, Later(env));
    var r := ControlRun(device, action, store, true, env);
    assert r.sent == [Publish(CommandTopic(d), payload)] + q.sent;
    forall i | 1 <= i < |r.sent| ensures r.sent[i] == Probe(d) {
      assert r.sent[i] == q.sent[i - 1];
    }
  }

  /** A pair `deviceControl` does not accept is refused: no publish, no change. */
  lemma ControlRejectsPair(device: string, action: string, store: Readings, env: seq<Wait>)
    requires Command(device, action).None?
    ensures ControlRun(device, action, store, true, env)
         == Run(InvalidAction(device, action), [], store, true)
  {
  }

  /**
   * Control never reads the device's reading before acting: two stores that
   * differ only in that reading give the same run.
   */
  lemma ControlIgnoresStaleReading(device: string, action: string, s1: Readings, s2: Readings, env: seq<Wait>)
    requires Command(device, action).Some?
    requires var d := Command(device, action).value.0; Get(s1, Other(d)) == Get(s2, Other(d))
    ensures ControlRun(device, action, s1, true, env) == ControlRun(device, action, s2, true, env)
  {
    var d := Command(device, action).value.0;
    assert Put(s1, d, UnknownReading) == Put(s2, d, UnknownReading);
  }

  /**
   * If no reading of the device arrives during the settle wait after the
   * command, the confirming query sees "unknown" and probes: the answer is
   * never the reading from before the command.
   */
  lemma ControlAwaitsFreshReading(device: string, action: string, store: Readings, env: seq<Wait>)
    requires Command(device, action).Some?
    requires var d := Command(device, action).value.0;
      var w := NextWait(env, true); w.link && Silent(d, w.inbound)
    ensures var d := Command(device, action).value.0;
      var r := ControlRun(device, action, store, true, env);
      |r.sent| >= 2 && r.sent[1] == Probe(d)
  {
    var d := Command(device, action).value.0;
    var w := NextWait(env, true);
    AbsorbSilent(Put(store, d, UnknownReading), d, w.inbound);
  }

  // Scenarios.

  /** Both readings unknown and nothing arriving: three probes, then the "check manually" reply. */
  lemma NoReportScenario()
    ensures StateRun("light", 0, Startup, true, [])
         == Run(Report(Light, Unknown),
                [Publish(LedCtlTopic, "-1"), Publish(LedCtlTopic, "-1"), Publish(LedCtlTopic, "-1")],
                Startup, true)
  {
    QueryGivesUp("light", Light, 0, Startup, []);
    QueryOnlyWaitsWrite("light", 0, Startup, true, []);
  }

  /** One attempt of a query on an unknown reading: probe, wait, try again. */
  lemma ProbeStep(device: string, d: Device, retry: int, store: Readings, env: seq<Wait>)
    requires LookupDevice(device) == Some(d) && Classify(d, Get(store, d)) == Unknown
    requires retry != -1 && retry < MaxRetry
    ensures var w := NextWait(env, true);
      StateRun(device, retry, store, true, env)
      == Sending([Probe(d)], StateRun(device, retry + 1, Absorb(store, w.inbound), w.link, Later(env)))
  {
  }

  /** An accepted control: reset, publish the command, wait, then query from attempt 0. */
  lemma ControlStep(device: string, action: string, store: Readings, env: seq<Wait>)
    requires Command(device, action).Some?
    ensures var (d, payload) := Command(device, action).value;
      var w := NextWait(env, true);
      ControlRun(device, action, store, true, env)
      == Sending([Publish(CommandTopic(d), payload)],
                 StateRun(device, 0, Absorb(Put(store, d, UnknownReading), w.inbound), w.link, Later(env)))
  {
  }

  /** The light, unknown, reports 1 after the first probe: one probe, then "light is on". */
  lemma LightReportsScenario(door: int)
    ensures StateRun("light", 0, Readings(-1, door), true, [Wait([Inbound(LedTopic, "1")], true)])
         == Run(Report(Light, On), [Publish(LedCtlTopic, "-1")], Readings(1, door), true)
  {
    var env := [Wait([Inbound(LedTopic, "1")], true)];
    var answered := Run(Report(Light, On), [], Readings(1, door), true);
    assert StateRun("light", 0, Readings(-1, door), true, env) == Sending([Probe(Light)], answered) by {
      assert Decimal.Show(1) == "1";
      DeliverReport(Readings(-1, door), Light, 1);
      AbsorbOne(Readings(-1, door), Inbound(LedTopic, "1"));
      ProbeStep("light", Light, 0, Readings(-1, door), env);
    }
  }

  /** Opening the door while it reports 80 during the settle wait. */
  lemma OpenDoorScenario(store: Readings)
    ensures ControlRun("door", "open", store, true, [Wait([Inbound(DoorTopic, "80")], true)])
         == Run(Report(Door, Open), [Publish(DoorCtlTopic, "80")], Readings(store.light, 80), true)
  {
    var reported := Readings(store.light, 80);
    assert Decimal.Show(80) == "80" by {
      assert Decimal.NatText(8) == "8";
    }
    DeliverReport(Put(store, Door, UnknownReading), Door, 80);
    AbsorbOne(Put(store, Door, UnknownReading), Inbound(DoorTopic, "80"));
    assert StateRun("door", 0, reported, true, []) == Run(Report(Door, Open), [], reported, true);
  }

  /** "open" is not an action of the light. */
  lemma MismatchedActionScenario(store: Readings, env: seq<Wait>)
    ensures ControlRun("light", "open", store, true, env)
         == Run(InvalidAction("light", "open"), [], store, true)
  {
  }

  /** A retry count below -1 makes more than `MaxRetry` probes: from -2, four. */
  lemma NegativeRetryScenario()
    ensures |StateRun("door", -2, Startup, true, []).sent| == MaxRetry + 1
  {
    QueryGivesUp("door", Door, -2, Startup, []);
  }
}
