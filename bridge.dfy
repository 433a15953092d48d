/**
 * The process-wide state of the bridge: the reading store `deviceValues`,
 * whether the MQTT client is connected, and the messages it has published;
 * with the callbacks and tools that change it.
 */
module Bridge {
  import opened Optional
  import opened Home
  import opened Sync
  import Decimal
  import Backoff

  class Bridge {
    var light: int
    var door: int
    var connected: bool
    /** Every `client.publish`, oldest first. */
    var outbox: seq<Publish>

    function Store(): Readings
      reads this
    {
      Readings(light, door)
    }

    /** Both readings start unknown; nothing has been published. */
    constructor (linkUp: bool)
      ensures Store() == Startup && connected == linkUp && outbox == []
    {
      light, door := UnknownReading, UnknownReading;
      connected := linkUp;
      outbox := [];
    }

    /**
     * `on_message`: a reading topic overwrites its device's entry with the
     * decoded payload; `ok` is false when decoding raises, and then nothing
     * is written. Other topics change nothing.
     */
    method OnMessage(m: Inbound) returns (ok: bool)
      modifies this`light, this`door
      ensures ok <==> Deliver(old(Store()), m).Some?
      ensures Store() == if ok then Deliver(old(Store()), m).value else old(Store())
    {
      ok := true;
      if m.topic == LedTopic {
        var v := Decimal.Parse(m.payload);
        if v.None? {
          return false;
        }
        light := v.value;
      } else if m.topic == DoorTopic {
        var v := Decimal.Parse(m.payload);
        if v.None? {
          return false;
        }
        door := v.value;
      }
    }

    /**
     * A `time.sleep(WAIT_PUBLISH)`: the network thread hands each arriving
     * message to `on_message` until one raises, and the link ends in the
     * state the wait says.
     */
    method Settle(w: Wait)
      modifies this`light, this`door, this`connected
      ensures Store() == Absorb(old(Store()), w.inbound) && connected == w.link
    {
      var i := 0;
      while i < |w.inbound|
        invariant i <= |w.inbound|
        invariant Absorb(old(Store()), w.inbound) == Absorb(Store(), w.inbound[i..])
      {
        var ok := OnMessage(w.inbound[i]);
        if !ok {
          break;
        }
        assert w.inbound[i..][1..] == w.inbound[i + 1..];
        i := i + 1;
      }
      connected := w.link;
    }

    /**
     * The `deviceState` tool, its self-recursion on `retry_count` written as
     * a loop; `env` supplies the waits.
     */
    method DeviceState(device: string, retryCount: int, env: seq<Wait>) returns (reply: string)
      modifies this
      ensures var r := StateRun(device, retryCount, old(Store()), old(connected), env);
        reply == Text(r.reply) && outbox == old(outbox) + r.sent && Store() == r.store && connected == r.link
    {
      var retry, pending := retryCount, env;
      ghost var sent: seq<Publish> := [];
      while true
        invariant outbox == old(outbox) + sent
        invariant StateRun(device, retryCount, old(Store()), old(connected), env)
               == Sending(sent, StateRun(device, retry, Store(), connected, pending))
        decreases MaxRetry - retry
      {
        var answer, rest, probes := Attempt(device, retry, pending);
        if answer.Some? {
          return Text(answer.value);
        }
        SendingTwice(sent, probes, StateRun(device, retry + 1, Store(), connected, rest));
        Regroup(old(outbox), sent, probes);
        sent := sent + probes;
        retry, pending := retry + 1, rest;
      }
    }

    /**
     * One call of `deviceState` up to its self-call: `answer` is its reply
     * when it gives one; otherwise it has published `probes` (one refresh
     * probe, none on the suppressed attempt -1) and waited, and `rest` is
     * what remains of the waits for the next attempt.
     */
    method Attempt(device: string, retry: int, env: seq<Wait>)
      returns (answer: Option<Reply>, rest: seq<Wait>, ghost probes: seq<Publish>)
      modifies this`light, this`door, this`connected, this`outbox
      ensures outbox == old(outbox) + probes
      ensures answer.Some? ==> probes == []
      ensures answer.Some? ==>
        StateRun(device, retry, old(Store()), old(connected), env) == Run(answer.value, [], Store(), connected)
      ensures answer.None? ==> retry < MaxRetry
      ensures answer.None? && retry == -1 ==>
        probes == [] && Store() == old(Store()) && connected == old(connected) && rest == env
      ensures answer.None? && retry != -1 ==>
        var w := NextWait(env, old(connected));
        && LookupDevice(device).Some?
        && probes == [Probe(LookupDevice(device).value)]
        && Store() == Absorb(old(Store()), w.inbound) && connected == w.link
        && rest == Later(env)
      ensures answer.None? ==>
        StateRun(device, retry, old(Store()), old(connected), env)
        == Sending(probes, StateRun(device, retry + 1, Store(), connected, rest))
    {
      probes := [];
      if !connected {
        return Some(NotConnected), env, probes;
      }
      var d := LookupDevice(device);
      if d.None? {
        return Some(InvalidDevice), env, probes;
      }
      var st := Classify(d.value, Get(Store(), d.value));
      if st != Unknown {
        return Some(Report(d.value, st)), env, probes;
      }
      if retry >= MaxRetry {
        return Some(Report(d.value, Unknown)), env, probes;
      }
      if retry == -1 {
        SuppressedAttempt(device, Store(), connected, env);
        return None, env, probes;
      }
      var w := NextWait(env, connected);
      ProbeStep(device, d.value, retry, Store(), env);
      Refresh(d.value, w);
      probes := [Probe(d.value)];
      return None, Later(env), probes;
    }

    /** Publish a refresh probe for `d`, then wait. */
    method Refresh(d: Device, w: Wait)
      modifies this`light, this`door, this`connected, this`outbox
      ensures outbox == old(outbox) + [Probe(d)]
      ensures Store() == Absorb(old(Store()), w.inbound) && connected == w.link
    {
      outbox := outbox + [Probe(d)];
      Settle(w);
    }

    /**
     * The `deviceControl` tool: on an accepted pair, reset the reading to
     * unknown, publish the command, wait, and report `deviceState(device)`.
     */
    method DeviceControl(device: string, action: string, env: seq<Wait>) returns (reply: string)
      modifies this
      ensures var r := ControlRun(device, action, old(Store()), old(connected), env);
        reply == Text(r.reply) && outbox == old(outbox) + r.sent && Store() == r.store && connected == r.link
    {
      if !connected {
        return Text(NotConnected);
      }
      var accepted := Command(device, action);
      if accepted.None? {
        return Text(InvalidAction(device, action));
      }
      var (d, payload) := accepted.value;
      var w := NextWait(env, true);
      ghost var settled := Absorb(Put(Store(), d, UnknownReading), w.inbound);
      ghost var q := StateRun(device, 0, settled, w.link, Later(env));
      ghost var command := Publish(CommandTopic(d), payload);
      ControlStep(device, action, Store(), env);
      assert ControlRun(device, action, old(Store()), old(connected), env) == Sending([command], q);
      Actuate(d, payload);
      Settle(w);
      assert Store() == settled && connected == w.link;
      reply := DeviceState(device, 0, Later(env));
      Regroup(old(outbox), [command], q.sent);
    }

    /** Invalidate the device's reading, then publish the command to it. */
    method Actuate(d: Device, payload: string)
      modifies this`light, this`door, this`outbox
      ensures Store() == Put(old(Store()), d, UnknownReading)
      ensures outbox == old(outbox) + [Publish(CommandTopic(d), payload)]
    {
      if d == Light {
        light := UnknownReading;
      } else {
        door := UnknownReading;
      }
      outbox := outbox + [Publish(CommandTopic(d), payload)];
    }

    /**
     * `on_disconnect`: the link is down until a reconnect attempt succeeds;
     * returns the delays slept.
     */
    method OnDisconnect(outcomes: seq<bool>) returns (delays: seq<nat>)
      modifies this`connected
      ensures |delays| <= Backoff.MaxReconnectCount
      ensures forall i :: 0 <= i < |delays| ==> delays[i] == Backoff.DelayAt(i)
      ensures forall i :: 0 <= i < |delays| - 1 ==> !Backoff.Succeeds(outcomes, i)
      ensures connected <==> |delays| > 0 && Backoff.Succeeds(outcomes, |delays| - 1)
      ensures !connected ==> |delays| == Backoff.MaxReconnectCount
    {
      connected := false;
      var reconnected;
      delays, reconnected := Backoff.Reconnect(outcomes);
      connected := reconnected;
    }
  }
}
