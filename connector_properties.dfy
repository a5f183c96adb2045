/**
 * Properties of the connector over sequences of events: the invariant of
 * every reachable state, the simulation counter's closed form and period,
 * the restart of the counter, and the outcomes of a connect attempt and of
 * the two kinds of disconnect.
 */
module ConnectorProperties {
  import opened Wrappers
  import opened BluetoothConnector

  /** The state after a sequence of events, applied in order. */
  function Run(s: Snapshot, events: seq<Event>): Snapshot
    decreases |events|
  {
    if events == [] then s else Run(Step(s, events[0]), events[1..])
  }

  /** `n` firings of the simulation interval. */
  function Ticks(n: nat): (r: seq<Event>)
    ensures |r| == n && forall i :: 0 <= i < n ==> r[i] == TimerFired
  {
    seq(n, _ => TimerFired)
  }

  lemma {:induction false} RunAppend(s: Snapshot, a: seq<Event>, b: seq<Event>)
    ensures Run(s, a + b) == Run(Run(s, a), b)
    decreases |a|
  {
    if a == [] {
      assert a + b == b;
    } else {
      assert (a + b)[1..] == a[1..] + b;
      RunAppend(Step(s, a[0]), a[1..], b);
    }
  }

  lemma RunSingle(s: Snapshot, e: Event)
    ensures Run(s, [e]) == Step(s, e)
  {
    assert [e][1..] == [];
  }

  lemma RunPair(s: Snapshot, e1: Event, e2: Event)
    ensures Run(s, [e1, e2]) == Step(Step(s, e1), e2)
  {
    assert [e1, e2][1..] == [e2];
    RunSingle(Step(s, e1), e2);
  }

  lemma {:induction false} RunPreservesInv(s: Snapshot, events: seq<Event>)
    requires Inv(s)
    ensures Inv(Run(s, events))
    ensures Run(s, events).supported == s.supported
    decreases |events|
  {
    if events != [] {
      RunPreservesInv(Step(s, events[0]), events[1..]);
    }
  }

  /**
   * From mount on, whatever happens: every reported level lies in 0..100,
   * the parent's connection flag agrees with the component's, and a
   * reported name is the one the component shows.
   */
  lemma Reachable(supported: bool, events: seq<Event>)
    ensures Inv(Run(Initial(supported), events))
    ensures var r := Run(Initial(supported), events);
      && (r.reportedLevel.Some? ==> 0 <= r.reportedLevel.value <= MaxLevel)
      && r.reportedConnected == r.isConnected
      && (r.reportedName.Some? ==> r.reportedName == r.deviceName)
  {
    RunPreservesInv(Initial(supported), events);
  }

  lemma ModAbsorb(x: int, k: nat)
    requires 0 <= x
    ensures ((x + SimStep) % SimModulus + SimStep * k) % SimModulus == (x + SimStep * (k + 1)) % SimModulus
  {
    var q := (x + SimStep) / SimModulus;
    assert x + SimStep == q * SimModulus + (x + SimStep) % SimModulus;
    assert x + SimStep * (k + 1) == (x + SimStep) % SimModulus + SimStep * k + q * SimModulus;
  }

  /** After `k` ticks the counter is `(x + 7k) mod 101`, and after at least one tick it has been reported. */
  lemma {:induction false} TicksClosedForm(s: Snapshot, k: nat)
    requires s.simulation && 0 <= s.simLevel <= MaxLevel
    ensures Run(s, Ticks(k)).simLevel == (s.simLevel + SimStep * k) % SimModulus
    ensures Run(s, Ticks(k)) == s.(simLevel := Run(s, Ticks(k)).simLevel,
                                   reportedLevel := Run(s, Ticks(k)).reportedLevel)
    ensures k > 0 ==> Run(s, Ticks(k)).reportedLevel == Some(Run(s, Ticks(k)).simLevel)
    ensures k == 0 ==> Run(s, Ticks(k)) == s
    decreases k
  {
    if k > 0 {
      var t := Step(s, TimerFired);
      assert Ticks(k)[0] == TimerFired && Ticks(k)[1..] == Ticks(k - 1);
      TicksClosedForm(t, k - 1);
      ModAbsorb(s.simLevel, k - 1);
    }
  }

  /** The counter returns to its value after 101 ticks. */
  lemma SimulationPeriod(s: Snapshot)
    requires s.simulation && 0 <= s.simLevel <= MaxLevel
    ensures Run(s, Ticks(SimModulus)).simLevel == s.simLevel
  {
    TicksClosedForm(s, SimModulus);
  }

  /** Without simulation no interval runs: ticks change nothing. */
  lemma {:induction false} OffStopsTicks(s: Snapshot, k: nat)
    requires !s.simulation
    ensures Run(s, Ticks(k)) == s
  {
    if k > 0 {
      assert Ticks(k)[0] == TimerFired && Ticks(k)[1..] == Ticks(k - 1);
      OffStopsTicks(s, k - 1);
    }
  }

  /**
   * Turning simulation off and on again, from any state, restarts the
   * counter: the `k`-th reading after the restart is `(12 + 7k) mod 101`.
   */
  lemma RestartsFromStart(s: Snapshot, k: nat)
    ensures var r := Run(s, [SimulationToggled(false), SimulationToggled(true)] + Ticks(k));
      && r.simLevel == (SimStart + SimStep * k) % SimModulus
      && (k > 0 ==> r.reportedLevel == Some(r.simLevel))
      && r.simulation && r.reportedConnected && r.reportedName == Some(SimDeviceName)
  {
    var toggles := [SimulationToggled(false), SimulationToggled(true)];
    RunAppend(s, toggles, Ticks(k));
    var off := Step(s, SimulationToggled(false));
    var on := Step(off, SimulationToggled(true));
    RunPair(s, SimulationToggled(false), SimulationToggled(true));
    TicksClosedForm(on, k);
  }

  /** Turning simulation off reports no device and no level, and no reading follows. */
  lemma OffThenTicks(s: Snapshot, k: nat)
    requires s.simulation
    ensures var r := Run(s, [SimulationToggled(false)] + Ticks(k));
      !r.simulation && !r.reportedConnected && r.reportedName == None && r.reportedLevel == None
  {
    RunAppend(s, [SimulationToggled(false)], Ticks(k));
    var off := Step(s, SimulationToggled(false));
    RunSingle(s, SimulationToggled(false));
    OffStopsTicks(off, k);
  }

  /**
   * A full connect attempt: afterwards nothing is pending, the error is that
   * of the first failed call (or none), and the parent sees a connection
   * exactly when every call resolved; after a failure the level is cleared.
   */
  lemma ConnectAttempt(s: Snapshot, a: Attempt)
    requires s.supported && !s.simulation
    ensures var r := Run(s, [ConnectCalled, AttemptSettled(a)]);
      && !r.isBusy && r.error == AttemptError(a)
      && (r.reportedConnected <==> AttemptError(a).None?)
      && (r.isConnected <==> AttemptError(a).None?)
      && (AttemptError(a).Some? ==> r.reportedLevel == None && r.reportedName == None)
      && (AttemptError(a).None? ==> r.handlerAttached && r.linked && r.reportedName == a.device.name)
  {
    RunPair(s, ConnectCalled, AttemptSettled(a));
    var started := Step(s, ConnectCalled);
    assert started.isBusy && started.error == None;
  }

  /** While an attempt is pending the button ignores clicks; once it settles the button works again. */
  lemma ButtonDuringAttempt(s: Snapshot, a: Attempt)
    requires ButtonAction(s) == RunsConnect
    ensures Step(s, ButtonClicked).isBusy
    ensures ButtonAction(Step(s, ButtonClicked)) == Ignored
    ensures var r := Step(Step(s, ButtonClicked), AttemptSettled(a));
      ButtonAction(r) == if AttemptError(a).None? then RunsDisconnect else RunsConnect
  {
  }

  /** A click on a connected, idle button disconnects. */
  lemma ButtonDisconnects(s: Snapshot)
    requires ButtonAction(s) == RunsDisconnect
    ensures var r := Step(s, ButtonClicked);
      !r.isConnected && !r.reportedConnected && r.reportedLevel == None && ButtonAction(r) == RunsConnect
  {
  }

  /**
   * After a successful attempt a manual disconnect leaves the value handler
   * registered: a later notification still reports a level although the
   * parent has been told the device is disconnected.
   */
  lemma NotificationAfterManualDisconnect(s: Snapshot, a: Attempt, b: Byte)
    requires s.supported && !s.simulation && AttemptError(a).None?
    ensures var r := Run(s, [ConnectCalled, AttemptSettled(a), DisconnectCalled, ValueChanged(Some([b]))]);
      !r.reportedConnected && r.reportedLevel == Some(Clamp(b))
  {
    var attempt := [ConnectCalled, AttemptSettled(a)];
    var after := [DisconnectCalled, ValueChanged(Some([b]))];
    assert attempt + after == [ConnectCalled, AttemptSettled(a), DisconnectCalled, ValueChanged(Some([b]))];
    RunAppend(s, attempt, after);
    ConnectAttempt(s, a);
    RunPair(Run(s, attempt), DisconnectCalled, ValueChanged(Some([b])));
  }

  /** A remote disconnect instead detaches the handler: later notifications report nothing. */
  lemma NotificationAfterRemoteDisconnect(s: Snapshot, a: Attempt, v: Option<seq<Byte>>)
    requires s.supported && !s.simulation && AttemptError(a).None?
    ensures var r := Run(s, [ConnectCalled, AttemptSettled(a), GattServerDisconnected, ValueChanged(v)]);
      !r.reportedConnected && !r.isConnected && r.reportedLevel == None && !r.handlerAttached
  {
    var attempt := [ConnectCalled, AttemptSettled(a)];
    var after := [GattServerDisconnected, ValueChanged(v)];
    assert attempt + after == [ConnectCalled, AttemptSettled(a), GattServerDisconnected, ValueChanged(v)];
    RunAppend(s, attempt, after);
    ConnectAttempt(s, a);
    RunPair(Run(s, attempt), GattServerDisconnected, ValueChanged(v));
  }

  /**
   * A tick followed by one re-run of the simulation effect: its cleanup and
   * then its set-up, the same transitions as the prop turning off and on.
   * This is what happens when the parent passes a new `onConnectionChange`
   * on every render, as the page does, so that each reported level re-runs
   * the effect.
   */
  function TickWithRerun(): seq<Event> {
    [TimerFired, SimulationToggled(false), SimulationToggled(true)]
  }

  /** `n` copies of `events`, one after another. */
  function Repeat(events: seq<Event>, n: nat): seq<Event> {
    if n == 0 then [] else events + Repeat(events, n - 1)
  }

  lemma TickWithRerunOnce(s: Snapshot)
    requires s.simulation
    ensures var r := Run(s, TickWithRerun());
      && r.simulation && r.simLevel == SimStart && r.reportedLevel == None
      && r.reportedConnected && r.reportedName == Some(SimDeviceName)
  {
    var events := TickWithRerun();
    assert events == [TimerFired] + [SimulationToggled(false), SimulationToggled(true)];
    RunAppend(s, [TimerFired], [SimulationToggled(false), SimulationToggled(true)]);
    RunSingle(s, TimerFired);
    RunPair(Step(s, TimerFired), SimulationToggled(false), SimulationToggled(true));
  }

  /**
   * With the effect re-run after every report, the counter never advances:
   * after any number of such rounds it is back at 12 with no level
   * reported, and the next tick reports 19 once more.
   */
  lemma {:induction false} CounterStuckWhenRerun(s: Snapshot, n: nat)
    requires s.simulation
    ensures var r := Run(s, Repeat(TickWithRerun(), n));
      && r.simulation
      && (n > 0 ==> r.simLevel == SimStart && r.reportedLevel == None)
      && (n > 0 ==> Step(r, TimerFired).reportedLevel == Some((SimStart + SimStep) % SimModulus))
    decreases n
  {
    if n > 0 {
      RunAppend(s, TickWithRerun(), Repeat(TickWithRerun(), n - 1));
      TickWithRerunOnce(s);
      var t := Run(s, TickWithRerun());
      CounterStuckWhenRerun(t, n - 1);
    }
  }
}
