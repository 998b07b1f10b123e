/**
 * The telemetry poller (src/war_thunder_connector.rs, `run_war_thunder_polling_loop`). One
 * iteration checks for at most one pending command without blocking, fetches one snapshot,
 * reports it, and sleeps for the current interval. The HTTP fetch and its decoding are inputs.
 */
module Telemetry {
  import opened Wrappers
  import opened Configuration
  import opened Messages
  import opened GameEvents
  import opened DeviceRegistry

  /** The loop's local variables. */
  datatype PollerState = PollerState(intervalMilliseconds: nat, lastKnownHealth: Option<real>)

  /** What a non-blocking receive on the command channel returns. */
  datatype CommandPoll = NoCommand | ChannelClosed | Pending(command: Command)

  /** How the request for the indicators ended. */
  datatype FetchOutcome =
    | Fetched(indicators: Indicators)  // success status, body decoded
    | BadStatus                        // the endpoint answered with a non-success status
    | RequestFailed                    // no answer: the game is not running or its API is off
    | Unparsable(detail: string)       // success status, body not decodable

  /** The inputs of one iteration; `guiReceiving` is false once the coordinator's receiver is gone. */
  datatype Tick = Tick(command: CommandPoll, fetch: FetchOutcome, guiReceiving: bool)

  /** Sent updates (every send attempted, in order) and whether the loop breaks. */
  datatype FetchResult = FetchResult(lastKnownHealth: Option<real>, emitted: seq<Update>, terminated: bool)

  datatype StepResult = StepResult(next: PollerState, emitted: seq<Update>, terminated: bool)

  function Abs(x: real): real { if x < 0.0 then -x else x }

  /** The poller's own damage test: both readings exist, and health fell by more than the threshold. */
  predicate DamageObserved(current: Option<real>, last: Option<real>) {
    current.Some? && last.Some? && Abs(current.value - last.value) > DamageThreshold && current.value < last.value
  }

  /** The poller logs damage exactly when the rule evaluation would fire a damage rule. */
  lemma DamageObservedIsHealthDrop(current: Option<real>, last: Option<real>)
    ensures DamageObserved(current, last) <==> HealthDropped(current, last)
  {
  }

  /** A settings update carries the new interval; every other poll result keeps the old one. */
  function IntervalAfter(interval: nat, poll: CommandPoll): nat {
    match poll
    case Pending(UpdateApplicationSettings(settings)) => settings.pollingIntervalMilliseconds
    case _ => interval
  }

  /** The log line that acknowledges a settings update; other poll results send none. */
  function SettingsNotice(poll: CommandPoll): seq<Update> {
    match poll
    case Pending(UpdateApplicationSettings(settings)) => [LogMessage(PollingIntervalChanged(settings.pollingIntervalMilliseconds))]
    case _ => []
  }

  /** The fetch half of an iteration: remember health, send what was learnt, break on a closed channel. */
  function FetchStep(last: Option<real>, fetch: FetchOutcome, guiReceiving: bool): (r: FetchResult)
    ensures r.terminated <==> !guiReceiving
    ensures fetch.Fetched? && fetch.indicators.healthPercentage.Some? ==>
              r.lastKnownHealth == fetch.indicators.healthPercentage
    ensures !(fetch.Fetched? && fetch.indicators.healthPercentage.Some?) ==> r.lastKnownHealth == last
    ensures fetch.Fetched? ==>
              r.emitted == (if DamageObserved(fetch.indicators.healthPercentage, last)
                            then [LogMessage(DamageDetected(fetch.indicators.healthPercentage.value))] else [])
                           + [WarThunderIndicatorsUpdate(fetch.indicators)]
                           + (if guiReceiving then [WarThunderConnectionStatus(true)] else [])
    ensures fetch.BadStatus? || fetch.RequestFailed? ==> r.emitted == [WarThunderConnectionStatus(false)]
    ensures fetch.Unparsable? ==>
              r.emitted == [LogMessage(TelemetryParseFailed(fetch.detail)), WarThunderConnectionStatus(false)]
  {
    match fetch
    case Fetched(indicators) =>
      var health := indicators.healthPercentage;
      var notice := if DamageObserved(health, last) then [LogMessage(DamageDetected(health.value))] else [];
      var remembered := if health.Some? then health else last;
      if !guiReceiving then
        FetchResult(remembered, notice + [WarThunderIndicatorsUpdate(indicators)], true)
      else
        FetchResult(remembered, notice + [WarThunderIndicatorsUpdate(indicators), WarThunderConnectionStatus(true)], false)
    case Unparsable(detail) =>
      FetchResult(last, [LogMessage(TelemetryParseFailed(detail)), WarThunderConnectionStatus(false)], !guiReceiving)
    case _ =>
      FetchResult(last, [WarThunderConnectionStatus(false)], !guiReceiving)
  }

  /** One iteration of the polling loop. */
  function PollStep(st: PollerState, tick: Tick): (r: StepResult)
    ensures r.terminated <==> tick.command.ChannelClosed? || tick.command == Pending(StopProcessing) || !tick.guiReceiving
    ensures r.next.intervalMilliseconds == IntervalAfter(st.intervalMilliseconds, tick.command)
    ensures tick.command.ChannelClosed? ==> r.next == st && r.emitted == []
    ensures tick.command == Pending(StopProcessing) ==>
              r.next == st && r.emitted == [LogMessage(PollingStopped), WarThunderConnectionStatus(false)]
    ensures !tick.command.ChannelClosed? && tick.command != Pending(StopProcessing) ==>
              var fetched := FetchStep(st.lastKnownHealth, tick.fetch, tick.guiReceiving);
              && r.next.lastKnownHealth == fetched.lastKnownHealth
              && r.emitted == SettingsNotice(tick.command) + fetched.emitted
  {
    match tick.command
    case ChannelClosed => StepResult(st, [], true)
    case Pending(StopProcessing) => StepResult(st, [LogMessage(PollingStopped), WarThunderConnectionStatus(false)], true)
    case _ =>
      var interval := IntervalAfter(st.intervalMilliseconds, tick.command);
      var fetched := FetchStep(st.lastKnownHealth, tick.fetch, tick.guiReceiving);
      StepResult(PollerState(interval, fetched.lastKnownHealth), SettingsNotice(tick.command) + fetched.emitted, fetched.terminated)
  }

  /** Everything a run of the loop over a finite sequence of iterations produces. */
  datatype RunResult = RunResult(final: PollerState, emitted: seq<Update>, sleeps: seq<nat>, terminated: bool, consumed: nat)

  /** The loop over `ticks`: iterate until an iteration breaks; every completed iteration sleeps. */
  function Run(st: PollerState, ticks: seq<Tick>): (r: RunResult)
    ensures r.consumed <= |ticks|
    ensures r.terminated ==> 0 < r.consumed
    ensures !r.terminated ==> r.consumed == |ticks|
    ensures |r.sleeps| == if r.terminated then r.consumed - 1 else r.consumed
    decreases |ticks|
  {
    if ticks == [] then RunResult(st, [], [], false, 0)
    else
      var step := PollStep(st, ticks[0]);
      if step.terminated then RunResult(step.next, step.emitted, [], true, 1)
      else
        Then(step, Run(step.next, ticks[1..]))
  }

  /** A first iteration that does not break the loop, followed by the run of the later ones. */
  function Then(first: StepResult, rest: RunResult): RunResult {
    RunResult(rest.final, first.emitted + rest.emitted, [first.next.intervalMilliseconds] + rest.sleeps,
              rest.terminated, 1 + rest.consumed)
  }

  /** A run that has not broken the loop, followed by one more iteration. */
  function Extend(before: RunResult, step: StepResult): RunResult {
    RunResult(step.next, before.emitted + step.emitted,
              before.sleeps + (if step.terminated then [] else [step.next.intervalMilliseconds]),
              step.terminated, before.consumed + 1)
  }

  /** Prepending a first iteration and appending a last one can be done in either order. */
  lemma ThenExtend(first: StepResult, rest: RunResult, step: StepResult)
    ensures Then(first, Extend(rest, step)) == Extend(Then(first, rest), step)
  {
    var more := if step.terminated then [] else [step.next.intervalMilliseconds];
    assert first.emitted + (rest.emitted + step.emitted) == (first.emitted + rest.emitted) + step.emitted;
    assert [first.next.intervalMilliseconds] + (rest.sleeps + more) == ([first.next.intervalMilliseconds] + rest.sleeps) + more;
  }

  /**
   * A run grows one iteration at a time: as long as the loop has not broken, running one more
   * iteration appends that iteration's updates and, unless it breaks, its sleep.
   */
  lemma {:induction false} RunSnoc(st: PollerState, ticks: seq<Tick>, k: nat)
    requires k < |ticks| && !Run(st, ticks[..k]).terminated
    ensures Run(st, ticks[..k + 1]) == Extend(Run(st, ticks[..k]), PollStep(Run(st, ticks[..k]).final, ticks[k]))
    decreases k, 1
  {
    if k == 0 {
      assert ticks[..1] == [ticks[0]] && ticks[..0] == [];
      assert ticks[..1][1..] == [];
      var step := PollStep(st, ticks[0]);
      assert [] + step.emitted == step.emitted && step.emitted + [] == step.emitted;
    } else {
      RunSnocLater(st, ticks, k);
    }
  }

  /** RunSnoc past the first iteration: peel that iteration off both runs and use RunSnoc on the rest. */
  lemma {:induction false} RunSnocLater(st: PollerState, ticks: seq<Tick>, k: nat)
    requires 0 < k < |ticks| && !Run(st, ticks[..k]).terminated
    ensures Run(st, ticks[..k + 1]) == Extend(Run(st, ticks[..k]), PollStep(Run(st, ticks[..k]).final, ticks[k]))
    decreases k, 0
  {
    var first := PollStep(st, ticks[0]);
    RunPrefixFirstContinues(st, ticks, k);
    RunPrefixCons(st, ticks, k);
    RunPrefixCons(st, ticks, k + 1);
    RunSnoc(first.next, ticks[1..], k - 1);
    assert ticks[1..][k - 1] == ticks[k];
    var rest := Run(first.next, ticks[1..][..k - 1]);
    ThenExtend(first, rest, PollStep(rest.final, ticks[k]));
  }

  /** A non-empty prefix that has not broken the loop did not break it at its first iteration. */
  lemma RunPrefixFirstContinues(st: PollerState, ticks: seq<Tick>, k: nat)
    requires 0 < k <= |ticks| && !Run(st, ticks[..k]).terminated
    ensures !PollStep(st, ticks[0]).terminated
  {
    assert ticks[..k][0] == ticks[0];
  }

  /** A non-empty prefix run, when its first iteration continues, is that iteration then the rest's prefix. */
  lemma RunPrefixCons(st: PollerState, ticks: seq<Tick>, k: nat)
    requires 0 < k <= |ticks| && !PollStep(st, ticks[0]).terminated
    ensures Run(st, ticks[..k]) == Then(PollStep(st, ticks[0]), Run(PollStep(st, ticks[0]).next, ticks[1..][..k - 1]))
  {
    assert ticks[..k][0] == ticks[0];
    assert ticks[..k][1..] == ticks[1..][..k - 1];
  }

  /** Before the iteration that breaks the loop, no prefix of the run has broken it. */
  lemma {:induction false} RunPrefixContinues(st: PollerState, ticks: seq<Tick>, k: nat)
    requires k < Run(st, ticks).consumed
    ensures !Run(st, ticks[..k]).terminated
    decreases k
  {
    if k > 0 {
      var first := PollStep(st, ticks[0]);
      assert ticks[..k][0] == ticks[0];
      assert ticks[..k][1..] == ticks[1..][..k - 1];
      RunPrefixContinues(first.next, ticks[1..], k - 1);
    }
  }

  /** A run reads no iteration past the one that breaks the loop. */
  lemma {:induction false} RunUsesOnlyConsumed(st: PollerState, ticks: seq<Tick>)
    ensures Run(st, ticks) == Run(st, ticks[..Run(st, ticks).consumed])
    decreases |ticks|
  {
    if ticks != [] {
      var first := PollStep(st, ticks[0]);
      var r := Run(st, ticks);
      if first.terminated {
        assert ticks[..1] == [ticks[0]];
      } else {
        var rest := Run(first.next, ticks[1..]);
        RunUsesOnlyConsumed(first.next, ticks[1..]);
        assert ticks[..r.consumed][0] == ticks[0];
        assert ticks[..r.consumed][1..] == ticks[1..][..rest.consumed];
      }
    }
  }

  /**
   * The loop breaks at the first iteration that asks it to: every iteration that sleeps, the
   * state it started from being that of the run so far, did not break.
   */
  lemma RunBreaksAtFirst(st: PollerState, ticks: seq<Tick>)
    ensures forall k :: 0 <= k < |Run(st, ticks).sleeps| ==>
              !Run(st, ticks[..k]).terminated && !PollStep(Run(st, ticks[..k]).final, ticks[k]).terminated
  {
    var r := Run(st, ticks);
    forall k | 0 <= k < |r.sleeps|
      ensures !Run(st, ticks[..k]).terminated && !PollStep(Run(st, ticks[..k]).final, ticks[k]).terminated
    {
      RunPrefixContinues(st, ticks, k);
      RunSnoc(st, ticks, k);
      if k + 1 < r.consumed {
        RunPrefixContinues(st, ticks, k + 1);
      } else {
        assert ticks[..k + 1] == ticks;
      }
    }
  }

  /** A run that broke the loop ended at an iteration that asked for it. */
  lemma RunEndsWithBreak(st: PollerState, ticks: seq<Tick>)
    ensures var r := Run(st, ticks);
            r.terminated ==> PollStep(Run(st, ticks[..r.consumed - 1]).final, ticks[r.consumed - 1]).terminated
  {
    var r := Run(st, ticks);
    if r.terminated {
      RunUsesOnlyConsumed(st, ticks);
      RunPrefixContinues(st, ticks, r.consumed - 1);
      RunSnoc(st, ticks, r.consumed - 1);
    }
  }

  /** An iteration sends log, indicator and connection-status updates only: nothing about devices. */
  lemma PollStepSendsNoDeviceEvents(st: PollerState, tick: Tick)
    ensures forall u :: u in PollStep(st, tick).emitted ==> !IsDeviceEvent(u)
  {
  }

  /** The same, as the filter the coordinator's mirror sees. */
  lemma StepSendsNoDeviceEvents(st: PollerState, tick: Tick)
    ensures DeviceEvents(PollStep(st, tick).emitted) == []
  {
    PollStepSendsNoDeviceEvents(st, tick);
    DeviceEventsNone(PollStep(st, tick).emitted);
  }

  /**
   * The poller never sends a device update, so in the coordinator's queue, where its updates
   * are interleaved with the session's, the device updates are the session's alone.
   */
  lemma {:induction false} RunSendsNoDeviceEvents(st: PollerState, ticks: seq<Tick>)
    ensures DeviceEvents(Run(st, ticks).emitted) == []
    decreases |ticks|
  {
    if ticks != [] {
      var step := PollStep(st, ticks[0]);
      StepSendsNoDeviceEvents(st, ticks[0]);
      RunFrom(st, ticks, 0);
      assert ticks[0..] == ticks;
      if !step.terminated {
        var rest := Run(step.next, ticks[1..]);
        RunSendsNoDeviceEvents(step.next, ticks[1..]);
        DeviceEventsAppend(step.emitted, rest.emitted);
        assert Run(st, ticks).emitted == step.emitted + rest.emitted;
      }
    }
  }

  /** The interval in force after the commands of `ticks`: that of the latest settings update. */
  function LatestInterval(interval: nat, ticks: seq<Tick>): nat
    decreases |ticks|
  {
    if ticks == [] then interval else LatestInterval(IntervalAfter(interval, ticks[0].command), ticks[1..])
  }

  /**
   * A settings update changes the sleep of its own iteration and of every later one, until the
   * next update: each sleep uses the interval of the latest update seen so far.
   */
  lemma {:induction false} SleepsFollowLatestSettings(st: PollerState, ticks: seq<Tick>)
    ensures forall k :: 0 <= k < |Run(st, ticks).sleeps| ==>
              Run(st, ticks).sleeps[k] == LatestInterval(st.intervalMilliseconds, ticks[..k + 1])
    decreases |ticks|
  {
    if ticks != [] {
      var step := PollStep(st, ticks[0]);
      if !step.terminated {
        SleepsFollowLatestSettings(step.next, ticks[1..]);
        var r := Run(st, ticks);
        forall k | 0 <= k < |r.sleeps|
          ensures r.sleeps[k] == LatestInterval(st.intervalMilliseconds, ticks[..k + 1])
        {
          var prefix := ticks[..k + 1];
          assert prefix[0] == ticks[0] && prefix[1..] == ticks[1..][..k];
          if k > 0 {
            assert ticks[1..][..k] == ticks[1..][..(k - 1) + 1];
          } else {
            assert prefix[1..] == [];
          }
        }
      }
    }
  }

  /** A run over the ticks from `i` on, after the loop has sent `emitted` and slept `sleeps` in `i` iterations. */
  function Resume(emitted: seq<Update>, sleeps: seq<nat>, i: nat, rest: RunResult): RunResult {
    RunResult(rest.final, emitted + rest.emitted, sleeps + rest.sleeps, rest.terminated, i + rest.consumed)
  }

  /** The run from tick `i` on starts with the iteration at `i`; it stops there if that iteration ends the loop. */
  lemma RunFrom(st: PollerState, ticks: seq<Tick>, i: nat)
    requires i < |ticks|
    ensures var step := PollStep(st, ticks[i]);
            Run(st, ticks[i..]) ==
              if step.terminated then RunResult(step.next, step.emitted, [], true, 1)
              else Then(step, Run(step.next, ticks[i + 1..]))
  {
    assert ticks[i..][0] == ticks[i] && ticks[i..][1..] == ticks[i + 1..];
  }

  /** One completed iteration moves from the rest of the run into what the loop has done. */
  lemma ResumeThen(emitted: seq<Update>, sleeps: seq<nat>, i: nat, step: StepResult, later: RunResult)
    ensures Resume(emitted, sleeps, i, Then(step, later)) ==
            Resume(emitted + step.emitted, sleeps + [step.next.intervalMilliseconds], i + 1, later)
  {
    assert emitted + (step.emitted + later.emitted) == (emitted + step.emitted) + later.emitted;
    assert sleeps + ([step.next.intervalMilliseconds] + later.sleeps) == (sleeps + [step.next.intervalMilliseconds]) + later.sleeps;
  }

  /**
   * `run_war_thunder_polling_loop` over a finite sequence of iterations, starting with no known
   * health. Returns what was sent, the length of every sleep, and whether the loop broke.
   */
  method RunPollingLoop(initialInterval: nat, ticks: seq<Tick>)
    returns (emitted: seq<Update>, sleeps: seq<nat>, terminated: bool)
    ensures var run := Run(PollerState(initialInterval, None), ticks);
            emitted == run.emitted && sleeps == run.sleeps && terminated == run.terminated
  {
    var start := PollerState(initialInterval, None);
    var st := start;
    emitted, sleeps, terminated := [], [], false;
    var i := 0;
    while i < |ticks|
      invariant 0 <= i <= |ticks|
      invariant Run(start, ticks) == Resume(emitted, sleeps, i, Run(st, ticks[i..]))
    {
      var step := PollStep(st, ticks[i]);
      RunFrom(st, ticks, i);
      if step.terminated {
        assert sleeps + [] == sleeps;
        emitted := emitted + step.emitted;
        terminated := true;
        break;
      }
      ResumeThen(emitted, sleeps, i, step, Run(step.next, ticks[i + 1..]));
      emitted := emitted + step.emitted;
      sleeps := sleeps + [step.next.intervalMilliseconds];
      st := step.next;
      i := i + 1;
    }
    if !terminated {
      assert ticks[i..] == [];
    }
  }
}
