/**
 * Model of ProgressBarHook (classy_vision/hooks/progress_bar_hook.py).
 *
 * The hook keeps three fields, `progress_bar`, `bar_size` and `batches`, and is driven by the
 * training loop's phase-start, update and phase-end callbacks. Whether the `progressbar` module
 * could be imported and whether this process is the master are passed in as booleans; the
 * widget itself is replaced by the list of events the hook sends to it.
 */
module Hooks {
  import opened Wrappers

  /** What the hook asks of the progress-bar widget. */
  datatype Event =
    | Start(maxValue: int)   // a bar created for `bar_size` batches and started at 0
    | Update(value: int)     // progress_bar.update(value)
    | Finish                 // progress_bar.finish()

  /** A progress-bar widget, created for a given number of batches. */
  datatype Bar = Bar(maxValue: int)

  /** The RuntimeError raised when the `progressbar` module is not installed. */
  datatype HookError = ProgressbarNotInstalled

  /** The callbacks this hook leaves as no-ops. */
  datatype NoopHook = Rendezvous | StartHook | Sample | Forward | Loss | Backward | End

  /** The hook's fields together with everything it has reported so far. */
  datatype HookState = HookState(progressBar: Option<Bar>, barSize: int, batches: nat, reported: seq<Event>)

  /** A hook as `__init__` leaves it: no bar, nothing counted, nothing reported. */
  const Fresh := HookState(None, 0, 0, [])

  function Min(a: int, b: int): int { if a <= b then a else b }

  /** `on_phase_start`: the availability check comes first and precedes any change. */
  function PhaseStartStep(s: HookState, available: bool, isMaster: bool, numBatchesPerPhase: int): Result<HookState, HookError>
  {
    if !available then Failure(ProgressbarNotInstalled)
    else if isMaster then
      Success(HookState(Some(Bar(numBatchesPerPhase)), numBatchesPerPhase, 0, s.reported + [Start(numBatchesPerPhase)]))
    else Success(s)
  }

  /** `on_update`: count one batch and report the count clamped to the bar size. */
  function UpdateStep(s: HookState, isMaster: bool): HookState
  {
    if isMaster && s.progressBar.Some? then
      s.(batches := s.batches + 1, reported := s.reported + [Update(Min(s.batches + 1, s.barSize))])
    else s
  }

  /** `on_phase_end`: finish the bar; nothing is reset. */
  function PhaseEndStep(s: HookState, isMaster: bool): HookState
  {
    if isMaster && s.progressBar.Some? then s.(reported := s.reported + [Finish]) else s
  }

  /** One callback as the hook-dispatch mechanism issues it. */
  datatype Call =
    | PhaseStartCall(available: bool, isMaster: bool, numBatchesPerPhase: int)
    | UpdateCall(isMaster: bool)
    | PhaseEndCall(isMaster: bool)
    | NoopCall(hook: NoopHook)

  function Step(s: HookState, c: Call): Result<HookState, HookError>
  {
    match c
    case PhaseStartCall(available, isMaster, n) => PhaseStartStep(s, available, isMaster, n)
    case UpdateCall(isMaster) => Success(UpdateStep(s, isMaster))
    case PhaseEndCall(isMaster) => Success(PhaseEndStep(s, isMaster))
    case NoopCall(_) => Success(s)
  }

  /** A sequence of callbacks; a raised error propagates to the caller and ends the run. */
  function Run(s: HookState, calls: seq<Call>): Result<HookState, HookError>
    decreases |calls|
  {
    if calls == [] then Success(s)
    else match Step(s, calls[0])
      case Failure(e) => Failure(e)
      case Success(t) => Run(t, calls[1..])
  }

  /** The bar size of the most recently started bar in a report log. */
  ghost function LastStart(log: seq<Event>): Option<int>
  {
    if log == [] then None
    else if log[|log| - 1].Start? then Some(log[|log| - 1].maxValue)
    else LastStart(log[..|log| - 1])
  }

  /** Every value reported to a bar is at most the size that bar was started with. */
  ghost predicate ReportsWithinBar(log: seq<Event>)
  {
    forall i | 0 <= i < |log| && log[i].Update? ::
      LastStart(log[..i]).Some? && log[i].value <= LastStart(log[..i]).value
  }

  /** The hook's invariant: a present bar is the one last started, sized `bar_size`. */
  ghost predicate Inv(s: HookState)
  {
    && ReportsWithinBar(s.reported)
    && (s.progressBar.Some? ==>
          s.progressBar.value.maxValue == s.barSize && LastStart(s.reported) == Some(s.barSize))
  }

  lemma {:induction false} ReportsWithinBarAppend(log: seq<Event>, e: Event)
    requires ReportsWithinBar(log)
    requires e.Update? ==> LastStart(log).Some? && e.value <= LastStart(log).value
    ensures ReportsWithinBar(log + [e])
  {
    var log' := log + [e];
    assert log'[..|log|] == log;
    forall i | 0 <= i < |log'| && log'[i].Update?
      ensures LastStart(log'[..i]).Some? && log'[i].value <= LastStart(log'[..i]).value
    {
      if i < |log| {
        assert log'[..i] == log[..i];
      }
    }
  }

  /** Every callback keeps the invariant, so no reported value exceeds its bar's size. */
  lemma StepPreservesInv(s: HookState, c: Call)
    requires Inv(s)
    ensures Step(s, c).Success? ==> Inv(Step(s, c).value)
  {
    match c
    case PhaseStartCall(available, isMaster, n) =>
      if available && isMaster {
        ReportsWithinBarAppend(s.reported, Start(n));
        assert (s.reported + [Start(n)])[..|s.reported|] == s.reported;
      }
    case UpdateCall(isMaster) =>
      if isMaster && s.progressBar.Some? {
        ReportsWithinBarAppend(s.reported, Update(Min(s.batches + 1, s.barSize)));
        assert (s.reported + [Update(Min(s.batches + 1, s.barSize))])[..|s.reported|] == s.reported;
      }
    case PhaseEndCall(isMaster) =>
      if isMaster && s.progressBar.Some? {
        ReportsWithinBarAppend(s.reported, Finish);
        assert (s.reported + [Finish])[..|s.reported|] == s.reported;
      }
    case NoopCall(_) =>
  }

  /** Over any sequence of callbacks, every reported value stays within its bar's size. */
  lemma {:induction false} RunPreservesInv(s: HookState, calls: seq<Call>)
    requires Inv(s)
    ensures Run(s, calls).Success? ==> Inv(Run(s, calls).value)
    decreases |calls|
  {
    if calls != [] {
      StepPreservesInv(s, calls[0]);
      if Step(s, calls[0]).Success? {
        RunPreservesInv(Step(s, calls[0]).value, calls[1..]);
      }
    }
  }

  /** A fresh hook satisfies the invariant. */
  lemma FreshInv()
    ensures Inv(Fresh)
  {
  }

  /** Without the progressbar module, phase start raises on every role and changes nothing. */
  lemma PhaseStartWithoutProgressbarRaises(s: HookState, isMaster: bool, n: int)
    ensures PhaseStartStep(s, false, isMaster, n) == Failure(ProgressbarNotInstalled)
    ensures Run(s, [PhaseStartCall(false, isMaster, n)]) == Failure(ProgressbarNotInstalled)
  {
  }

  function Repeat(c: Call, k: nat): (calls: seq<Call>)
    ensures |calls| == k && forall i :: 0 <= i < k ==> calls[i] == c
  {
    if k == 0 then [] else [c] + Repeat(c, k - 1)
  }

  /** The reports `k` updates make on a bar of size `n` after `b` batches were counted. */
  function Progress(n: int, b: nat, k: nat): (es: seq<Event>)
    ensures |es| == k
  {
    seq(k, i requires 0 <= i < k => Update(Min(b + i + 1, n)))
  }

  /**
   * On master with a bar present, `k` updates count exactly `k` batches and report
   * `min(b + 1, n), ..., min(b + k, n)`; bar and bar size stay as they were.
   */
  lemma {:induction false} UpdatesReportClampedCount(s: HookState, k: nat)
    requires s.progressBar.Some?
    ensures Run(s, Repeat(UpdateCall(true), k)).Success?
    ensures Run(s, Repeat(UpdateCall(true), k)).value
            == s.(batches := s.batches + k, reported := s.reported + Progress(s.barSize, s.batches, k))
    decreases k
  {
    if k == 0 {
      assert s.reported + [] == s.reported;
    } else {
      var t := UpdateStep(s, true);
      assert Repeat(UpdateCall(true), k)[1..] == Repeat(UpdateCall(true), k - 1);
      UpdatesReportClampedCount(t, k - 1);
      var tail := Progress(t.barSize, t.batches, k - 1);
      assert Progress(s.barSize, s.batches, k) == [Update(Min(s.batches + 1, s.barSize))] + tail by {
        forall i | 0 <= i < k
          ensures Progress(s.barSize, s.batches, k)[i] == ([Update(Min(s.batches + 1, s.barSize))] + tail)[i]
        {
          if i > 0 {
            assert tail[i - 1] == Update(Min(t.batches + (i - 1) + 1, t.barSize));
          }
        }
      }
      assert t.reported + tail == s.reported + Progress(s.barSize, s.batches, k);
    }
  }

  /**
   * After a master phase start of size `n`, the `k`-th update reports `min(k, n)`,
   * and `batches` is exactly `k`.
   */
  lemma {:induction false} KthUpdateReportsMin(s: HookState, n: int, k: nat)
    requires k > 0
    ensures var started := PhaseStartStep(s, true, true, n).value;
            var r := Run(started, Repeat(UpdateCall(true), k));
            && r.Success?
            && r.value.batches == k
            && r.value.barSize == n
            && r.value.reported == s.reported + [Start(n)] + Progress(n, 0, k)
            && r.value.reported[|r.value.reported| - 1] == Update(Min(k, n))
  {
    var started := PhaseStartStep(s, true, true, n).value;
    UpdatesReportClampedCount(started, k);
    var r := Run(started, Repeat(UpdateCall(true), k)).value;
    assert r.reported == started.reported + Progress(n, 0, k);
    assert r.reported[|r.reported| - 1] == Progress(n, 0, k)[k - 1];
  }

  /** The worked example: size 3, four updates, phase end reports 1, 2, 3, 3 and finishes. */
  lemma ClampedScenario()
    ensures Run(Fresh, [PhaseStartCall(true, true, 3)] + Repeat(UpdateCall(true), 4) + [PhaseEndCall(true)])
            == Success(HookState(Some(Bar(3)), 3, 4, [Start(3), Update(1), Update(2), Update(3), Update(3), Finish]))
  {
    var start := [PhaseStartCall(true, true, 3)];
    var updates := Repeat(UpdateCall(true), 4);
    var finish := [PhaseEndCall(true)];
    var started := HookState(Some(Bar(3)), 3, 0, [Start(3)]);
    var counted := HookState(Some(Bar(3)), 3, 4, [Start(3), Update(1), Update(2), Update(3), Update(3)]);
    assert Run(Fresh, start) == Success(started) by {
      assert Fresh.reported + [Start(3)] == [Start(3)];
      assert PhaseStartStep(Fresh, true, true, 3) == Success(started);
    }
    assert Run(started, updates) == Success(counted) by {
      UpdatesReportClampedCount(started, 4);
      var p := Progress(3, 0, 4);
      assert p[0] == Update(1) && p[1] == Update(2) && p[2] == Update(3) && p[3] == Update(3);
      assert started.reported + p == counted.reported;
    }
    assert Run(counted, finish) == Success(counted.(reported := counted.reported + [Finish])) by {
      assert Step(counted, PhaseEndCall(true)) == Success(counted.(reported := counted.reported + [Finish]));
    }
    RunAppend(Fresh, start, updates);
    RunAppend(Fresh, start + updates, finish);
    assert counted.reported + [Finish] == [Start(3), Update(1), Update(2), Update(3), Update(3), Finish];
  }

  /** Running two call sequences one after the other is running their concatenation. */
  lemma {:induction false} RunAppend(s: HookState, xs: seq<Call>, ys: seq<Call>)
    ensures Run(s, xs + ys) == match Run(s, xs) case Failure(e) => Failure(e) case Success(t) => Run(t, ys)
    decreases |xs|
  {
    if xs == [] {
      assert xs + ys == ys;
    } else {
      assert (xs + ys)[0] == xs[0];
      assert (xs + ys)[1..] == xs[1..] + ys;
      if Step(s, xs[0]).Success? {
        RunAppend(Step(s, xs[0]).value, xs[1..], ys);
      }
    }
  }

  /** A call made on a process that is not the master. */
  predicate NonMaster(c: Call)
  {
    match c
    case PhaseStartCall(_, isMaster, _) => !isMaster
    case UpdateCall(isMaster) => !isMaster
    case PhaseEndCall(isMaster) => !isMaster
    case NoopCall(_) => true
  }

  /**
   * On a non-master process no callback changes the hook or reports anything; the only
   * possible outcome besides that is the missing-module error.
   */
  lemma {:induction false} NonMasterIsInert(s: HookState, calls: seq<Call>)
    requires forall i :: 0 <= i < |calls| ==> NonMaster(calls[i])
    ensures Run(s, calls) == Success(s) || Run(s, calls) == Failure(ProgressbarNotInstalled)
    decreases |calls|
  {
    if calls != [] {
      NonMasterIsInert(s, calls[1..]);
    }
  }

  /** A call that is not a phase start. */
  predicate NotPhaseStart(c: Call) { !c.PhaseStartCall? }

  /** Before any phase start there is no bar, so updates and phase ends leave a fresh hook fresh. */
  lemma {:induction false} NoBarNoEffect(s: HookState, calls: seq<Call>)
    requires s.progressBar.None?
    requires forall i :: 0 <= i < |calls| ==> NotPhaseStart(calls[i])
    ensures Run(s, calls) == Success(s)
    decreases |calls|
  {
    if calls != [] {
      NoBarNoEffect(s, calls[1..]);
    }
  }

  /** Phase end keeps the bar: a later master update still counts and reports on it. */
  lemma UpdateAfterPhaseEndStillCounts(s: HookState)
    requires s.progressBar.Some?
    ensures UpdateStep(PhaseEndStep(s, true), true).batches == s.batches + 1
    ensures UpdateStep(PhaseEndStep(s, true), true).reported
            == s.reported + [Finish, Update(Min(s.batches + 1, s.barSize))]
  {
  }

  /** ProgressBarHook itself: its three fields, and the events sent to the widget so far. */
  class ProgressBarHook {
    var progressBar: Option<Bar>
    var barSize: int
    var batches: nat
    ghost var reported: seq<Event>

    ghost function State(): HookState
      reads this
    {
      HookState(progressBar, barSize, batches, reported)
    }

    ghost predicate Valid()
      reads this
    {
      Inv(State())
    }

    constructor ()
      ensures Valid()
      ensures progressBar == None && barSize == 0 && batches == 0 && reported == []
    {
      progressBar := None;
      barSize := 0;
      batches := 0;
      reported := [];
    }

    method OnPhaseStart(available: bool, isMaster: bool, numBatchesPerPhase: int) returns (raised: Option<HookError>)
      requires Valid()
      modifies this
      ensures Valid()
      ensures raised.Some? <==> !available
      ensures !available ==> raised == Some(ProgressbarNotInstalled) && State() == old(State())
      ensures available && !isMaster ==> State() == old(State())
      ensures available && isMaster ==>
        && barSize == numBatchesPerPhase
        && batches == 0
        && progressBar == Some(Bar(numBatchesPerPhase))
        && reported == old(reported) + [Start(numBatchesPerPhase)]
      ensures raised.None? ==> PhaseStartStep(old(State()), available, isMaster, numBatchesPerPhase) == Success(State())
    {
      StepPreservesInv(State(), PhaseStartCall(available, isMaster, numBatchesPerPhase));
      if !available {
        return Some(ProgressbarNotInstalled);
      }
      if isMaster {
        barSize := numBatchesPerPhase;
        batches := 0;
        progressBar := Some(Bar(barSize));
        reported := reported + [Start(barSize)];
      }
      raised := None;
    }

    method OnUpdate(isMaster: bool)
      requires Valid()
      modifies this
      ensures Valid()
      ensures State() == UpdateStep(old(State()), isMaster)
      ensures isMaster && old(progressBar).Some? ==>
        && batches == old(batches) + 1
        && reported == old(reported) + [Update(Min(batches, barSize))]
      ensures !(isMaster && old(progressBar).Some?) ==> State() == old(State())
    {
      StepPreservesInv(State(), UpdateCall(isMaster));
      if isMaster && progressBar.Some? {
        batches := batches + 1;
        reported := reported + [Update(Min(batches, barSize))];
      }
    }

    method OnPhaseEnd(isMaster: bool)
      requires Valid()
      modifies this
      ensures Valid()
      ensures State() == PhaseEndStep(old(State()), isMaster)
      ensures progressBar == old(progressBar) && barSize == old(barSize) && batches == old(batches)
      ensures reported == if isMaster && progressBar.Some? then old(reported) + [Finish] else old(reported)
    {
      StepPreservesInv(State(), PhaseEndCall(isMaster));
      if isMaster && progressBar.Some? {
        reported := reported + [Finish];
      }
    }

    /** on_rendezvous, on_start, on_sample, on_forward, on_loss, on_backward and on_end. */
    method OnNoop(hook: NoopHook)
      requires Valid()
      ensures Valid()
      ensures State() == old(State())
    {
    }
  }
}
