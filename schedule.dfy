/**
 * The iteration schedule of a run without animation: `do_run` calls `train`
 * for iterations 0, 1, ..., `iterations`; each call renders with a padding
 * mode that alternates by iteration, checks in every `save_every`
 * iterations, takes an optimiser step and re-averages every
 * `overlay_every + overlay_offset` iterations. The tensor work behind each
 * of these is an abstract event here.
 */
module Schedule {
  import opened Wrappers
  import opened Arith

  /** `global_padding_mode`. */
  datatype PaddingMode = Reflection | Border

  /** What one `train` call does, in order, tagged with its iteration. */
  datatype Event =
    | Synth(it: nat, padding: PaddingMode)  // `ascend_txt`: render and score
    | CheckIn(it: nat)                      // `checkin`: save and report
    | Step(it: nat)                         // backward pass and optimiser step
    | ReAverage(it: nat)                    // `re_average_z`

  /** The options the schedule reads. */
  datatype ScheduleConfig = ScheduleConfig(saveEvery: int, overlayEvery: Option<int>, overlayOffset: int)

  /** The events of one `train` call, and whether it raised (a division by zero). */
  datatype TrainResult = TrainResult(events: seq<Event>, crashed: bool)

  /** A whole loop: it ran to the end, or the call for iteration `at` raised. */
  datatype RunResult = Finished(events: seq<Event>) | Crashed(events: seq<Event>, at: nat)

  /** `ascend_txt`: reflection on even iterations, border on odd ones. */
  function PaddingFor(it: nat): (m: PaddingMode)
    ensures m == Reflection <==> it % 2 == 0
  {
    if it % 2 == 0 then Reflection else Border
  }

  /** Consecutive iterations never share a padding mode. */
  lemma PaddingAlternates(it: nat)
    ensures PaddingFor(it + 1) != PaddingFor(it)
  {
  }

  /** `args.overlay_every` is truthy. */
  predicate OverlayOn(cfg: ScheduleConfig) {
    cfg.overlayEvery.Some? && cfg.overlayEvery.value != 0
  }

  function OverlayPeriod(cfg: ScheduleConfig): int
    requires OverlayOn(cfg)
  {
    cfg.overlayEvery.value + cfg.overlayOffset
  }

  /**
   * `train(args, it)`. A zero `save_every` raises at the check-in test; a
   * zero overlay period raises at the re-average test, which is evaluated
   * only when overlays are on and the iteration is not 0. Python's `%` and
   * Dafny's differ for negative divisors, but not in whether the remainder
   * is zero.
   */
  function Train(cfg: ScheduleConfig, it: nat): (t: TrainResult)
    ensures t.events != [] && t.events[0] == Synth(it, PaddingFor(it))
    ensures forall e :: e in t.events ==> e.it == it
  {
    var synth := [Synth(it, PaddingFor(it))];
    if cfg.saveEvery == 0 then TrainResult(synth, true)
    else
      var stepped := synth + (if it % cfg.saveEvery == 0 then [CheckIn(it)] else []) + [Step(it)];
      if OverlayOn(cfg) && it != 0 then
        var p := OverlayPeriod(cfg);
        if p == 0 then TrainResult(stepped, true)
        else if it % p == 0 then TrainResult(stepped + [ReAverage(it)], false)
        else TrainResult(stepped, false)
      else TrainResult(stepped, false)
  }

  /**
   * What one call does: it renders with the padding of its iteration, raises
   * exactly on a zero `save_every` or a zero overlay period past iteration 0,
   * checks in when `save_every` divides the iteration, steps unless it raised
   * first, and re-averages when it did not raise and the overlay period
   * divides a nonzero iteration.
   */
  lemma TrainEvents(cfg: ScheduleConfig, it: nat)
    ensures var t := Train(cfg, it);
      && (forall e :: e in t.events && e.Synth? ==> e.padding == PaddingFor(it))
      && (t.crashed <==> cfg.saveEvery == 0 || (OverlayOn(cfg) && it != 0 && OverlayPeriod(cfg) == 0))
      && (CheckIn(it) in t.events <==> cfg.saveEvery != 0 && it % cfg.saveEvery == 0)
      && (Step(it) in t.events <==> cfg.saveEvery != 0)
      && (ReAverage(it) in t.events <==>
            !t.crashed && OverlayOn(cfg) && it != 0 && it % OverlayPeriod(cfg) == 0)
  {
  }

  /** Where in a `train` call an event happens. */
  function Phase(e: Event): nat {
    match e
    case Synth(_, _) => 0
    case CheckIn(_) => 1
    case Step(_) => 2
    case ReAverage(_) => 3
  }

  /**
   * Within one call the events come in the order render, check-in, step,
   * re-average, each at most once: the check-in reports the losses computed
   * before the optimiser step.
   */
  lemma TrainOrder(cfg: ScheduleConfig, it: nat)
    ensures var evs := Train(cfg, it).events;
      forall i, j :: 0 <= i < j < |evs| ==> Phase(evs[i]) < Phase(evs[j])
  {
    var synth := [Synth(it, PaddingFor(it))];
    if cfg.saveEvery != 0 {
      var checkin: seq<Event> := if it % cfg.saveEvery == 0 then [CheckIn(it)] else [];
      var stepped := synth + checkin + [Step(it)];
      assert forall i, j :: 0 <= i < j < |stepped| ==> Phase(stepped[i]) < Phase(stepped[j]);
      var evs := stepped + [ReAverage(it)];
      assert forall i, j :: 0 <= i < j < |evs| ==> Phase(evs[i]) < Phase(evs[j]);
    }
  }

  /** The first `calls` calls of the loop, stopping at the first that raises. */
  function Run(cfg: ScheduleConfig, calls: nat): RunResult {
    if calls == 0 then Finished([])
    else
      match Run(cfg, calls - 1)
      case Crashed(evs, at) => Crashed(evs, at)
      case Finished(evs) =>
        var t := Train(cfg, calls - 1);
        if t.crashed then Crashed(evs + t.events, calls - 1) else Finished(evs + t.events)
  }

  /**
   * The loop raises exactly when `save_every` is zero (at iteration 0) or
   * overlays are on with a zero period and there is an iteration 1 (where it
   * then raises).
   */
  lemma {:induction false} RunCrashes(cfg: ScheduleConfig, calls: nat)
    ensures Run(cfg, calls).Crashed? <==>
      calls >= 1 && (cfg.saveEvery == 0 || (calls >= 2 && OverlayOn(cfg) && OverlayPeriod(cfg) == 0))
    ensures Run(cfg, calls).Crashed? ==> Run(cfg, calls).at == if cfg.saveEvery == 0 then 0 else 1
  {
    if calls > 0 {
      RunCrashes(cfg, calls - 1);
      TrainEvents(cfg, calls - 1);
    }
  }

  /** One more call after a run that finished so far. */
  lemma RunNext(cfg: ScheduleConfig, calls: nat, evs: seq<Event>)
    requires Run(cfg, calls) == Finished(evs)
    ensures var t := Train(cfg, calls);
      Run(cfg, calls + 1) == if t.crashed then Crashed(evs + t.events, calls) else Finished(evs + t.events)
  {
  }

  /** A run that finished so far is the run one call shorter plus that call. */
  lemma RunStep(cfg: ScheduleConfig, calls: nat)
    requires calls > 0 && Run(cfg, calls).Finished?
    ensures Run(cfg, calls - 1).Finished?
    ensures Run(cfg, calls).events == Run(cfg, calls - 1).events + Train(cfg, calls - 1).events
  {
  }

  /** Once a call raises the loop is over: later iterations never run. */
  lemma {:induction false} RunCrashedStays(cfg: ScheduleConfig, n: nat, m: nat)
    requires n <= m && Run(cfg, n).Crashed?
    ensures Run(cfg, m) == Run(cfg, n)
  {
    if m > n {
      RunCrashedStays(cfg, n, m - 1);
    }
  }

  /**
   * A run that finishes is exactly the events of the calls for iterations
   * `0` to `calls - 1`.
   */
  lemma {:induction false} RunEvents(cfg: ScheduleConfig, calls: nat, e: Event)
    requires Run(cfg, calls).Finished?
    ensures e in Run(cfg, calls).events <==> e.it < calls && e in Train(cfg, e.it).events
  {
    if calls > 0 {
      RunStep(cfg, calls);
      RunEvents(cfg, calls - 1, e);
    }
  }

  /**
   * In a run that finishes: every iteration below `calls` steps, with the
   * padding mode of its parity; it checks in exactly when `save_every`
   * divides it, and re-averages exactly when overlays are on, it is not 0
   * and the overlay period divides it.
   */
  lemma RunSchedule(cfg: ScheduleConfig, calls: nat, k: nat)
    requires Run(cfg, calls).Finished?
    ensures cfg.saveEvery != 0 || calls == 0
    ensures Step(k) in Run(cfg, calls).events <==> k < calls
    ensures forall m :: Synth(k, m) in Run(cfg, calls).events <==> k < calls && m == PaddingFor(k)
    ensures CheckIn(k) in Run(cfg, calls).events <==> k < calls && k % cfg.saveEvery == 0
    ensures ReAverage(k) in Run(cfg, calls).events <==>
      k < calls && OverlayOn(cfg) && k != 0 && k % OverlayPeriod(cfg) == 0
  {
    RunCrashes(cfg, calls);
    TrainEvents(cfg, k);
    RunEvents(cfg, calls, Step(k));
    RunEvents(cfg, calls, CheckIn(k));
    RunEvents(cfg, calls, ReAverage(k));
    forall m ensures Synth(k, m) in Run(cfg, calls).events <==> k < calls && m == PaddingFor(k) {
      RunEvents(cfg, calls, Synth(k, m));
    }
  }

  /** The iterations of the `Step` events, in order. */
  function Steps(evs: seq<Event>): seq<nat> {
    if evs == [] then [] else (if evs[0].Step? then [evs[0].it] else []) + Steps(evs[1..])
  }

  lemma {:induction false} StepsAppend(a: seq<Event>, b: seq<Event>)
    ensures Steps(a + b) == Steps(a) + Steps(b)
  {
    if a != [] {
      assert (a + b)[1..] == a[1..] + b;
      StepsAppend(a[1..], b);
    } else {
      assert a + b == b;
    }
  }

  lemma TrainSteps(cfg: ScheduleConfig, it: nat)
    requires cfg.saveEvery != 0
    ensures Steps(Train(cfg, it).events) == [it]
  {
    var synth := [Synth(it, PaddingFor(it))];
    var checkin: seq<Event> := if it % cfg.saveEvery == 0 then [CheckIn(it)] else [];
    StepsAppend(synth, checkin);
    StepsAppend(synth + checkin, [Step(it)]);
    StepsAppend(synth + checkin + [Step(it)], [ReAverage(it)]);
  }

  /** `0, 1, ..., n - 1`. */
  function Upto(n: nat): (r: seq<nat>)
    ensures |r| == n && forall i :: 0 <= i < n ==> r[i] == i
  {
    if n == 0 then [] else Upto(n - 1) + [n - 1]
  }

  /**
   * A run that finishes steps once per iteration, in the order
   * `0, 1, ..., calls - 1`.
   */
  lemma {:induction false} RunStepsInOrder(cfg: ScheduleConfig, calls: nat)
    requires Run(cfg, calls).Finished?
    ensures Steps(Run(cfg, calls).events) == Upto(calls)
  {
    if calls > 0 {
      RunStep(cfg, calls);
      RunCrashes(cfg, calls);
      RunStepsInOrder(cfg, calls - 1);
      StepsAppend(Run(cfg, calls - 1).events, Train(cfg, calls - 1).events);
      TrainSteps(cfg, calls - 1);
    }
  }

  /** The iterations of the `CheckIn` events, in order. */
  function CheckIns(evs: seq<Event>): seq<nat> {
    if evs == [] then [] else (if evs[0].CheckIn? then [evs[0].it] else []) + CheckIns(evs[1..])
  }

  lemma {:induction false} CheckInsAppend(a: seq<Event>, b: seq<Event>)
    ensures CheckIns(a + b) == CheckIns(a) + CheckIns(b)
  {
    if a != [] {
      assert (a + b)[1..] == a[1..] + b;
      CheckInsAppend(a[1..], b);
    } else {
      assert a + b == b;
    }
  }

  lemma TrainCheckIns(cfg: ScheduleConfig, it: nat)
    requires cfg.saveEvery != 0
    ensures |CheckIns(Train(cfg, it).events)| == if it % cfg.saveEvery == 0 then 1 else 0
  {
    var synth := [Synth(it, PaddingFor(it))];
    var checkin: seq<Event> := if it % cfg.saveEvery == 0 then [CheckIn(it)] else [];
    CheckInsAppend(synth, checkin);
    CheckInsAppend(synth + checkin, [Step(it)]);
    CheckInsAppend(synth + checkin + [Step(it)], [ReAverage(it)]);
  }

  lemma NextMultipleCount(calls: nat, s: int)
    requires calls >= 1 && s >= 1
    ensures (calls + s - 1) / s == (calls - 1 + s - 1) / s + (if (calls - 1) % s == 0 then 1 else 0)
  {
    var n := calls - 1;
    var q := n / s;
    var r := n % s;
    assert n == q * s + r;
    DivUnique(n + s, s, q + 1, r);
    if r == 0 {
      DivUnique(n + s - 1, s, q, s - 1);
    } else {
      DivUnique(n + s - 1, s, q + 1, r - 1);
    }
  }

  /**
   * A run of `calls` calls with a positive `save_every` checks in
   * `ceil(calls / save_every)` times: for the whole loop of
   * `iterations + 1` calls that is `iterations / save_every + 1`.
   */
  lemma {:induction false} RunCheckInCount(cfg: ScheduleConfig, calls: nat)
    requires cfg.saveEvery > 0 && Run(cfg, calls).Finished?
    ensures |CheckIns(Run(cfg, calls).events)| == (calls + cfg.saveEvery - 1) / cfg.saveEvery
  {
    if calls > 0 {
      RunStep(cfg, calls);
      RunCheckInCount(cfg, calls - 1);
      CheckInsAppend(Run(cfg, calls - 1).events, Train(cfg, calls - 1).events);
      TrainCheckIns(cfg, calls - 1);
      NextMultipleCount(calls, cfg.saveEvery);
    }
  }

  /**
   * `prev_i = (i + num_anim_frames - 1) % num_anim_frames`: the frame before
   * `i` in the ring of animation frames.
   */
  function RingPredecessor(i: int, frames: int): (r: int)
    requires frames > 0
    ensures 0 <= r < frames
    ensures 0 <= i < frames ==> r == if i == 0 then frames - 1 else i - 1
  {
    (i + frames - 1) % frames
  }

  /** Every frame is the predecessor of exactly one frame, the one after it. */
  lemma RingPredecessorInverse(i: int, frames: int)
    requires 0 <= i < frames
    ensures RingPredecessor((i + 1) % frames, frames) == i
    ensures forall j :: 0 <= j < frames && RingPredecessor(j, frames) == i ==> j == (i + 1) % frames
  {
  }
}
