/**
 * Run control of the encoded-columns benchmark.
 *
 * A Benchmark object is driven by the loop
 *   while (benchmark.keep_running()) benchmark.measure(work);
 * It stops after a maximum number of iterations or once a maximum time
 * has passed since the first call.  Clock reads become parameters: each
 * `keep_running` call is given the one clock reading it takes, and each
 * `measure` call the readings taken before and after the work.
 */
module EncodedColumnsBenchmark {

  /** The encodings the benchmark runs; `Invalid` stands for an unencoded column. */
  datatype EncodingType = Invalid | Dictionary | DeprecatedDictionary | RunLength

  /**
   * The anonymous `to_string(EncodingType)`: the report name of each
   * encoding type.  The source looks the name up in a map that holds every
   * encoding type, so the lookup never fails.
   */
  function ToString(encodingType: EncodingType): (name: string)
    ensures name != []
  {
    match encodingType
    case Invalid => "Unencoded"
    case Dictionary => "Dictionary"
    case DeprecatedDictionary => "Dictionary (Deprecated)"
    case RunLength => "Run Length"
  }

  /** `to_string` is defined for every encoding type and gives four different names. */
  lemma ToStringIsInjective(a: EncodingType, b: EncodingType)
    ensures ToString(a) == ToString(b) <==> a == b
  {
  }

  /** std::size_t, the type of the iteration counter and its maximum. */
  const SizeMax: nat := 0xFFFF_FFFF_FFFF_FFFF

  /** Clock::time_point and Clock::duration, as nanosecond counts. */
  type TimePoint = int
  type Duration = int

  datatype State = NotStarted | Running | Over

  /** The fields `keep_running` and `measure` update, taken together as one value. */
  datatype Snapshot = Snapshot(
    state: State,
    numIterations: nat,
    begin: TimePoint,
    end: TimePoint,
    results: seq<Duration>)

  /** The snapshot of a freshly constructed Benchmark: `begin` and `end` are default time points, the clock's epoch 0. */
  const Initial: Snapshot := Snapshot(NotStarted, 0, 0, 0, [])

  function MaxOf(a: nat, b: nat): nat { if a < b then b else a }

  /**
   * What keeps between calls: before the first call the counter is 0;
   * afterwards it is at least 1 (the first call counts) and at most the
   * maximum (or 1, when the maximum is 0).
   */
  ghost predicate Inv(maxNumIterations: nat, s: Snapshot) {
    && (s.state == NotStarted ==> s.numIterations == 0)
    && (s.state != NotStarted ==> 1 <= s.numIterations <= MaxOf(1, maxNumIterations))
  }

  /**
   * One `keep_running` call given the clock reading `now`: the new fields
   * and the returned flag.
   */
  function KeepRunningStep(maxNumIterations: nat, maxDuration: Duration, s: Snapshot, now: TimePoint): (Snapshot, bool)
  {
    match s.state
    case NotStarted => (Init(s, now), true)
    case Over => (s, false)
    case Running =>
      if s.numIterations >= maxNumIterations then
        (s.(end := now, state := Over), false)
      else if now - s.begin >= maxDuration then
        (s.(end := now, state := Over), false)
      else
        (s.(end := now, numIterations := s.numIterations + 1), true)
  }

  /** `_init`: start running, count the first iteration, start the clock and forget old results. */
  function Init(s: Snapshot, now: TimePoint): (t: Snapshot)
  {
    s.(state := Running, numIterations := 1, begin := now, results := [])
  }

  /** `measure`: append the duration of one run of the work. */
  function MeasureStep(s: Snapshot, before: TimePoint, after: TimePoint): (t: Snapshot)
  {
    s.(results := s.results + [after - before])
  }

  /** The first call starts the run: Running, one iteration, no results, and it returns true. */
  lemma FirstCallStarts(maxNumIterations: nat, maxDuration: Duration, s: Snapshot, now: TimePoint)
    requires s.state == NotStarted
    ensures var (t, r) := KeepRunningStep(maxNumIterations, maxDuration, s, now);
      r && t.state == Running && t.numIterations == 1 && t.results == [] && t.begin == now
  {
  }

  /** Once Over, a call returns false and changes nothing. */
  lemma OverIsFinal(maxNumIterations: nat, maxDuration: Duration, s: Snapshot, now: TimePoint)
    requires s.state == Over
    ensures KeepRunningStep(maxNumIterations, maxDuration, s, now) == (s, false)
  {
  }

  /**
   * While running, a call returns true exactly when the counter is below
   * the maximum and less than the maximum duration has passed; then the
   * counter grows by one, otherwise the run is over and the counter stays.
   * The results are never touched.
   */
  lemma RunningStep(maxNumIterations: nat, maxDuration: Duration, s: Snapshot, now: TimePoint)
    requires s.state == Running
    ensures var (t, r) := KeepRunningStep(maxNumIterations, maxDuration, s, now);
      && (r <==> s.numIterations < maxNumIterations && now - s.begin < maxDuration)
      && (r ==> t.state == Running && t.numIterations == s.numIterations + 1)
      && (!r ==> t.state == Over && t.numIterations == s.numIterations)
      && t.results == s.results && t.begin == s.begin
  {
  }

  /** `keep_running` keeps the counter within its bounds, so it never passes the maximum. */
  lemma KeepRunningPreservesInv(maxNumIterations: nat, maxDuration: Duration, s: Snapshot, now: TimePoint)
    requires Inv(maxNumIterations, s)
    ensures Inv(maxNumIterations, KeepRunningStep(maxNumIterations, maxDuration, s, now).0)
    ensures KeepRunningStep(maxNumIterations, maxDuration, s, now).0.numIterations <= MaxOf(1, maxNumIterations)
  {
  }

  /** `measure` appends one duration and leaves the state and the counter alone. */
  lemma MeasureKeepsState(s: Snapshot, before: TimePoint, after: TimePoint)
    ensures var t := MeasureStep(s, before, after);
      t.results == s.results + [after - before] && t.state == s.state && t.numIterations == s.numIterations
  {
  }

  /** The clock readings of one turn of the driving loop. */
  datatype Tick = Tick(now: TimePoint, before: TimePoint, after: TimePoint)

  /**
   * The driving loop `while (keep_running()) measure(work);` over a list
   * of clock readings: the final fields, the number of times
   * `keep_running` returned true, and whether the loop has stopped
   * (false when the readings ran out first).
   */
  function Drive(maxNumIterations: nat, maxDuration: Duration, s: Snapshot, ticks: seq<Tick>): (Snapshot, nat, bool)
    decreases |ticks|
  {
    if ticks == [] then (s, 0, false)
    else
      var (t, r) := KeepRunningStep(maxNumIterations, maxDuration, s, ticks[0].now);
      if !r then (t, 0, true)
      else
        var (u, n, stopped) := Drive(maxNumIterations, maxDuration, MeasureStep(t, ticks[0].before, ticks[0].after), ticks[1..]);
        (u, n + 1, stopped)
  }

  /**
   * Driving a fresh benchmark: the counter equals the number of true
   * results, never passes the maximum (or 1), and there is one measured
   * duration per iteration.
   */
  lemma {:induction false} DriveCountsIterations(maxNumIterations: nat, maxDuration: Duration, ticks: seq<Tick>)
    ensures var (u, n, _) := Drive(maxNumIterations, maxDuration, Initial, ticks);
      && u.numIterations == n
      && u.numIterations <= MaxOf(1, maxNumIterations)
      && |u.results| == u.numIterations
  {
    if ticks != [] {
      var (t, r) := KeepRunningStep(maxNumIterations, maxDuration, Initial, ticks[0].now);
      assert r && t.numIterations == 1 && t.results == [];
      DriveRunning(maxNumIterations, maxDuration, MeasureStep(t, ticks[0].before, ticks[0].after), ticks[1..]);
    }
  }

  /** The step of DriveCountsIterations once the run has started. */
  lemma {:induction false} DriveRunning(maxNumIterations: nat, maxDuration: Duration, s: Snapshot, ticks: seq<Tick>)
    requires s.state != NotStarted && Inv(maxNumIterations, s)
    requires |s.results| == s.numIterations
    ensures var (u, n, _) := Drive(maxNumIterations, maxDuration, s, ticks);
      && u.numIterations == s.numIterations + n
      && u.numIterations <= MaxOf(1, maxNumIterations)
      && |u.results| == u.numIterations
    decreases |ticks|
  {
    if ticks != [] {
      var (t, r) := KeepRunningStep(maxNumIterations, maxDuration, s, ticks[0].now);
      KeepRunningPreservesInv(maxNumIterations, maxDuration, s, ticks[0].now);
      if r {
        DriveRunning(maxNumIterations, maxDuration, MeasureStep(t, ticks[0].before, ticks[0].after), ticks[1..]);
      }
    }
  }

  /**
   * A benchmark that does not stop on time stops after the maximum number
   * of iterations: the loop over readings that never reach the maximum
   * duration stops once `keep_running` has said true max(1, maximum) times.
   */
  lemma {:induction false} DriveStopsAtMaximum(maxNumIterations: nat, maxDuration: Duration, ticks: seq<Tick>)
    requires |ticks| > MaxOf(1, maxNumIterations)
    requires forall k :: 0 <= k < |ticks| ==> ticks[k].now - ticks[0].now < maxDuration
    ensures var (u, n, stopped) := Drive(maxNumIterations, maxDuration, Initial, ticks);
      stopped && n == MaxOf(1, maxNumIterations) && u.state == Over
  {
    var (t, r) := KeepRunningStep(maxNumIterations, maxDuration, Initial, ticks[0].now);
    DriveUntilMaximum(maxNumIterations, maxDuration, MeasureStep(t, ticks[0].before, ticks[0].after), ticks, 1);
  }

  /** The step of DriveStopsAtMaximum, from the tick at index `k` on. */
  lemma {:induction false} DriveUntilMaximum(maxNumIterations: nat, maxDuration: Duration, s: Snapshot, ticks: seq<Tick>, k: nat)
    requires 1 <= k <= |ticks|
    requires s.state == Running && s.begin == ticks[0].now
    requires s.numIterations == k <= MaxOf(1, maxNumIterations)
    requires |ticks| > MaxOf(1, maxNumIterations)
    requires forall j :: 0 <= j < |ticks| ==> ticks[j].now - ticks[0].now < maxDuration
    ensures var (u, n, stopped) := Drive(maxNumIterations, maxDuration, s, ticks[k..]);
      stopped && k + n == MaxOf(1, maxNumIterations) && u.state == Over
    decreases |ticks| - k
  {
    var rest := ticks[k..];
    assert rest[0] == ticks[k];
    var (t, r) := KeepRunningStep(maxNumIterations, maxDuration, s, rest[0].now);
    if r {
      assert rest[1..] == ticks[k + 1..];
      DriveUntilMaximum(maxNumIterations, maxDuration, MeasureStep(t, rest[0].before, rest[0].after), ticks, k + 1);
    }
  }

  /** The benchmark object; its methods are proved against the functions above. */
  class Benchmark {
    const maxNumIterations: nat
    const maxDuration: Duration
    var state: State
    var numIterations: nat
    var begin: TimePoint
    var end: TimePoint
    var results: seq<Duration>

    /** All updated fields as one value. */
    function Fields(): Snapshot
      reads this
    {
      Snapshot(state, numIterations, begin, end, results)
    }

    ghost predicate Valid()
      reads this
    {
      maxNumIterations <= SizeMax && Inv(maxNumIterations, Fields())
    }

    constructor (maxNumIterations: nat, maxDuration: Duration)
      requires maxNumIterations <= SizeMax
      ensures Valid()
      ensures this.maxNumIterations == maxNumIterations && this.maxDuration == maxDuration
      ensures Fields() == Initial
    {
      this.maxNumIterations := maxNumIterations;
      this.maxDuration := maxDuration;
      state := NotStarted;
      numIterations := 0;
      begin, end := 0, 0;
      results := [];
    }

    /** `keep_running`, given the clock reading it takes. The counter never passes size_t's range. */
    method KeepRunning(now: TimePoint) returns (running: bool)
      requires Valid()
      modifies this
      ensures Valid() && numIterations <= SizeMax
      ensures (Fields(), running) == KeepRunningStep(maxNumIterations, maxDuration, old(Fields()), now)
    {
      KeepRunningPreservesInv(maxNumIterations, maxDuration, Fields(), now);
      match state {
        case NotStarted =>
          InitFields(now);
          return true;
        case Over =>
          return false;
        case Running =>
      }

      if numIterations >= maxNumIterations {
        end := now;
        state := Over;
        return false;
      }

      end := now;
      var duration := end - begin;
      if duration >= maxDuration {
        state := Over;
        return false;
      }

      numIterations := numIterations + 1;
      return true;
    }

    /** `measure`, given the clock readings before and after the work. */
    method Measure(before: TimePoint, after: TimePoint)
      requires Valid()
      modifies this`results
      ensures Valid()
      ensures Fields() == MeasureStep(old(Fields()), before, after)
    {
      results := results + [after - before];
    }

    /** `_init`. */
    method InitFields(now: TimePoint)
      modifies this`state, this`numIterations, this`begin, this`results
      ensures Fields() == Init(old(Fields()), now)
    {
      state := Running;
      numIterations := 1;
      begin := now;
      results := [];
    }

    /** `results`: the measured durations so far. */
    function Results(): (r: seq<Duration>)
      reads this
      ensures r == Fields().results
    {
      results
    }

    /** `num_iterations`: the counter. */
    function NumIterations(): (n: nat)
      reads this
      requires Valid()
      ensures n == Fields().numIterations && n <= MaxOf(1, maxNumIterations)
    {
      numIterations
    }
  }
}
