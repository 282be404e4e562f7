/**
 * The periodic clustering job (app/scheduler.py). The time of the last run is
 * kept in a metadata file; at start-up the job is scheduled so that runs are
 * three days apart. Times are whole seconds on one clock.
 */
module Scheduler {
  import opened Wrappers

  const Day := 86400

  /** timedelta(days=3) in seconds. */
  const Interval := 3 * Day

  /** The integer max(a, b). */
  function Max(a: int, b: int): int
  {
    if a >= b then a else b
  }

  /**
   * get_initial_delay: with no recorded run, zero; otherwise what is left of the
   * three days since the last run, never below zero.
   */
  function InitialDelay(lastRun: Option<int>, now: int): (d: int)
    ensures d >= 0
    ensures lastRun.None? ==> d == 0
    ensures lastRun.Some? ==> (d == 0 <==> now - lastRun.value >= Interval)
    ensures lastRun.Some? && d > 0 ==> now + d == lastRun.value + Interval
    ensures lastRun.Some? && lastRun.value <= now ==> d <= Interval
  {
    if lastRun.None? then 0 else Max(0, Interval - (now - lastRun.value))
  }

  /**
   * How create_clusters ends. Once its database client exists, it catches every
   * exception of the clustering pass itself, prints it and returns normally
   * (Swallowed); only a failure to build the client escapes to the caller (Raised).
   */
  datatype ClusteringOutcome = Processed | Swallowed(message: string) | Raised(message: string)

  /** What the job's history records. */
  datatype Event = ClusteringRan(outcome: ClusteringOutcome) | LastRunStamped(time: int)

  /** The recorded last run after one scheduled_task, as written: stamped unless create_clusters raised. */
  function StampAfter(lastRun: Option<int>, outcome: ClusteringOutcome, stampTime: int): (r: Option<int>)
    ensures r == Some(stampTime) <==> !outcome.Raised? || lastRun == Some(stampTime)
    ensures outcome.Raised? ==> r == lastRun
  {
    if outcome.Raised? then lastRun else Some(stampTime)
  }

  /** The recorded last run after one run, as intended: it marks the last successful clustering pass. */
  function IntendedStampAfter(lastRun: Option<int>, outcome: ClusteringOutcome, stampTime: int): (r: Option<int>)
    ensures outcome.Processed? ==> r == Some(stampTime)
    ensures !outcome.Processed? ==> r == lastRun
  {
    if outcome.Processed? then Some(stampTime) else lastRun
  }

  /**
   * An interval trigger: it fires first at startDate and then every `interval`
   * seconds. This is APScheduler's IntervalTrigger once its arguments are
   * resolved (with no start date given, the start is one interval after the
   * moment the job is added).
   */
  datatype Trigger = Trigger(interval: int, startDate: int)

  /** The k-th firing of a trigger, counting from 0. */
  function FireTime(t: Trigger, k: nat): int
  {
    t.startDate + k * t.interval
  }

  /** IntervalTrigger(seconds=s, days=d) added at time `now`: the two lengths add up to one interval. */
  function IntervalTrigger(days: int, seconds: int, now: int): (t: Trigger)
    ensures t.interval == days * Day + seconds
    ensures t.startDate == now + t.interval
  {
    var interval := days * Day + seconds;
    Trigger(interval, now + interval)
  }

  /** The scheduler's view of the world: the metadata file and the job's history. */
  class ClusterJob {
    /** The last_run recorded in the metadata file; None while the file does not exist. */
    var lastRun: Option<int>
    var events: seq<Event>

    constructor (recorded: Option<int>)
      ensures lastRun == recorded && events == []
    {
      lastRun := recorded;
      events := [];
    }

    /** get_initial_delay, reading the metadata file. */
    method GetInitialDelay(now: int) returns (d: int)
      ensures d == InitialDelay(lastRun, now)
    {
      if lastRun.None? {
        return 0;
      }
      var elapsed := now - lastRun.value;
      d := Max(0, Interval - elapsed);
    }

    /** update_last_run_time: the metadata file now records `now`. */
    method UpdateLastRunTime(now: int)
      modifies this
      ensures lastRun == Some(now) && events == old(events) + [LastRunStamped(now)]
    {
      lastRun := Some(now);
      events := events + [LastRunStamped(now)];
    }

    /**
     * scheduled_task: clustering first, then the time stamp. A pass whose failure
     * create_clusters caught is stamped like a successful one; only an exception
     * that escapes create_clusters skips the stamp and propagates.
     */
    method ScheduledTask(clustering: ClusteringOutcome, stampTime: int) returns (r: Outcome<string>)
      modifies this
      ensures r == if clustering.Raised? then Fail(clustering.message) else Pass
      ensures lastRun == StampAfter(old(lastRun), clustering, stampTime)
      ensures !clustering.Raised? ==>
        events == old(events) + [ClusteringRan(clustering), LastRunStamped(stampTime)]
      ensures clustering.Raised? ==> events == old(events) + [ClusteringRan(clustering)]
    {
      events := events + [ClusteringRan(clustering)];
      if clustering.Raised? {
        return Fail(clustering.message);
      }
      UpdateLastRunTime(stampTime);
      r := Pass;
    }

    /** scheduled_task as evidently intended: the last run is stamped only after a successful pass. */
    method ScheduledTaskIntended(clustering: ClusteringOutcome, stampTime: int) returns (r: Outcome<string>)
      modifies this
      ensures r == if clustering.Raised? then Fail(clustering.message) else Pass
      ensures lastRun == IntendedStampAfter(old(lastRun), clustering, stampTime)
      ensures clustering.Processed? ==>
        events == old(events) + [ClusteringRan(clustering), LastRunStamped(stampTime)]
      ensures !clustering.Processed? ==> events == old(events) + [ClusteringRan(clustering)]
    {
      events := events + [ClusteringRan(clustering)];
      if clustering.Raised? {
        return Fail(clustering.message);
      }
      if clustering.Processed? {
        UpdateLastRunTime(stampTime);
      }
      r := Pass;
    }

    /** start_scheduler: the job's trigger, as written. */
    method StartScheduler(now: int) returns (t: Trigger)
      ensures t == IntervalTrigger(3, InitialDelay(lastRun, now), now)
    {
      var delay := GetInitialDelay(now);
      t := IntervalTrigger(3, delay, now);
    }

    /** start_scheduler as evidently intended: first run after the initial delay, then every three days. */
    method StartSchedulerIntended(now: int) returns (t: Trigger)
      ensures t == IntendedTrigger(lastRun, now)
    {
      var delay := GetInitialDelay(now);
      t := Trigger(Interval, now + delay);
    }
  }

  /** The trigger that runs the job once the delay has passed and every three days after that. */
  function IntendedTrigger(lastRun: Option<int>, now: int): Trigger
  {
    Trigger(Interval, now + InitialDelay(lastRun, now))
  }

  /**
   * The intended trigger keeps the three-day rhythm: a job whose last run was
   * recorded in the past first runs exactly three days after that run, or at
   * once if that moment has passed, and then every three days; with no record
   * it runs at once.
   */
  lemma IntendedSchedule(lastRun: Option<int>, now: int, k: nat)
    requires lastRun.Some? ==> lastRun.value <= now
    ensures var t := IntendedTrigger(lastRun, now);
      && (lastRun.None? ==> FireTime(t, 0) == now)
      && (lastRun.Some? ==> FireTime(t, 0) == Max(now, lastRun.value + Interval))
      && FireTime(t, k + 1) - FireTime(t, k) == Interval
      && now <= FireTime(t, 0) <= now + Interval
  {
  }

  /**
   * As written, the delay is added to the three-day interval instead of being
   * waited for: the first run comes one whole interval after start-up, so with a
   * run recorded one day before start-up the next run is six days after it,
   * and the runs after it are five days apart instead of three.
   */
  lemma AsWrittenDelaysFirstRun()
    ensures var last, now := 0, Day;
      var t := IntervalTrigger(3, InitialDelay(Some(last), now), now);
      && FireTime(t, 0) == last + 6 * Day
      && FireTime(IntendedTrigger(Some(last), now), 0) == last + Interval
      && FireTime(t, 1) - FireTime(t, 0) == 5 * Day
  {
  }

  /** As written, even with no recorded run the job waits three days instead of starting at once. */
  lemma AsWrittenWaitsWithoutRecord(now: int)
    ensures FireTime(IntervalTrigger(3, InitialDelay(None, now), now), 0) == now + Interval
    ensures FireTime(IntendedTrigger(None, now), 0) == now
  {
  }

  /** One run of the job: how clustering ended and when the task would stamp. */
  datatype Run = Run(outcome: ClusteringOutcome, time: int)

  /** The recorded last run after a sequence of runs, with the intended stamping. */
  function IntendedRecordAfter(lastRun: Option<int>, runs: seq<Run>): Option<int>
    decreases |runs|
  {
    if runs == [] then lastRun
    else IntendedRecordAfter(IntendedStampAfter(lastRun, runs[0].outcome, runs[0].time), runs[1..])
  }

  /** The time of the latest run whose clustering pass succeeded, or the earlier record when there is none. */
  function LastSuccessful(lastRun: Option<int>, runs: seq<Run>): Option<int>
    decreases |runs|
  {
    if runs == [] then lastRun
    else if runs[|runs| - 1].outcome.Processed? then Some(runs[|runs| - 1].time)
    else LastSuccessful(lastRun, runs[..|runs| - 1])
  }

  lemma {:induction false} IntendedRecordAfterSnoc(lastRun: Option<int>, runs: seq<Run>, run: Run)
    ensures IntendedRecordAfter(lastRun, runs + [run]) ==
      IntendedStampAfter(IntendedRecordAfter(lastRun, runs), run.outcome, run.time)
    decreases |runs|
  {
    if runs != [] {
      assert (runs + [run])[1..] == runs[1..] + [run];
      IntendedRecordAfterSnoc(IntendedStampAfter(lastRun, runs[0].outcome, runs[0].time), runs[1..], run);
    } else {
      assert (runs + [run])[1..] == [];
    }
  }

  /**
   * With the intended stamping, after any sequence of runs the metadata file
   * records the latest successful clustering pass, so the next delay counts
   * from it.
   */
  lemma {:induction false} IntendedRecordIsLastSuccess(lastRun: Option<int>, runs: seq<Run>)
    ensures IntendedRecordAfter(lastRun, runs) == LastSuccessful(lastRun, runs)
    decreases |runs|
  {
    if runs != [] {
      var init, last := runs[..|runs| - 1], runs[|runs| - 1];
      assert runs == init + [last];
      IntendedRecordAfterSnoc(lastRun, init, last);
      IntendedRecordIsLastSuccess(lastRun, init);
    }
  }

  /**
   * As written, a clustering pass that failed inside create_clusters is stamped
   * as a run: with no earlier record, a start-up right after the failed pass
   * waits the full three days instead of retrying at once.
   */
  lemma AsWrittenStampsFailedPass(t: int)
    ensures StampAfter(None, Swallowed("scroll failed"), t) == Some(t)
    ensures IntendedStampAfter(None, Swallowed("scroll failed"), t) == None
    ensures InitialDelay(StampAfter(None, Swallowed("scroll failed"), t), t) == Interval
    ensures InitialDelay(IntendedStampAfter(None, Swallowed("scroll failed"), t), t) == 0
  {
  }
}
