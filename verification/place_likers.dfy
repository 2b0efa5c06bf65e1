/** The per-source retry controller of GramAddict/plugins/interact_place_likers.py (`run`) and the
    fixed scroll-end configuration built by `handle_place`.

    The collaborators whose code is not part of this model are parameters:
    - `check_limit` is the oracle `limitAt`: `limitAt(i)` is its answer when it is asked, once,
      before the i-th source (counting from 0 in the order the sources are visited);
    - one call of the `run_safely`-wrapped `job()` is an attempt; `attemptsAt(i)` lists, in order, whether
      the attempts made on the i-th source returned normally (true) or raised and were recovered (false).
      It is a finite prefix of the attempts the device would produce: when it holds no success the
      real loop would go on retrying, and the model reports `StillRetrying`;
    - `sample_sources` is the function `sample`, and `get_value` the function `getValue`. */
module PlaceLikers {
  import opened Wrappers

  type Source = string

  /** The mode name that selects the top-results list; any other mode selects the recent-results list. */
  const TopMode: string := "place-likers-top"

  /** The arguments `run` and `handle_place` read. A list option left unset is `None`. */
  datatype PlaceArgs = PlaceArgs(
    placeLikersTop: Option<seq<Source>>,
    placeLikersRecent: Option<seq<Source>>,
    skippedListLimit: Option<string>,
    flingWhenSkipped: Option<string>)

  /** Configuration errors raised before any source is visited. */
  datatype RunError = SourcesNotGiven   // iterating an unset list option raises TypeError

  /* ---------------- Source selection ---------------- */

  /** The list comprehension over `place_likers_top` or `place_likers_recent`, chosen by mode. */
  function SelectSources(mode: string, args: PlaceArgs): (r: Result<seq<Source>, RunError>)
    ensures mode == TopMode ==> (r.Success? <==> args.placeLikersTop.Some?)
    ensures mode != TopMode ==> (r.Success? <==> args.placeLikersRecent.Some?)
    ensures r.Success? ==> r.value == (if mode == TopMode then args.placeLikersTop.value else args.placeLikersRecent.value)
  {
    var chosen := if mode == TopMode then args.placeLikersTop else args.placeLikersRecent;
    match chosen
    case None => Failure(SourcesNotGiven)
    case Some(places) => Success(seq(|places|, i requires 0 <= i < |places| => places[i]))
  }

  /** The list that is not selected plays no part: top mode ignores the recent list and every
      other mode ignores the top list. */
  lemma SelectIgnoresOtherList(mode: string, args: PlaceArgs, other: Option<seq<Source>>)
    ensures mode == TopMode ==> SelectSources(mode, args.(placeLikersRecent := other)) == SelectSources(mode, args)
    ensures mode != TopMode ==> SelectSources(mode, args.(placeLikersTop := other)) == SelectSources(mode, args)
  {
  }

  /* ---------------- One source: the retry loop ---------------- */

  /** Index of the first attempt that returned normally, if any. */
  function FirstSuccess(outcomes: seq<bool>): (r: Option<nat>)
    ensures r.Some? ==> r.value < |outcomes| && outcomes[r.value]
    ensures r.Some? ==> forall k :: 0 <= k < r.value ==> !outcomes[k]
    ensures r.None? ==> forall k :: 0 <= k < |outcomes| ==> !outcomes[k]
  {
    if |outcomes| == 0 then None
    else if outcomes[0] then Some(0)
    else match FirstSuccess(outcomes[1..])
      case None => None
      case Some(k) => Some(k + 1)
  }

  /** What the controller did with one source. */
  datatype SourceReport = SourceReport(
    source: Source,
    limitReached: bool,   // the limit check before the source
    attempts: nat,        // calls of `job()`
    completed: bool)      // the source's completion flag at the end

  /** The reference behaviour for one source: no attempt when the limit was reached, otherwise
      attempts up to and including the first that returns normally. */
  function VisitSource(source: Source, limitReached: bool, outcomes: seq<bool>): SourceReport {
    if limitReached then SourceReport(source, true, 0, false)
    else match FirstSuccess(outcomes)
      case Some(k) => SourceReport(source, false, k + 1, true)
      case None => SourceReport(source, false, |outcomes|, false)
  }

  /** The loop `while not is_job_completed and not limit_reached: job()` over a fresh completion
      flag. `limitReached` is the value computed before the loop; it is not re-evaluated between
      attempts. The flag is set only when an attempt returns normally. */
  method RetrySource(limitReached: bool, outcomes: seq<bool>) returns (completed: bool, attempts: nat)
    ensures limitReached ==> !completed && attempts == 0
    ensures !limitReached && FirstSuccess(outcomes).Some? ==> completed && attempts == FirstSuccess(outcomes).value + 1
    ensures !limitReached && FirstSuccess(outcomes).None? ==> !completed && attempts == |outcomes|
    ensures completed <==> (0 < attempts <= |outcomes| && outcomes[attempts - 1])
  {
    var isJobCompleted := false;   // a new State() per source
    attempts := 0;
    while !isJobCompleted && !limitReached && attempts < |outcomes|
      invariant attempts <= |outcomes|
      invariant limitReached ==> attempts == 0
      invariant isJobCompleted <==> (0 < attempts && outcomes[attempts - 1])
      invariant forall k :: 0 <= k < attempts && (!isJobCompleted || k < attempts - 1) ==> !outcomes[k]
    {
      var returnedNormally := outcomes[attempts];
      if returnedNormally {
        isJobCompleted := true;
      }
      attempts := attempts + 1;
    }
    completed := isJobCompleted;
  }

  /** The loop method agrees with the reference behaviour. */
  method ProcessSource(source: Source, limitReached: bool, outcomes: seq<bool>) returns (rep: SourceReport)
    ensures rep == VisitSource(source, limitReached, outcomes)
  {
    var completed, attempts := RetrySource(limitReached, outcomes);
    rep := SourceReport(source, limitReached, attempts, completed);
  }

  /* ---------------- The whole run ---------------- */

  /** How the loop over sources ended. */
  datatype RunEnd =
    | AllDone          // every source completed
    | LimitReached     // a limit check before a source was true: `break`
    | StillRetrying    // the observed attempts on a source hold no success: the loop would go on

  datatype RunReport = RunReport(visited: seq<SourceReport>, end: RunEnd)

  /** The reference behaviour of the loop over `sources` from the i-th on. */
  function RunFrom(sources: seq<Source>, i: nat, limitAt: nat -> bool, attemptsAt: nat -> seq<bool>): RunReport
    decreases |sources| - i
  {
    if i >= |sources| then RunReport([], AllDone)
    else
      var rep := VisitSource(sources[i], limitAt(i), attemptsAt(i));
      if rep.limitReached then RunReport([rep], LimitReached)
      else if !rep.completed then RunReport([rep], StillRetrying)
      else
        var rest := RunFrom(sources, i + 1, limitAt, attemptsAt);
        RunReport([rep] + rest.visited, rest.end)
  }

  /** `for source in sample_sources(...)`: per source, the one limit check, the retry loop and
      the `break` when the limit was reached. */
  method ProcessSources(sources: seq<Source>, limitAt: nat -> bool, attemptsAt: nat -> seq<bool>) returns (r: RunReport)
    ensures r == RunFrom(sources, 0, limitAt, attemptsAt)
  {
    var visited: seq<SourceReport> := [];
    var i := 0;
    while i < |sources|
      invariant 0 <= i <= |sources|
      invariant RunFrom(sources, 0, limitAt, attemptsAt)
        == RunReport(visited + RunFrom(sources, i, limitAt, attemptsAt).visited, RunFrom(sources, i, limitAt, attemptsAt).end)
    {
      ghost var here := RunFrom(sources, i, limitAt, attemptsAt);
      var limitReached := limitAt(i);
      var rep := ProcessSource(sources[i], limitReached, attemptsAt(i));
      if limitReached {
        assert here == RunReport([rep], LimitReached);
        return RunReport(visited + [rep], LimitReached);
      }
      if !rep.completed {
        assert here == RunReport([rep], StillRetrying);
        return RunReport(visited + [rep], StillRetrying);
      }
      ghost var rest := RunFrom(sources, i + 1, limitAt, attemptsAt);
      assert here == RunReport([rep] + rest.visited, rest.end);
      assert visited + here.visited == (visited + [rep]) + rest.visited;
      visited := visited + [rep];
      i := i + 1;
    }
    r := RunReport(visited, AllDone);
  }

  /** `run`: select the sources by mode, sample them, and process them in order. */
  method Run(mode: string, args: PlaceArgs, sample: seq<Source> -> seq<Source>,
             limitAt: nat -> bool, attemptsAt: nat -> seq<bool>) returns (r: Result<RunReport, RunError>)
    ensures r.Failure? <==> SelectSources(mode, args).Failure?
    ensures r.Success? ==> r.value == RunFrom(sample(SelectSources(mode, args).value), 0, limitAt, attemptsAt)
  {
    var selected := SelectSources(mode, args);
    if selected.Failure? {
      return Failure(selected.error);
    }
    var report := ProcessSources(sample(selected.value), limitAt, attemptsAt);
    r := Success(report);
  }

  /* ---------------- Properties of the run ---------------- */

  /** The k-th report is about the (i+k)-th source and depends on that source's own limit check
      and attempts only: each source starts from a fresh completion flag. */
  lemma {:induction false} RunVisitsInOrder(sources: seq<Source>, i: nat, limitAt: nat -> bool, attemptsAt: nat -> seq<bool>)
    requires i <= |sources|
    ensures var r := RunFrom(sources, i, limitAt, attemptsAt);
      && i + |r.visited| <= |sources|
      && forall k :: 0 <= k < |r.visited| ==> r.visited[k] == VisitSource(sources[i + k], limitAt(i + k), attemptsAt(i + k))
    decreases |sources| - i
  {
    if i < |sources| {
      var rep := VisitSource(sources[i], limitAt(i), attemptsAt(i));
      if !rep.limitReached && rep.completed {
        RunVisitsInOrder(sources, i + 1, limitAt, attemptsAt);
        var rest := RunFrom(sources, i + 1, limitAt, attemptsAt);
        var r := RunFrom(sources, i, limitAt, attemptsAt);
        forall k | 0 < k < |r.visited|
          ensures r.visited[k] == VisitSource(sources[i + k], limitAt(i + k), attemptsAt(i + k))
        {
          assert r.visited[k] == rest.visited[k - 1];
          assert i + 1 + (k - 1) == i + k;
        }
      }
    }
  }

  /** Every visited source but the last completed; the run stops at a limit check only, and then
      with no attempt on that source; it ends AllDone only after visiting every source. */
  lemma {:induction false} RunStopsOnlyAtEnd(sources: seq<Source>, i: nat, limitAt: nat -> bool, attemptsAt: nat -> seq<bool>)
    requires i <= |sources|
    ensures var r := RunFrom(sources, i, limitAt, attemptsAt);
      && (forall k :: 0 <= k < |r.visited| - 1 ==> r.visited[k].completed && !r.visited[k].limitReached)
      && (r.end == AllDone <==> i + |r.visited| >= |sources| && forall k :: 0 <= k < |r.visited| ==> r.visited[k].completed)
      && (r.end == LimitReached <==> |r.visited| > 0 && r.visited[|r.visited| - 1].limitReached)
      && (r.end == LimitReached ==> r.visited[|r.visited| - 1].attempts == 0)
      && (r.end != AllDone ==> |r.visited| > 0 && !r.visited[|r.visited| - 1].completed)
    decreases |sources| - i
  {
    if i < |sources| {
      var rep := VisitSource(sources[i], limitAt(i), attemptsAt(i));
      if !rep.limitReached && rep.completed {
        RunStopsOnlyAtEnd(sources, i + 1, limitAt, attemptsAt);
        var rest := RunFrom(sources, i + 1, limitAt, attemptsAt);
        var r := RunFrom(sources, i, limitAt, attemptsAt);
        assert r.visited == [rep] + rest.visited;
        assert forall k :: 0 < k < |r.visited| ==> r.visited[k] == rest.visited[k - 1];
        if rest.end != AllDone {
          assert r.visited[|r.visited| - 1] == rest.visited[|rest.visited| - 1];
        }
      } else {
        var r := RunFrom(sources, i, limitAt, attemptsAt);
        assert r.visited == [rep] && !r.visited[0].completed;
      }
    }
  }

  /** A limit check that is true at the (i+j)-th source, after every earlier source completed:
      that source gets zero attempts and no later source is visited. */
  lemma {:induction false} LimitStopsRun(sources: seq<Source>, i: nat, j: nat, limitAt: nat -> bool, attemptsAt: nat -> seq<bool>)
    requires i + j < |sources|
    requires limitAt(i + j)
    requires forall k :: i <= k < i + j ==> !limitAt(k) && FirstSuccess(attemptsAt(k)).Some?
    ensures var r := RunFrom(sources, i, limitAt, attemptsAt);
      && r.end == LimitReached
      && |r.visited| == j + 1
      && r.visited[j].attempts == 0
    decreases j
  {
    if j > 0 {
      LimitStopsRun(sources, i + 1, j - 1, limitAt, attemptsAt);
    }
  }

  /** The number of attempts the observed outcomes of one source call for: up to the first success. */
  function Needed(outcomes: seq<bool>): nat {
    match FirstSuccess(outcomes)
    case Some(k) => k + 1
    case None => |outcomes|
  }

  function TotalAttempts(reports: seq<SourceReport>): nat {
    if |reports| == 0 then 0 else reports[0].attempts + TotalAttempts(reports[1..])
  }

  /** Sum over the sources from the i-th on of (failed attempts + 1). */
  function ExpectedAttempts(sources: seq<Source>, i: nat, attemptsAt: nat -> seq<bool>): nat
    decreases |sources| - i
  {
    if i >= |sources| then 0 else Needed(attemptsAt(i)) + ExpectedAttempts(sources, i + 1, attemptsAt)
  }

  /** With the limit never reached and a success for every source, every source is visited in
      order, each completes, and the total number of attempts is the sum over the sources of the
      failed attempts plus one. */
  lemma {:induction false} NoLimitRunCompletes(sources: seq<Source>, i: nat, limitAt: nat -> bool, attemptsAt: nat -> seq<bool>)
    requires forall k :: i <= k < |sources| ==> !limitAt(k) && FirstSuccess(attemptsAt(k)).Some?
    ensures var r := RunFrom(sources, i, limitAt, attemptsAt);
      && r.end == AllDone
      && |r.visited| == (if i <= |sources| then |sources| - i else 0)
      && TotalAttempts(r.visited) == ExpectedAttempts(sources, i, attemptsAt)
    decreases |sources| - i
  {
    if i < |sources| {
      NoLimitRunCompletes(sources, i + 1, limitAt, attemptsAt);
      var rep := VisitSource(sources[i], limitAt(i), attemptsAt(i));
      var rest := RunFrom(sources, i + 1, limitAt, attemptsAt);
      assert ([rep] + rest.visited)[1..] == rest.visited;
    }
  }

  /** Two cafés, no limit reached; CafeA succeeds on the first attempt, CafeB on the third:
      both complete, with 1 and 3 attempts, 4 in total. */
  lemma {:induction false} TwoCafesScenario()
    ensures var r := RunFrom(["CafeA", "CafeB"], 0, _ => false, k => if k == 0 then [true] else [false, false, true]);
      && r.end == AllDone
      && |r.visited| == 2
      && r.visited[0] == SourceReport("CafeA", false, 1, true)
      && r.visited[1] == SourceReport("CafeB", false, 3, true)
      && TotalAttempts(r.visited) == 4
  {
    var limitAt: nat -> bool := _ => false;
    var attemptsAt: nat -> seq<bool> := k => if k == 0 then [true] else [false, false, true];
    var sources := ["CafeA", "CafeB"];
    assert FirstSuccess(attemptsAt(0)) == Some(0);
    assert FirstSuccess(attemptsAt(1)) == Some(2) by {
      var o := attemptsAt(1);
      assert o[1..][1..] == [true];
      assert FirstSuccess(o[1..][1..]) == Some(0);
    }
    var r1 := RunFrom(sources, 1, limitAt, attemptsAt);
    assert RunFrom(sources, 2, limitAt, attemptsAt) == RunReport([], AllDone);
    assert r1 == RunReport([SourceReport("CafeB", false, 3, true)], AllDone);
  }

  /** Two cafés; the limit check before CafeB is true: CafeA completes, CafeB gets no attempt,
      and the run stops with the limit reached. */
  lemma LimitBeforeSecondCafeScenario()
    ensures var r := RunFrom(["CafeA", "CafeB"], 0, k => k == 1, _ => [true]);
      && r.end == LimitReached
      && r.visited == [SourceReport("CafeA", false, 1, true), SourceReport("CafeB", true, 0, false)]
  {
  }

  /* ---------------- Scroll-end configuration of handle_place ---------------- */

  const RepeatsToEnd: nat := 2
  const DefaultSkippedListLimit: int := 15
  const DefaultFlingWhenSkipped: int := 0

  /** The arguments of the `ScrollEndDetector` built for each attempt. */
  datatype ScrollEndConfig = ScrollEndConfig(repeatsToEnd: nat, skippedListLimit: int, skippedFlingLimit: int)

  /** `handle_place`'s detector: `repeats_to_end` is fixed at 2 and the two skip limits are resolved
      by `get_value` from the arguments with defaults 15 and 0. */
  function PostsEndDetector(args: PlaceArgs, getValue: (Option<string>, int) -> int): (c: ScrollEndConfig)
    ensures c.repeatsToEnd == 2
    ensures c.skippedListLimit == getValue(args.skippedListLimit, 15)
    ensures c.skippedFlingLimit == getValue(args.flingWhenSkipped, 0)
  {
    ScrollEndConfig(
      RepeatsToEnd,
      getValue(args.skippedListLimit, DefaultSkippedListLimit),
      getValue(args.flingWhenSkipped, DefaultFlingWhenSkipped))
  }

  /** When `get_value` falls back to its default for an unset option, unset options give the
      configuration (2, 15, 0). */
  lemma DefaultScrollEndConfig(args: PlaceArgs, getValue: (Option<string>, int) -> int)
    requires forall d :: getValue(None, d) == d
    requires args.skippedListLimit.None? && args.flingWhenSkipped.None?
    ensures PostsEndDetector(args, getValue) == ScrollEndConfig(2, 15, 0)
  {
  }
}
