/**
 * _run_cases_with_timeout: cases run in worker processes, a bounded number at a time, each with a deadline.
 * Workers, their queues and the clock are an arbitrary environment, read once per poll and case.
 */
module CaseScheduler {
  import opened Seqs
  import opened Text

  datatype CaseInput = CaseInput(caseId: string)

  datatype CaseReport = CaseReport(id: string, status: string, outcome: string, reason: string, errorType: string)

  datatype Message = Ok(report: CaseReport) | Failed(errorType: string, reason: string)

  /** What one poll sees of a worker: a queued message, whether the process lives, and the time of the check. */
  datatype Observation = Observation(message: Option<Message>, alive: bool, exitText: string, now: real)

  /** `tick(k)` is the time when poll k begins, `start(k, i)` the start time recorded for case i in poll k. */
  datatype Environment = Environment(tick: nat -> real, start: (nat, nat) -> real, observe: (nat, nat) -> Observation)

  /** A poll begins, starts workers, checks them, and sleeps for at least 0.05 seconds. */
  ghost predicate Steady(env: Environment) {
    && (forall k: nat, i: nat :: env.tick(k) <= env.start(k, i))
    && (forall k: nat, i: nat, j: nat :: env.start(k, i) <= env.observe(k, j).now)
    && (forall k: nat, j: nat :: env.observe(k, j).now + 0.05 <= env.tick(k + 1))
  }

  const POLLS_PER_SECOND := 20

  /** An element of enumerate(case_inputs). */
  datatype Case = Case(index: nat, input: CaseInput)

  datatype Active = Active(index: nat, input: CaseInput, started: real, since: nat)

  datatype State = State(pending: seq<Case>, active: seq<Active>, slots: seq<Option<CaseReport>>,
                         checkpoints: seq<seq<CaseReport>>)

  /** The fixed parameters of one call. */
  datatype Setup = Setup(inputs: seq<CaseInput>, concurrency: nat, timeout: nat, env: Environment)

  ghost predicate Proper(setup: Setup) { setup.concurrency >= 1 && setup.timeout >= 1 && Steady(setup.env) }

  // Reports

  function ErrorReport(input: CaseInput, errorType: string, reason: string): CaseReport {
    CaseReport(input.caseId, "fail", "error", reason, errorType)
  }

  function TimeoutReport(input: CaseInput, timeout: nat): CaseReport {
    CaseReport(input.caseId, "fail", "timeout", "case exceeded timeout of " + NatText(timeout) + " seconds", "")
  }

  /** The three reasons to finish a case, in the order of the checks; None leaves it running. */
  function Verdict(setup: Setup, a: Active, o: Observation): Option<CaseReport> {
    if o.message.Some? then
      match o.message.value
      case Ok(report) => Some(report)
      case Failed(errorType, reason) => Some(ErrorReport(a.input, errorType, reason))
    else if !o.alive then Some(ErrorReport(a.input, "ProcessExit", o.exitText))
    else if o.now - a.started > setup.timeout as real then Some(TimeoutReport(a.input, setup.timeout))
    else None
  }

  function Filled(slot: Option<CaseReport>): Option<CaseReport> { slot }

  /** `[report for report in reports if report is not None]` */
  function Compact(slots: seq<Option<CaseReport>>): seq<CaseReport> { Collect(Filled, slots) }

  // One poll

  function Remove(active: seq<Active>, item: Active): seq<Active> {
    if active == [] then [] else if active[0] == item then active[1..] else [active[0]] + Remove(active[1..], item)
  }

  function Launch(setup: Setup, c: Case, k: nat): Active { Active(c.index, c.input, setup.env.start(k, c.index), k) }

  function Fill(setup: Setup, s: State, k: nat): (t: State)
    ensures t.slots == s.slots && t.checkpoints == s.checkpoints
    decreases |s.pending|
  {
    if s.pending != [] && |s.active| < setup.concurrency then
      Fill(setup, s.(pending := s.pending[1..], active := s.active + [Launch(setup, s.pending[0], k)]), k)
    else s
  }

  /** The assignment to a slot; the index is never out of range. */
  function Write(slots: seq<Option<CaseReport>>, i: nat, report: CaseReport): (r: seq<Option<CaseReport>>)
    ensures |r| == |slots|
  {
    if i < |slots| then slots[i := Some(report)] else slots
  }

  function Finish(s: State, item: Active, report: CaseReport): State {
    var slots := Write(s.slots, item.index, report);
    s.(slots := slots, checkpoints := s.checkpoints + [Compact(slots)], active := Remove(s.active, item))
  }

  function Check(setup: Setup, s: State, item: Active, k: nat): State {
    match Verdict(setup, item, setup.env.observe(k, item.index))
    case Some(report) => Finish(s, item, report)
    case None => s
  }

  function CheckAll(setup: Setup, s: State, items: seq<Active>, k: nat): (t: State)
    ensures |t.slots| == |s.slots|
    decreases |items|
  {
    if items == [] then s else CheckAll(setup, Check(setup, s, items[0], k), items[1..], k)
  }

  // Invariant: pending, active and reported cases partition the input

  predicate IsActive(active: seq<Active>, i: nat) {
    active != [] && (active[0].index == i || IsActive(active[1..], i))
  }

  ghost predicate Ascending(active: seq<Active>) {
    forall i, j :: 0 <= i < j < |active| ==> active[i].index < active[j].index
  }

  ghost predicate Suffix(pending: seq<Case>, inputs: seq<CaseInput>) {
    |pending| <= |inputs|
    && forall j :: 0 <= j < |pending| ==>
         pending[j] == Case(|inputs| - |pending| + j, inputs[|inputs| - |pending| + j])
  }

  /**
   * Cases wait in input order; of those taken from the queue, exactly the active ones have no report yet, and
   * there are at most `concurrency` of them.
   */
  ghost predicate Partition(setup: Setup, s: State) {
    var n := |setup.inputs|;
    && |s.slots| == n && Suffix(s.pending, setup.inputs)
    && Ascending(s.active) && |s.active| <= setup.concurrency
    && (forall a :: a in s.active ==> a.index < n - |s.pending| && a.input == setup.inputs[a.index])
    && (forall i :: 0 <= i < n ==> (s.slots[i].Some? <==> i < n - |s.pending| && !IsActive(s.active, i)))
  }

  lemma {:induction false} ActiveIff(active: seq<Active>, i: nat)
    ensures IsActive(active, i) <==> exists a :: a in active && a.index == i
  {
    if active != [] {
      ActiveIff(active[1..], i);
      assert active == [active[0]] + active[1..];
    }
  }

  lemma {:induction false} ActiveSnoc(active: seq<Active>, a: Active, i: nat)
    ensures IsActive(active + [a], i) <==> IsActive(active, i) || a.index == i
  {
    if active == [] {
      assert [a][1..] == [] && active + [a] == [a];
    } else {
      assert (active + [a])[1..] == active[1..] + [a];
      ActiveSnoc(active[1..], a, i);
    }
  }

  lemma {:induction false} RemoveFacts(active: seq<Active>, item: Active)
    requires Ascending(active) && item in active
    ensures Ascending(Remove(active, item)) && |Remove(active, item)| == |active| - 1
    ensures forall a :: a in Remove(active, item) <==> a in active && a != item
    ensures forall a :: a in active && a.index == item.index ==> a == item
  {
    if active[0] != item {
      assert Ascending(active[1..]);
      RemoveFacts(active[1..], item);
    }
  }

  lemma FillPartition(setup: Setup, s: State, k: nat)
    requires Partition(setup, s)
    ensures Partition(setup, Fill(setup, s, k))
    decreases |s.pending|
  {
    if s.pending != [] && |s.active| < setup.concurrency {
      var a := Launch(setup, s.pending[0], k);
      var t := s.(pending := s.pending[1..], active := s.active + [a]);
      forall j: nat ensures IsActive(t.active, j) <==> IsActive(s.active, j) || j == a.index {
        ActiveSnoc(s.active, a, j);
      }
      FillPartition(setup, t, k);
    }
  }

  /** After the fill loop every free place is taken, unless nothing waits any more. */
  lemma FillSaturates(setup: Setup, s: State, k: nat)
    requires |s.active| <= setup.concurrency
    ensures var t := Fill(setup, s, k); t.pending == [] || |t.active| == setup.concurrency
    ensures var t := Fill(setup, s, k); |t.pending| + |t.active| == |s.pending| + |s.active|
    ensures s.active <= Fill(setup, s, k).active
    ensures Fill(setup, s, k).slots == s.slots && Fill(setup, s, k).checkpoints == s.checkpoints
    decreases |s.pending|
  {
    if s.pending != [] && |s.active| < setup.concurrency {
      FillSaturates(setup, s.(pending := s.pending[1..], active := s.active + [Launch(setup, s.pending[0], k)]), k);
    }
  }

  lemma CheckPartition(setup: Setup, s: State, item: Active, k: nat)
    requires Partition(setup, s) && item in s.active
    ensures Partition(setup, Check(setup, s, item, k))
  {
    RemoveFacts(s.active, item);
    var t := Check(setup, s, item, k);
    if t != s {
      forall i | 0 <= i < |setup.inputs|
        ensures t.slots[i].Some? <==> i < |setup.inputs| - |t.pending| && !IsActive(t.active, i)
      {
        ActiveIff(s.active, i);
        ActiveIff(t.active, i);
      }
    }
  }

  // Rounds and runs

  lemma CheckOthersActive(setup: Setup, s: State, items: seq<Active>, k: nat)
    requires Partition(setup, s) && items != [] && Ascending(items) && forall a :: a in items ==> a in s.active
    ensures forall a :: a in items[1..] ==> a in Check(setup, s, items[0], k).active
    ensures Ascending(items[1..])
  {
    RemoveFacts(s.active, items[0]);
    forall a | a in items[1..] ensures a in Check(setup, s, items[0], k).active {
      var j :| 0 <= j < |items[1..]| && items[1..][j] == a;
      assert items[0].index < items[j + 1].index;
    }
  }

  lemma {:induction false} CheckAllPartition(setup: Setup, s: State, items: seq<Active>, k: nat)
    requires Partition(setup, s) && Ascending(items) && forall a :: a in items ==> a in s.active
    ensures Partition(setup, CheckAll(setup, s, items, k))
    decreases |items|
  {
    if items != [] {
      CheckPartition(setup, s, items[0], k);
      CheckOthersActive(setup, s, items, k);
      CheckAllPartition(setup, Check(setup, s, items[0], k), items[1..], k);
    }
  }

  /** One pass of the outer loop: fill the free places, then check a snapshot of the active cases. */
  function Round(setup: Setup, s: State, k: nat): (t: State)
    ensures |t.slots| == |s.slots|
  {
    var filled := Fill(setup, s, k);
    CheckAll(setup, filled, filled.active, k)
  }

  function Enumerated(inputs: seq<CaseInput>): seq<Case> {
    seq(|inputs|, i requires 0 <= i < |inputs| => Case(i, inputs[i]))
  }

  function Initial(setup: Setup): State {
    State(Enumerated(setup.inputs), [], seq(|setup.inputs|, _ => None), [])
  }

  /** The state when poll k begins. */
  function StateAt(setup: Setup, k: nat): (s: State)
    ensures |s.slots| == |setup.inputs|
  {
    if k == 0 then Initial(setup) else Round(setup, StateAt(setup, k - 1), k - 1)
  }

  /** The run that a call of the scheduler performs. */
  function Polls(setup: Setup): nat -> State { (k: nat) => StateAt(setup, k) }

  ghost predicate Step(setup: Setup, run: nat -> State, k: nat) { run(k + 1) == Round(setup, run(k), k) }

  /** A run of the scheduler: each state is the round of the one before. */
  ghost predicate IsTrace(setup: Setup, run: nat -> State) {
    && run(0) == Initial(setup)
    && (forall k: nat :: |run(k).slots| == |setup.inputs|)
    && (forall k: nat :: Step(setup, run, k))
  }

  lemma PollsIsTrace(setup: Setup)
    ensures IsTrace(setup, Polls(setup))
  {
    forall k: nat ensures Step(setup, Polls(setup), k) {
      assert StateAt(setup, k + 1) == Round(setup, StateAt(setup, k), k);
    }
  }

  lemma RoundPartition(setup: Setup, s: State, k: nat)
    requires Partition(setup, s)
    ensures Partition(setup, Round(setup, s, k))
  {
    FillPartition(setup, s, k);
    var filled := Fill(setup, s, k);
    CheckAllPartition(setup, filled, filled.active, k);
  }

  lemma InitialPartition(setup: Setup)
    ensures Partition(setup, Initial(setup))
  {}

  lemma {:induction false} StatePartition(setup: Setup, run: nat -> State, k: nat)
    requires IsTrace(setup, run)
    ensures Partition(setup, run(k))
  {
    if k == 0 {
      InitialPartition(setup);
    } else {
      StatePartition(setup, run, k - 1);
      assert Step(setup, run, k - 1);
      RoundPartition(setup, run(k - 1), k - 1);
    }
  }

  predicate Finished(s: State) { s.pending == [] && s.active == [] }

  /** Cases without a report. */
  function Open(s: State): nat { |s.pending| + |s.active| }

  // What a check keeps

  /** Written slots are final, no case waits or opens again. */
  ghost predicate Progress(s: State, t: State) {
    && |s.slots| == |t.slots|
    && (forall i :: 0 <= i < |s.slots| && s.slots[i].Some? ==> t.slots[i] == s.slots[i])
    && t.pending == s.pending && Open(t) <= Open(s)
  }

  lemma CheckProgress(setup: Setup, s: State, item: Active, k: nat)
    requires Partition(setup, s) && item in s.active
    ensures Progress(s, Check(setup, s, item, k))
  {
    RemoveFacts(s.active, item);
    ActiveIff(s.active, item.index);
  }

  lemma {:induction false} CheckAllProgress(setup: Setup, s: State, items: seq<Active>, k: nat)
    requires Partition(setup, s) && Ascending(items) && forall a :: a in items ==> a in s.active
    ensures Progress(s, CheckAll(setup, s, items, k))
    decreases |items|
  {
    if items != [] {
      CheckProgress(setup, s, items[0], k);
      CheckPartition(setup, s, items[0], k);
      CheckOthersActive(setup, s, items, k);
      CheckAllProgress(setup, Check(setup, s, items[0], k), items[1..], k);
    }
  }

  lemma RoundProgress(setup: Setup, s: State, k: nat)
    requires Partition(setup, s)
    ensures var t, filled := Round(setup, s, k), Fill(setup, s, k);
            && |t.slots| == |s.slots| && Open(t) <= Open(s) && t.pending == filled.pending
            && forall i :: 0 <= i < |s.slots| && s.slots[i].Some? ==> t.slots[i] == s.slots[i]
  {
    var filled := Fill(setup, s, k);
    FillPartition(setup, s, k);
    FillSaturates(setup, s, k);
    CheckAllProgress(setup, filled, filled.active, k);
  }

  lemma NextProgress(setup: Setup, s: State, t: State, k: nat)
    requires Partition(setup, s) && t == Round(setup, s, k)
    ensures |t.pending| <= |s.pending| && Open(t) <= Open(s) && |t.slots| == |s.slots|
    ensures forall i :: 0 <= i < |s.slots| && s.slots[i].Some? ==> t.slots[i] == s.slots[i]
  {
    RoundProgress(setup, s, k);
    FillSaturates(setup, s, k);
    var filled := Fill(setup, s, k);
    assert |s.active| <= |filled.active|;
  }

  /** Between any two polls a written slot keeps its report, and neither the waiting nor the open cases grow. */
  lemma {:induction false} SlotsWrittenOnce(setup: Setup, run: nat -> State, j: nat, k: nat)
    requires IsTrace(setup, run)
    requires j <= k
    ensures var s, t := run(j), run(k);
            && |t.pending| <= |s.pending| && Open(t) <= Open(s)
            && forall i :: 0 <= i < |setup.inputs| && s.slots[i].Some? ==> t.slots[i] == s.slots[i]
  {
    if j < k {
      SlotsWrittenOnce(setup, run, j, k - 1);
      StatePartition(setup, run, k - 1);
      assert Step(setup, run, k - 1);
      NextProgress(setup, run(k - 1), run(k), k - 1);
    }
  }

  // The history of a case

  /** The case waits when its poll begins, and that poll starts it. */
  ghost predicate Launched(setup: Setup, run: nat -> State, a: Active) {
    var s := run(a.since);
    Case(a.index, a.input) in s.pending && a == Launch(setup, Case(a.index, a.input), a.since)
    && a in Fill(setup, s, a.since).active
  }

  /** Launched, and without a verdict at every poll before k. */
  ghost predicate Watched(setup: Setup, run: nat -> State, a: Active, k: nat) {
    && Launched(setup, run, a) && a.since <= k
    && forall p :: a.since <= p < k ==> Verdict(setup, a, setup.env.observe(p, a.index)).None?
  }

  /** The report is the first verdict on case i since its launch, given at a poll before k. */
  ghost predicate Earned(setup: Setup, run: nat -> State, i: nat, report: CaseReport, k: nat) {
    exists a: Active, p: nat :: p < k && a.index == i && Watched(setup, run, a, p)
                                && Verdict(setup, a, setup.env.observe(p, i)) == Some(report)
  }

  ghost predicate History(setup: Setup, run: nat -> State, s: State, k: nat) {
    && |s.slots| == |setup.inputs|
    && (forall a :: a in s.active ==> Watched(setup, run, a, k) && a.since < k)
    && (forall i :: 0 <= i < |s.slots| && s.slots[i].Some? ==> Earned(setup, run, i, s.slots[i].value, k))
  }

  /** During the checks of poll k: cases still to be checked are watched up to k, the others beyond. */
  ghost predicate Checking(setup: Setup, run: nat -> State, s: State, items: seq<Active>, k: nat) {
    && |s.slots| == |setup.inputs|
    && (forall a :: a in s.active ==> Watched(setup, run, a, k) && (a in items || Watched(setup, run, a, k + 1)))
    && (forall i :: 0 <= i < |s.slots| && s.slots[i].Some? ==> Earned(setup, run, i, s.slots[i].value, k + 1))
  }

  lemma {:induction false} FillStarts(setup: Setup, s: State, k: nat)
    ensures forall a :: a in Fill(setup, s, k).active ==>
                          a in s.active
                          || (Case(a.index, a.input) in s.pending && a == Launch(setup, Case(a.index, a.input), k))
    decreases |s.pending|
  {
    if s.pending != [] && |s.active| < setup.concurrency {
      FillStarts(setup, s.(pending := s.pending[1..], active := s.active + [Launch(setup, s.pending[0], k)]), k);
    }
  }

  lemma FillChecking(setup: Setup, run: nat -> State, s: State, k: nat)
    requires IsTrace(setup, run)
    requires Partition(setup, s) && s == run(k) && History(setup, run, s, k)
    ensures var filled := Fill(setup, s, k); Checking(setup, run, filled, filled.active, k)
  {
    var filled := Fill(setup, s, k);
    FillSaturates(setup, s, k);
    FillStarts(setup, s, k);
    forall a | a in filled.active ensures Watched(setup, run, a, k) {
      if a !in s.active {
        assert Launched(setup, run, a);
      }
    }
    forall i | 0 <= i < |s.slots| && s.slots[i].Some? ensures Earned(setup, run, i, s.slots[i].value, k + 1) {
      EarnedLater(setup, run, i, s.slots[i].value, k);
    }
  }

  lemma EarnedLater(setup: Setup, run: nat -> State, i: nat, report: CaseReport, k: nat)
    requires IsTrace(setup, run)
    requires Earned(setup, run, i, report, k)
    ensures Earned(setup, run, i, report, k + 1)
  {
    var a: Active, p: nat :| p < k && a.index == i && Watched(setup, run, a, p)
                             && Verdict(setup, a, setup.env.observe(p, i)) == Some(report);
    assert p < k + 1;
  }

  lemma FinishChecking(setup: Setup, run: nat -> State, s: State, items: seq<Active>, report: CaseReport, k: nat)
    requires IsTrace(setup, run)
    requires Partition(setup, s) && items != [] && items[0] in s.active && Checking(setup, run, s, items, k)
    requires Verdict(setup, items[0], setup.env.observe(k, items[0].index)) == Some(report)
    ensures Checking(setup, run, Finish(s, items[0], report), items[1..], k)
  {
    var item := items[0];
    RemoveFacts(s.active, item);
    assert Earned(setup, run, item.index, report, k + 1);
    assert forall a :: a in items ==> a == item || a in items[1..];
  }

  lemma CheckChecking(setup: Setup, run: nat -> State, s: State, items: seq<Active>, k: nat)
    requires IsTrace(setup, run)
    requires Partition(setup, s) && items != [] && items[0] in s.active && Checking(setup, run, s, items, k)
    ensures Checking(setup, run, Check(setup, s, items[0], k), items[1..], k)
  {
    var verdict := Verdict(setup, items[0], setup.env.observe(k, items[0].index));
    if verdict.Some? {
      FinishChecking(setup, run, s, items, verdict.value, k);
    } else {
      assert Watched(setup, run, items[0], k + 1);
      assert forall a :: a in items ==> a == items[0] || a in items[1..];
    }
  }

  lemma {:induction false} CheckAllChecking(setup: Setup, run: nat -> State, s: State, items: seq<Active>, k: nat)
    requires IsTrace(setup, run)
    requires Partition(setup, s) && Checking(setup, run, s, items, k)
    requires Ascending(items) && forall a :: a in items ==> a in s.active
    ensures Checking(setup, run, CheckAll(setup, s, items, k), [], k)
    decreases |items|
  {
    if items != [] {
      CheckChecking(setup, run, s, items, k);
      CheckPartition(setup, s, items[0], k);
      CheckOthersActive(setup, s, items, k);
      CheckAllChecking(setup, run, Check(setup, s, items[0], k), items[1..], k);
    }
  }

  lemma NextHistory(setup: Setup, run: nat -> State, s: State, t: State, k: nat)
    requires IsTrace(setup, run)
    requires Partition(setup, s) && s == run(k) && t == Round(setup, s, k) && History(setup, run, s, k)
    ensures History(setup, run, t, k + 1)
  {
    var filled := Fill(setup, s, k);
    FillPartition(setup, s, k);
    FillChecking(setup, run, s, k);
    CheckAllChecking(setup, run, filled, filled.active, k);
    assert forall a :: a in t.active ==> Watched(setup, run, a, k) && Watched(setup, run, a, k + 1);
  }

  lemma RoundHistory(setup: Setup, run: nat -> State, k: nat)
    requires IsTrace(setup, run)
    ensures History(setup, run, run(k), k) ==> History(setup, run, run(k + 1), k + 1)
  {
    if History(setup, run, run(k), k) {
      StatePartition(setup, run, k);
      assert Step(setup, run, k);
      NextHistory(setup, run, run(k), run(k + 1), k);
    }
  }

  lemma InitialHistory(setup: Setup, run: nat -> State)
    requires IsTrace(setup, run)
    ensures History(setup, run, Initial(setup), 0)
  {}

  lemma {:induction false} StateHistory(setup: Setup, run: nat -> State, k: nat)
    requires IsTrace(setup, run)
    ensures History(setup, run, run(k), k)
  {
    if k == 0 {
      InitialHistory(setup, run);
    } else {
      StateHistory(setup, run, k - 1);
      RoundHistory(setup, run, k - 1);
    }
  }

  /**
   * Every report in a slot is the verdict on that slot's own case: some poll launched the case, no poll between gave
   * a verdict on it, and the one that did gave this report, with the time counted from the launch.
   */
  lemma SlotsAreOwn(setup: Setup, run: nat -> State, k: nat, i: nat) returns (since: nat, p: nat)
    requires IsTrace(setup, run)
    requires i < |setup.inputs| && run(k).slots[i].Some?
    ensures since <= p < k
    ensures var c := Case(i, setup.inputs[i]);
            var a := Launch(setup, c, since);
            && c in run(since).pending && a in Fill(setup, run(since), since).active
            && (forall q :: since <= q < p ==> Verdict(setup, a, setup.env.observe(q, i)).None?)
            && Verdict(setup, a, setup.env.observe(p, i)) == run(k).slots[i]
  {
    StateHistory(setup, run, k);
    var a;
    a, p := EarnedBy(setup, run, i, run(k).slots[i].value, k);
    since := a.since;
    StatePartition(setup, run, since);
    WaitingCase(setup, run(since), Case(a.index, a.input));
  }

  /** The case has run longer than its timeout when poll q looks at it. */
  ghost predicate Late(setup: Setup, i: nat, since: nat, q: nat) {
    setup.env.observe(q, i).now - setup.env.start(since, i) > setup.timeout as real
  }

  /** A queued message, a dead worker, or a passed deadline. */
  ghost predicate Ends(setup: Setup, i: nat, since: nat, q: nat) {
    var o := setup.env.observe(q, i);
    o.message.Some? || !o.alive || Late(setup, i, since, q)
  }

  /**
   * What the slot of case i says, in terms of what the polls saw: it was written at the first poll p since the launch
   * that saw a message, a dead worker or a passed deadline. A message decides, whether or not the worker still lives: a
   * report is stored as it is, a failure under the case's own id. Without a message a dead worker is an exit error, and
   * only a live one can time out.
   */
  lemma SlotsSay(setup: Setup, run: nat -> State, k: nat, i: nat) returns (since: nat, p: nat)
    requires IsTrace(setup, run)
    requires i < |setup.inputs| && run(k).slots[i].Some?
    ensures since <= p < k && Case(i, setup.inputs[i]) in run(since).pending
    ensures Active(i, setup.inputs[i], setup.env.start(since, i), since) in Fill(setup, run(since), since).active
    ensures Ends(setup, i, since, p) && forall q :: since <= q < p ==> !Ends(setup, i, since, q)
    ensures var o, report, id := setup.env.observe(p, i), run(k).slots[i].value, setup.inputs[i].caseId;
            match o.message
            case Some(Ok(r)) => report == r
            case Some(Failed(errorType, reason)) =>
              report == CaseReport(id, "fail", "error", reason, errorType)
            case None =>
              if !o.alive then report == CaseReport(id, "fail", "error", o.exitText, "ProcessExit")
              else
                && Late(setup, i, since, p)
                && report == CaseReport(id, "fail", "timeout",
                                        "case exceeded timeout of " + NatText(setup.timeout) + " seconds", "")
  {
    since, p := SlotsAreOwn(setup, run, k, i);
    var a := Launch(setup, Case(i, setup.inputs[i]), since);
    forall q | since <= q < p ensures !Ends(setup, i, since, q) {
      assert Verdict(setup, a, setup.env.observe(q, i)).None?;
    }
  }

  lemma EarnedBy(setup: Setup, run: nat -> State, i: nat, report: CaseReport, k: nat) returns (a: Active, p: nat)
    requires IsTrace(setup, run)
    requires Earned(setup, run, i, report, k)
    ensures p < k && a.index == i && Watched(setup, run, a, p)
    ensures Verdict(setup, a, setup.env.observe(p, i)) == Some(report)
  {
    a, p :| p < k && a.index == i && Watched(setup, run, a, p)
            && Verdict(setup, a, setup.env.observe(p, i)) == Some(report);
  }

  lemma WaitingCase(setup: Setup, s: State, c: Case)
    requires Partition(setup, s) && c in s.pending
    ensures |setup.inputs| - |s.pending| <= c.index < |setup.inputs| && c.input == setup.inputs[c.index]
  {}

  /**
   * Safety at every poll: the partition of the cases, the bound on the active ones, and full use of the places
   * while cases wait.
   */
  lemma SafeAtEveryPoll(setup: Setup, run: nat -> State, k: nat)
    requires IsTrace(setup, run)
    ensures var s := run(k); var filled := Fill(setup, s, k);
            && Partition(setup, s) && Partition(setup, filled)
            && (filled.pending == [] || |filled.active| == setup.concurrency)
            && Open(filled) == Open(s) && filled.slots == s.slots
  {
    StatePartition(setup, run, k);
    FillPartition(setup, run(k), k);
    FillSaturates(setup, run(k), k);
  }

  // Termination

  /** How many polls a case can stay active. */
  function Lifetime(setup: Setup): nat { POLLS_PER_SECOND * setup.timeout + 2 }

  lemma {:induction false} TickGrows(env: Environment, j: nat, k: nat)
    requires Steady(env) && j <= k
    ensures env.tick(k) >= env.tick(j) + (k - j) as real * 0.05
  {
    if j < k {
      TickGrows(env, j, k - 1);
      assert env.tick(k - 1) <= env.start(k - 1, 0) <= env.observe(k - 1, 0).now <= env.tick(k - 1 + 1) - 0.05;
    }
  }

  /** A check in poll k sees at least 0.05 seconds for each poll since the start. */
  lemma ElapsedAtLeast(env: Environment, since: nat, k: nat, i: nat)
    requires Steady(env) && since <= k
    ensures env.observe(k, i).now - env.start(since, i) >= (k - since) as real * 0.05
  {
    if since < k {
      TickGrows(env, since + 1, k);
      assert env.start(since, i) <= env.observe(since, i).now <= env.tick(since + 1) - 0.05;
      assert env.tick(k) <= env.start(k, i) <= env.observe(k, i).now;
    }
  }

  /** A case without a verdict at poll k was launched less than a lifetime ago. */
  lemma SurvivorYoung(setup: Setup, a: Active, k: nat)
    requires Proper(setup) && a.since <= k && a.started == setup.env.start(a.since, a.index)
    requires Verdict(setup, a, setup.env.observe(k, a.index)).None?
    ensures k + 1 - a.since < Lifetime(setup)
  {
    ElapsedAtLeast(setup.env, a.since, k, a.index);
    assert (k - a.since) as real * 0.05 <= setup.timeout as real;
    assert (k - a.since) as real <= setup.timeout as real * 20.0;
  }

  lemma YoungAt(setup: Setup, run: nat -> State, k: nat, a: Active)
    requires IsTrace(setup, run)
    requires Proper(setup) && a in run(k).active
    ensures k < a.since + Lifetime(setup) && Launched(setup, run, a)
  {
    StateHistory(setup, run, k);
    WatchedYoung(setup, run, a, k);
  }

  lemma LaunchIndex(setup: Setup, run: nat -> State, a: Active, j: nat)
    requires IsTrace(setup, run)
    ensures Launched(setup, run, a) && j <= a.since ==> |setup.inputs| - |run(j).pending| <= a.index
  {
    if Launched(setup, run, a) && j <= a.since {
      SlotsWrittenOnce(setup, run, j, a.since);
      StatePartition(setup, run, a.since);
      WaitingCase(setup, run(a.since), Case(a.index, a.input));
    }
  }

  /** Active cases were launched at poll j or later. */
  ghost predicate LaunchedSince(setup: Setup, run: nat -> State, t: State, j: nat) {
    forall a :: a in t.active ==> Launched(setup, run, a) && j <= a.since
  }

  /** One lifetime after poll k, only cases launched after it are active. */
  lemma LifetimeLaunches(setup: Setup, run: nat -> State, k: nat)
    requires IsTrace(setup, run)
    requires Proper(setup)
    ensures LaunchedSince(setup, run, run(k + Lifetime(setup)), k + 1)
  {
    forall a | a in run(k + Lifetime(setup)).active ensures Launched(setup, run, a) && k + 1 <= a.since {
      YoungAt(setup, run, k + Lifetime(setup), a);
    }
  }

  /** None of the active cases is one of those that were taken when `waiting` cases waited. */
  ghost predicate LaterIndices(setup: Setup, t: State, waiting: nat) {
    forall a :: a in t.active ==> |setup.inputs| - waiting <= a.index
  }

  lemma LaunchIndices(setup: Setup, run: nat -> State, t: State, j: nat)
    requires IsTrace(setup, run)
    ensures LaunchedSince(setup, run, t, j) ==> LaterIndices(setup, t, |run(j).pending|)
  {
    if LaunchedSince(setup, run, t, j) {
      forall a | a in t.active ensures |setup.inputs| - |run(j).pending| <= a.index {
        LaunchIndex(setup, run, a, j);
      }
    }
  }

  lemma WatchedYoung(setup: Setup, run: nat -> State, a: Active, k: nat)
    requires IsTrace(setup, run)
    requires Proper(setup) && Watched(setup, run, a, k) && a.since < k
    ensures k - a.since < Lifetime(setup)
  {
    SurvivorYoung(setup, a, k - 1);
  }

  lemma {:induction false} FewBetween(active: seq<Active>, lo: nat, hi: nat)
    requires Ascending(active) && lo <= hi && forall a :: a in active ==> lo <= a.index < hi
    ensures |active| <= hi - lo
  {
    if active != [] {
      var init, last := active[..|active| - 1], active[|active| - 1];
      assert last in active;
      FewBetween(init, lo, last.index);
    }
  }

  lemma LifetimeIndices(setup: Setup, run: nat -> State, k: nat)
    requires IsTrace(setup, run)
    requires Proper(setup)
    ensures LaterIndices(setup, run(k + Lifetime(setup)), |run(k + 1).pending|)
  {
    LifetimeLaunches(setup, run, k);
    LaunchIndices(setup, run, run(k + Lifetime(setup)), k + 1);
  }

  lemma FewerWait(setup: Setup, run: nat -> State, j: nat, k: nat)
    requires IsTrace(setup, run)
    requires j <= k
    ensures |run(k).pending| <= |run(j).pending|
  {
    SlotsWrittenOnce(setup, run, j, k);
  }

  /** One lifetime reports as many cases as run at a time, or all. */
  lemma LifetimeReports(setup: Setup, run: nat -> State, k: nat)
    requires IsTrace(setup, run)
    requires Proper(setup)
    ensures Open(run(k + Lifetime(setup))) <= Less(Open(run(k)), setup.concurrency)
  {
    FewerWait(setup, run, k + 1, k + Lifetime(setup));
    LifetimeIndices(setup, run, k);
    StillWaiting(setup, run, k);
    FewOpen(setup, run, k + Lifetime(setup), |run(k + 1).pending|);
  }

  lemma FewOpen(setup: Setup, run: nat -> State, k: nat, waiting: nat)
    requires IsTrace(setup, run)
    ensures |run(k).pending| <= waiting <= |setup.inputs| && LaterIndices(setup, run(k), waiting)
            ==> Open(run(k)) <= waiting
  {
    StatePartition(setup, run, k);
    if |run(k).pending| <= waiting <= |setup.inputs| && LaterIndices(setup, run(k), waiting) {
      FewActive(setup, run(k), waiting);
    }
  }

  lemma FewActive(setup: Setup, t: State, q: nat)
    requires Partition(setup, t) && |t.pending| <= q <= |setup.inputs|
    requires forall a :: a in t.active ==> |setup.inputs| - q <= a.index
    ensures Open(t) <= q
  {
    FewBetween(t.active, |setup.inputs| - q, |setup.inputs| - |t.pending|);
  }

  lemma StillWaiting(setup: Setup, run: nat -> State, k: nat)
    requires IsTrace(setup, run)
    ensures |run(k + 1).pending| <= Less(Open(run(k)), setup.concurrency)
    ensures |run(k + 1).pending| <= |setup.inputs|
  {
    StatePartition(setup, run, k);
    assert Step(setup, run, k);
    WaitingAfter(setup, run(k), run(k + 1), k);
  }

  lemma WaitingAfter(setup: Setup, s: State, t: State, k: nat)
    requires Partition(setup, s) && t == Round(setup, s, k)
    ensures |t.pending| <= Less(Open(s), setup.concurrency) && |t.pending| <= |setup.inputs|
  {
    RoundProgress(setup, s, k);
    RoundPartition(setup, s, k);
    FillSaturates(setup, s, k);
  }

  function Less(a: nat, b: nat): nat { if a <= b then 0 else a - b }

  /** n / c, rounded up. */
  function Batches(n: nat, c: nat): nat {
    if n == 0 || c == 0 then 0 else 1 + Batches(Less(n, c), c)
  }

  lemma {:induction false} BatchesIsCeiling(n: nat, c: nat)
    requires c > 0
    ensures Batches(n, c) == (n + c - 1) / c
  {
    if n == 0 {
      Quotient(c - 1, c, 0, c - 1);
    } else if n <= c {
      Quotient(n + c - 1, c, 1, n - 1);
      assert Batches(0, c) == 0;
    } else {
      BatchesIsCeiling(n - c, c);
      var q, r := (n - 1) / c, (n - 1) % c;
      Quotient(n + c - 1, c, q + 1, r);
    }
  }

  lemma Quotient(x: int, c: int, q: int, r: int)
    requires c > 0 && x == q * c + r && 0 <= r < c
    ensures x / c == q
  {
    var p := x / c;
    assert x == p * c + x % c;
    assert (q - p) * c == x % c - r && (p - q) * c == r - x % c;
    if q > p {
      Multiple(q - p, c);
    } else if q < p {
      Multiple(p - q, c);
    }
  }

  lemma Multiple(d: int, c: int)
    requires d >= 1 && c > 0
    ensures d * c >= c
  {}

  lemma {:induction false} BatchesGrow(m: nat, n: nat, c: nat)
    requires m <= n
    ensures Batches(m, c) <= Batches(n, c)
  {
    if m > 0 && c > 0 {
      BatchesGrow(Less(m, c), Less(n, c), c);
    }
  }

  /** The poll a number of lifetimes after poll k. */
  function LivesAfter(k: nat, life: nat, batches: nat): nat
    decreases batches
  {
    if batches == 0 then k else LivesAfter(k + life, life, batches - 1)
  }

  lemma {:induction false} LivesAfterIs(k: nat, life: nat, batches: nat)
    ensures LivesAfter(k, life, batches) == k + batches * life
    decreases batches
  {
    if batches == 0 {
      assert 0 * life == 0;
    } else {
      LivesAfterIs(k + life, life, batches - 1);
      assert batches * life == life + (batches - 1) * life;
    }
  }

  lemma LifetimeBatches(setup: Setup, run: nat -> State, k: nat, batches: nat)
    requires IsTrace(setup, run)
    requires Proper(setup) && batches > 0
    ensures Batches(Open(run(k)), setup.concurrency) <= batches
            ==> Batches(Open(run(k + Lifetime(setup))), setup.concurrency) <= batches - 1
  {
    LifetimeReports(setup, run, k);
    BatchesDrop(Open(run(k + Lifetime(setup))), Open(run(k)), setup.concurrency);
  }

  lemma BatchesDrop(m: nat, n: nat, c: nat)
    requires c > 0 && m <= Less(n, c)
    ensures Batches(m, c) <= Less(Batches(n, c), 1)
  {
    BatchesGrow(m, Less(n, c), c);
  }

  lemma NoBatches(n: nat, c: nat)
    requires c > 0
    ensures Batches(n, c) == 0 ==> n == 0
  {}

  lemma {:induction false} GoneAfter(setup: Setup, run: nat -> State, k: nat, batches: nat)
    requires IsTrace(setup, run)
    requires Proper(setup)
    ensures Batches(Open(run(k)), setup.concurrency) <= batches
            ==> Open(run(LivesAfter(k, Lifetime(setup), batches))) == 0
    decreases batches
  {
    if batches == 0 {
      NoBatches(Open(run(k)), setup.concurrency);
    } else {
      LifetimeBatches(setup, run, k, batches);
      GoneAfter(setup, run, k + Lifetime(setup), batches - 1);
    }
  }

  /** How many polls a call takes at most: a lifetime for each batch of cases that run at a time. */
  function PollBound(setup: Setup): nat { Batches(|setup.inputs|, setup.concurrency) * Lifetime(setup) }

  lemma GoneAtBound(setup: Setup, run: nat -> State)
    requires IsTrace(setup, run)
    requires Proper(setup)
    ensures Open(run(PollBound(setup))) == 0
  {
    var batches := Batches(|setup.inputs|, setup.concurrency);
    GoneAfter(setup, run, 0, batches);
    LivesAfterIs(0, Lifetime(setup), batches);
  }

  /** With a clock that advances, every case has its report after ceil(n / concurrency) * (20 * timeout + 2) polls. */
  lemma AllFinish(setup: Setup, run: nat -> State, k: nat)
    requires IsTrace(setup, run)
    requires Proper(setup) && k >= PollBound(setup)
    ensures Finished(run(k))
  {
    GoneAtBound(setup, run);
    SlotsWrittenOnce(setup, run, PollBound(setup), k);
  }

  // Checkpoints

  lemma {:induction false} SubsequenceSelf<T>(xs: seq<T>)
    ensures Subsequence(xs, xs)
  {
    if xs != [] {
      SubsequenceSelf(xs[1..]);
    }
  }

  lemma {:induction false} SubsequenceTransitive<T>(xs: seq<T>, ys: seq<T>, zs: seq<T>)
    requires Subsequence(xs, ys) && Subsequence(ys, zs)
    ensures Subsequence(xs, zs)
    decreases |ys| + |zs|
  {
    if xs != [] {
      if ys[0] == zs[0] && Subsequence(ys[1..], zs[1..]) {
        if xs[0] == ys[0] && Subsequence(xs[1..], ys[1..]) {
          SubsequenceTransitive(xs[1..], ys[1..], zs[1..]);
        } else {
          SubsequenceTransitive(xs, ys[1..], zs[1..]);
        }
      } else {
        SubsequenceTransitive(xs, ys, zs[1..]);
      }
    }
  }

  lemma {:induction false} CompactWrite(slots: seq<Option<CaseReport>>, i: nat, report: CaseReport)
    requires i < |slots| && slots[i].None?
    ensures var now := Compact(slots[i := Some(report)]);
            |now| == |Compact(slots)| + 1 && Subsequence(Compact(slots), now)
  {
    var written := slots[i := Some(report)];
    var rest := Compact(slots[1..]);
    if i == 0 {
      assert written[1..] == slots[1..];
      SubsequenceSelf(rest);
      SubsequenceCons(rest, report, rest);
    } else {
      assert written[1..] == slots[1..][i - 1 := Some(report)];
      CompactWrite(slots[1..], i - 1, report);
      if slots[0].Some? {
        SubsequenceCons(rest, slots[0].value, Compact(written[1..]));
      }
    }
  }

  /** One checkpoint per report, each one longer than the one before and in input order, the last one current. */
  ghost predicate Checkpointed(setup: Setup, s: State) {
    && |s.checkpoints| == |Compact(s.slots)| == |setup.inputs| - Open(s)
    && (forall j :: 0 <= j < |s.checkpoints| ==>
                      |s.checkpoints[j]| == j + 1 && Subsequence(s.checkpoints[j], Compact(s.slots)))
    && (s.checkpoints != [] ==> s.checkpoints[|s.checkpoints| - 1] == Compact(s.slots))
  }

  lemma CheckCheckpointed(setup: Setup, s: State, item: Active, k: nat)
    requires Partition(setup, s) && Checkpointed(setup, s) && item in s.active
    ensures Checkpointed(setup, Check(setup, s, item, k))
  {
    var t := Check(setup, s, item, k);
    if t != s {
      RemoveFacts(s.active, item);
      ActiveIff(s.active, item.index);
      var report := Verdict(setup, item, setup.env.observe(k, item.index)).value;
      CompactWrite(s.slots, item.index, report);
      SubsequenceSelf(Compact(t.slots));
      forall j | 0 <= j < |s.checkpoints| ensures Subsequence(s.checkpoints[j], Compact(t.slots)) {
        SubsequenceTransitive(s.checkpoints[j], Compact(s.slots), Compact(t.slots));
      }
    }
  }

  lemma {:induction false} CheckAllCheckpointed(setup: Setup, s: State, items: seq<Active>, k: nat)
    requires Partition(setup, s) && Checkpointed(setup, s)
    requires Ascending(items) && forall a :: a in items ==> a in s.active
    ensures Checkpointed(setup, CheckAll(setup, s, items, k))
    decreases |items|
  {
    if items != [] {
      CheckCheckpointed(setup, s, items[0], k);
      CheckPartition(setup, s, items[0], k);
      CheckOthersActive(setup, s, items, k);
      CheckAllCheckpointed(setup, Check(setup, s, items[0], k), items[1..], k);
    }
  }

  lemma {:induction false} NoReports(n: nat)
    ensures Compact(seq(n, _ => None)) == []
  {
    if n > 0 {
      var slots: seq<Option<CaseReport>> := seq(n, _ => None);
      assert slots[1..] == seq(n - 1, _ => None);
      NoReports(n - 1);
    }
  }

  lemma {:induction false} StateCheckpointed(setup: Setup, run: nat -> State, k: nat)
    requires IsTrace(setup, run)
    ensures Checkpointed(setup, run(k))
  {
    if k == 0 {
      NoReports(|setup.inputs|);
    } else {
      StateCheckpointed(setup, run, k - 1);
      StatePartition(setup, run, k - 1);
      assert Step(setup, run, k - 1);
      RoundCheckpointed(setup, run(k - 1), k - 1);
    }
  }

  lemma RoundCheckpointed(setup: Setup, s: State, k: nat)
    requires Partition(setup, s) && Checkpointed(setup, s)
    ensures Checkpointed(setup, Round(setup, s, k))
  {
    FillPartition(setup, s, k);
    FillSaturates(setup, s, k);
    var filled := Fill(setup, s, k);
    CheckAllCheckpointed(setup, filled, filled.active, k);
  }

  // The loop

  lemma {:induction false} CompactFull(slots: seq<Option<CaseReport>>)
    requires forall i :: 0 <= i < |slots| ==> slots[i].Some?
    ensures |Compact(slots)| == |slots| && forall i :: 0 <= i < |slots| ==> Compact(slots)[i] == slots[i].value
  {
    if slots != [] {
      CompactFull(slots[1..]);
    }
  }

  /** The inner while loop: start workers while places are free. */
  method StartWorkers(setup: Setup, k: nat, s: State) returns (pending: seq<Case>, active: seq<Active>)
    ensures s.(pending := pending, active := active) == Fill(setup, s, k)
  {
    pending, active := s.pending, s.active;
    while pending != [] && |active| < setup.concurrency
      invariant Fill(setup, s.(pending := pending, active := active), k) == Fill(setup, s, k)
      decreases |pending|
    {
      pending, active := pending[1..], active + [Launch(setup, pending[0], k)];
    }
  }

  /** One worker: on a verdict its slot is written, the checkpoint called, and the worker removed. */
  method CheckWorker(setup: Setup, k: nat, slots: array<Option<CaseReport>>, pending: seq<Case>, active0: seq<Active>,
                     checkpoints0: seq<seq<CaseReport>>, item: Active)
    returns (active: seq<Active>, checkpoints: seq<seq<CaseReport>>)
    requires item.index < slots.Length
    modifies slots
    ensures State(pending, active, slots[..], checkpoints)
            == Check(setup, old(State(pending, active0, slots[..], checkpoints0)), item, k)
  {
    active, checkpoints := active0, checkpoints0;
    var verdict := Verdict(setup, item, setup.env.observe(k, item.index));
    if verdict.Some? {
      slots[item.index] := verdict;
      checkpoints := checkpoints + [Compact(slots[..])];
      active := Remove(active, item);
    }
  }

  /** The inner for loop: check a snapshot of the active cases, writing their slots. */
  method CheckWorkers(setup: Setup, k: nat, slots: array<Option<CaseReport>>, pending: seq<Case>, active0: seq<Active>,
                      checkpoints0: seq<seq<CaseReport>>)
    returns (active: seq<Active>, checkpoints: seq<seq<CaseReport>>)
    requires Partition(setup, State(pending, active0, slots[..], checkpoints0))
    modifies slots
    ensures State(pending, active, slots[..], checkpoints)
            == CheckAll(setup, old(State(pending, active0, slots[..], checkpoints0)), active0, k)
  {
    active, checkpoints := active0, checkpoints0;
    ghost var s := State(pending, active0, slots[..], checkpoints0);
    ghost var last := CheckAll(setup, s, active0, k);
    for j := 0 to |active0|
      invariant State(pending, active, slots[..], checkpoints) == s && Partition(setup, s)
      invariant Ascending(active0[j..]) && forall a :: a in active0[j..] ==> a in s.active
      invariant CheckAll(setup, s, active0[j..], k) == last
    {
      SnapshotStep(setup, s, active0, j, k);
      active, checkpoints := CheckWorker(setup, k, slots, pending, active, checkpoints, active0[j]);
      s := Check(setup, s, active0[j], k);
    }
  }

  lemma SnapshotStep(setup: Setup, s: State, items: seq<Active>, j: nat, k: nat)
    requires Partition(setup, s) && j < |items| && Ascending(items[j..])
    requires forall a :: a in items[j..] ==> a in s.active
    ensures items[j] in s.active && Partition(setup, Check(setup, s, items[j], k))
    ensures Ascending(items[j + 1..]) && forall a :: a in items[j + 1..] ==> a in Check(setup, s, items[j], k).active
    ensures CheckAll(setup, s, items[j..], k) == CheckAll(setup, Check(setup, s, items[j], k), items[j + 1..], k)
  {
    assert items[j..][0] == items[j] && items[j..][1..] == items[j + 1..] && items[j] in items[j..];
    CheckPartition(setup, s, items[j], k);
    CheckOthersActive(setup, s, items[j..], k);
  }

  /** One pass of the outer loop. */
  method Poll(setup: Setup, k: nat, slots: array<Option<CaseReport>>, pending0: seq<Case>, active0: seq<Active>,
              checkpoints0: seq<seq<CaseReport>>)
    returns (pending: seq<Case>, active: seq<Active>, checkpoints: seq<seq<CaseReport>>)
    requires Partition(setup, State(pending0, active0, slots[..], checkpoints0))
    modifies slots
    ensures State(pending, active, slots[..], checkpoints)
            == Round(setup, old(State(pending0, active0, slots[..], checkpoints0)), k)
  {
    ghost var s := State(pending0, active0, slots[..], checkpoints0);
    FillPartition(setup, s, k);
    pending, active := StartWorkers(setup, k, State(pending0, active0, slots[..], checkpoints0));
    active, checkpoints := CheckWorkers(setup, k, slots, pending, active, checkpoints0);
  }

  lemma FinishedFull(setup: Setup, s: State)
    requires Partition(setup, s) && Finished(s)
    ensures |s.slots| == |setup.inputs| && forall i :: 0 <= i < |s.slots| ==> s.slots[i].Some?
  {
    assert forall i: nat :: !IsActive(s.active, i);
  }

  /** _run_cases_with_timeout; the checkpoints are the arguments of on_case_complete, call by call. */
  method RunCasesWithTimeout(setup: Setup)
    returns (reports: seq<CaseReport>, checkpoints: seq<seq<CaseReport>>, ghost polls: nat)
    requires Proper(setup)
    ensures polls <= PollBound(setup) && Finished(Polls(setup)(polls)) && checkpoints == Polls(setup)(polls).checkpoints
    ensures |reports| == |setup.inputs| == |Polls(setup)(polls).slots|
    ensures forall i :: 0 <= i < |reports| ==> Polls(setup)(polls).slots[i] == Some(reports[i])
  {
    ghost var run := Polls(setup);
    PollsIsTrace(setup);
    var n := |setup.inputs|;
    var slots := new Option<CaseReport>[n](_ => None);
    var pending: seq<Case>, active: seq<Active>, k := Enumerated(setup.inputs), [], 0;
    checkpoints := [];
    assert slots[..] == seq(n, _ => None);
    while pending != [] || active != []
      invariant State(pending, active, slots[..], checkpoints) == run(k)
      invariant k <= PollBound(setup)
      decreases PollBound(setup) - k
    {
      if k == PollBound(setup) {
        AllFinish(setup, run, k);
      }
      StatePartition(setup, run, k);
      assert Step(setup, run, k);
      pending, active, checkpoints := Poll(setup, k, slots, pending, active, checkpoints);
      k := k + 1;
    }
    polls := k;
    StatePartition(setup, run, k);
    FinishedFull(setup, run(k));
    CompactFull(slots[..]);
    reports := Compact(slots[..]);
  }
}
