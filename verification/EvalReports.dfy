/** _build_live_eval_report: the accounting over the reports of the scheduler. */
module EvalReports {
  import opened Seqs
  import opened CaseScheduler

  const PASS := "pass"

  datatype EvalReport = EvalReport(
    status: string, isComplete: bool, expectedCount: nat, completedCount: nat, missing: seq<string>,
    pendingCount: nat, passed: nat, failed: nat, cases: seq<CaseReport>)

  function ReportId(r: CaseReport): string { r.id }

  function InputId(c: CaseInput): string { c.caseId }

  function NamedId(r: CaseReport): Option<string> { if r.id != "" then Some(r.id) else None }

  /** The ids of the reports that carry one. */
  function CompletedIds(reports: seq<CaseReport>): seq<string> { Collect(NamedId, reports) }

  function MissingIds(expected: seq<string>, reports: seq<CaseReport>): seq<string> {
    Filter((id: string) => id !in CompletedIds(reports), expected)
  }

  predicate HasFailed(r: CaseReport) { r.status != PASS }

  /** _build_live_eval_report without a status override */
  function BuildReport(reports: seq<CaseReport>, expected: seq<string>, isComplete: bool): EvalReport {
    var failed, missing := Filter(HasFailed, reports), MissingIds(expected, reports);
    EvalReport(if !isComplete then "running" else if failed != [] then "fail" else PASS,
               isComplete, |expected|, |reports|, missing, |missing|, |reports| - |failed|, |failed|, reports)
  }

  /** Case ids are never empty, and a worker reports under the id of its own case. */
  ghost predicate OwnIds(setup: Setup) {
    && (forall i :: 0 <= i < |setup.inputs| ==> setup.inputs[i].caseId != "")
    && (forall k: nat, i: nat :: i < |setup.inputs| ==>
          var m := setup.env.observe(k, i).message;
          m.Some? && m.value.Ok? ==> m.value.report.id == setup.inputs[i].caseId)
  }

  lemma SlotIds(setup: Setup, run: nat -> State, k: nat, i: nat)
    requires IsTrace(setup, run) && OwnIds(setup) && i < |setup.inputs| && run(k).slots[i].Some?
    ensures run(k).slots[i].value.id == setup.inputs[i].caseId
  {
    var since, p := SlotsAreOwn(setup, run, k, i);
  }

  lemma CompletedHas(reports: seq<CaseReport>, r: CaseReport)
    requires r in reports && r.id != ""
    ensures r.id in CompletedIds(reports)
  {
    assert NamedId(r) == Some(r.id);
  }

  /** When the scheduler is done no case is missing, whatever the workers did. */
  lemma FinalReportComplete(setup: Setup, run: nat -> State, k: nat, reports: seq<CaseReport>)
    requires IsTrace(setup, run) && OwnIds(setup) && |reports| == |setup.inputs|
    requires forall i :: 0 <= i < |reports| ==> run(k).slots[i] == Some(reports[i])
    ensures var r := BuildReport(reports, Map(InputId, setup.inputs), true);
            r.missing == [] && r.pendingCount == 0 && r.completedCount == r.expectedCount
            && (r.status == PASS <==> forall c :: c in reports ==> c.status == PASS)
    ensures Map(ReportId, reports) == Map(InputId, setup.inputs)
  {
    forall i | 0 <= i < |reports| ensures reports[i].id == setup.inputs[i].caseId {
      SlotIds(setup, run, k, i);
    }
    var expected := Map(InputId, setup.inputs);
    forall id | id in expected ensures id in CompletedIds(reports) {
      var i :| 0 <= i < |expected| && expected[i] == id;
      CompletedHas(reports, reports[i]);
    }
    FilterNone((id: string) => id !in CompletedIds(reports), expected);
    FailuresListed(reports);
  }

  lemma FailuresListed(reports: seq<CaseReport>)
    ensures Filter(HasFailed, reports) == [] <==> forall c :: c in reports ==> c.status == PASS
  {
    if forall c :: c in reports ==> c.status == PASS {
      FilterNone(HasFailed, reports);
    } else {
      var c :| c in reports && c.status != PASS;
      assert c in Filter(HasFailed, reports);
    }
  }

  // Counting the missing cases of a partial report

  lemma {:induction false} FilterSplit<T>(p: T -> bool, q: T -> bool, xs: seq<T>)
    requires forall x :: p(x) <==> !q(x)
    ensures |Filter(p, xs)| + |Filter(q, xs)| == |xs|
  {
    if xs != [] {
      FilterSplit(p, q, xs[1..]);
    }
  }

  lemma SameSetSameLength<T>(xs: seq<T>, ys: seq<T>)
    requires Distinct(xs) && Distinct(ys)
    requires (forall x :: x in xs ==> x in ys) && (forall y :: y in ys ==> y in xs)
    ensures |xs| == |ys|
  {
    assert multiset(xs) == multiset(ys) by {
      forall x ensures multiset(xs)[x] == multiset(ys)[x] {
        OnceWhenDistinct(xs, x);
        OnceWhenDistinct(ys, x);
        assert x in xs <==> x in multiset(xs);
        assert x in ys <==> x in multiset(ys);
      }
    }
    assert |multiset(xs)| == |xs| && |multiset(ys)| == |ys|;
  }

  lemma {:induction false} AllNamed(reports: seq<CaseReport>)
    requires forall r :: r in reports ==> r.id != ""
    ensures CompletedIds(reports) == Map(ReportId, reports)
  {
    if reports != [] {
      assert reports[0] in reports;
      AllNamed(reports[1..]);
      assert Map(ReportId, reports) == [reports[0].id] + Map(ReportId, reports[1..]);
    }
  }

  /** With distinct expected ids, and reports of distinct expected cases, expected minus reported are missing. */
  lemma MissingCount(expected: seq<string>, reports: seq<CaseReport>)
    requires Distinct(expected) && Distinct(Map(ReportId, reports))
    requires forall r :: r in reports ==> r.id != "" && r.id in expected
    ensures |MissingIds(expected, reports)| == |expected| - |reports|
  {
    AllNamed(reports);
    var done := CompletedIds(reports);
    var present := Filter((id: string) => id in done, expected);
    FilterSplit((id: string) => id !in done, (id: string) => id in done, expected);
    FilterDistinct((id: string) => id in done, expected);
    forall id | id in done ensures id in present {
      var i :| 0 <= i < |reports| && Map(ReportId, reports)[i] == id;
      assert reports[i] in reports;
    }
    SameSetSameLength(present, done);
  }

  lemma {:induction false} SubsequenceIds(xs: seq<CaseReport>, ys: seq<CaseReport>)
    requires Subsequence(xs, ys) && Distinct(Map(ReportId, ys))
    ensures Distinct(Map(ReportId, xs)) && forall x :: x in xs ==> x in ys
  {
    if xs != [] {
      FirstKeyUnique(ReportId, ys);
      if xs[0] == ys[0] && Subsequence(xs[1..], ys[1..]) {
        SubsequenceIds(xs[1..], ys[1..]);
        DistinctAppend([xs[0].id], Map(ReportId, xs[1..]));
        assert Map(ReportId, xs) == [xs[0].id] + Map(ReportId, xs[1..]);
        assert xs == [xs[0]] + xs[1..];
      } else {
        SubsequenceIds(xs, ys[1..]);
      }
    }
  }

  lemma {:induction false} CompactFrom(slots: seq<Option<CaseReport>>, ids: seq<string>)
    requires |slots| == |ids| && Distinct(ids)
    requires forall i :: 0 <= i < |slots| && slots[i].Some? ==> slots[i].value.id == ids[i]
    ensures Distinct(Map(ReportId, Compact(slots)))
    ensures forall r :: r in Compact(slots) ==> r.id in ids
  {
    if slots != [] {
      assert Distinct(ids[1..]) && ids[0] !in ids[1..];
      CompactFrom(slots[1..], ids[1..]);
      var rest := Compact(slots[1..]);
      if slots[0].Some? {
        assert Map(ReportId, Compact(slots)) == [ids[0]] + Map(ReportId, rest);
        forall id | id in Map(ReportId, rest) ensures id != ids[0] {
          var i :| 0 <= i < |rest| && rest[i].id == id;
          assert rest[i] in rest;
        }
        DistinctAppend([ids[0]], Map(ReportId, rest));
      }
      assert forall id :: id in ids[1..] ==> id in ids;
    }
  }

  /**
   * The j-th checkpoint report of a run over distinct cases is running, counts j + 1 completed cases, and
   * lists exactly the others as missing.
   */
  lemma CheckpointReports(setup: Setup, run: nat -> State, k: nat, j: nat)
    requires IsTrace(setup, run) && OwnIds(setup) && Distinct(Map(InputId, setup.inputs)) && j < |run(k).checkpoints|
    ensures var r := BuildReport(run(k).checkpoints[j], Map(InputId, setup.inputs), false);
            r.status == "running" && r.completedCount == j + 1 && r.pendingCount == |setup.inputs| - (j + 1)
  {
    var s, ids := run(k), Map(InputId, setup.inputs);
    StateCheckpointed(setup, run, k);
    forall i | 0 <= i < |s.slots| && s.slots[i].Some? ensures s.slots[i].value.id == ids[i] {
      SlotIds(setup, run, k, i);
    }
    CompactFrom(s.slots, ids);
    SubsequenceIds(s.checkpoints[j], Compact(s.slots));
    forall r | r in s.checkpoints[j] ensures r.id != "" && r.id in ids {
      var i :| 0 <= i < |ids| && ids[i] == r.id;
    }
    MissingCount(ids, s.checkpoints[j]);
  }

  predicate HasPassed(r: CaseReport) { r.status == "pass" }

  /** The counts of a report are those of the statuses of its cases, and its own status is read off them. */
  lemma ReportCounts(reports: seq<CaseReport>, expected: seq<string>, isComplete: bool)
    ensures var r := BuildReport(reports, expected, isComplete);
            && r.passed == |Places(HasPassed, reports)| && r.failed == |Places(HasFailed, reports)|
            && r.cases == reports && r.completedCount == |reports| == r.passed + r.failed
            && r.expectedCount == |expected| && r.isComplete == isComplete
            && (r.status == "running" <==> !isComplete)
            && (r.status == "fail" <==> isComplete && exists c :: c in reports && c.status != "pass")
            && (r.status == "pass" <==> isComplete && r.failed == 0)
            && forall id :: id in r.missing <==> id in expected && forall c :: c in reports ==> c.id == "" || c.id != id
  {
    FilterCounts(HasFailed, reports);
    FilterCounts(HasPassed, reports);
    FilterSplit(HasPassed, HasFailed, reports);
    FailuresListed(reports);
    forall id ensures id in CompletedIds(reports) <==> exists c :: c in reports && c.id != "" && c.id == id {
      if c :| c in reports && c.id != "" && c.id == id {
        CompletedHas(reports, c);
      }
    }
  }
}
