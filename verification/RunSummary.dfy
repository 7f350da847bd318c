/** The run summary and the status tallies of files and suites. */
module RunSummary {
  import opened Seqs
  import opened Grouping
  import opened Lifecycle

  // ---------------------------------------------------------------- tallies

  function HasStatus(wanted: set<string>): TestRow -> nat {
    (r: TestRow) => if r.status in wanted then 1 else 0
  }

  lemma {:induction false} CountIsSum(rows: seq<TestRow>, wanted: set<string>)
    ensures CountStatus(rows, wanted) == Sum(rows, HasStatus(wanted))
  {
    if rows != [] { CountIsSum(rows[1..], wanted); }
  }

  function SuiteCounts(rows: seq<TestRow>, suites: seq<string>, wanted: set<string>): nat {
    if suites == [] then 0
    else SuiteCounts(rows, suites[..|suites| - 1], wanted)
         + CountStatus(WithKey(rows, SuiteOf, suites[|suites| - 1]), wanted)
  }

  lemma {:induction false} SuiteCountsRegrouped(rows: seq<TestRow>, suites: seq<string>, wanted: set<string>)
    ensures SuiteCounts(rows, suites, wanted) == CountStatus(Regrouped(rows, SuiteOf, suites), wanted)
  {
    if suites != [] {
      var init, mine := suites[..|suites| - 1], WithKey(rows, SuiteOf, suites[|suites| - 1]);
      SuiteCountsRegrouped(rows, init, wanted);
      CountIsSum(Regrouped(rows, SuiteOf, init), wanted);
      CountIsSum(mine, wanted);
      CountIsSum(Regrouped(rows, SuiteOf, suites), wanted);
      SumAppend(Regrouped(rows, SuiteOf, init), mine, HasStatus(wanted));
    }
  }

  /** The tallies of a file's suites add up to the file's tally, status by status. */
  lemma {:induction false} TalliesAddUp(rows: seq<TestRow>, wanted: set<string>)
    ensures SuiteCounts(rows, KeysSeen(rows, SuiteOf), wanted) == CountStatus(rows, wanted)
  {
    var suites := KeysSeen(rows, SuiteOf);
    SuiteCountsRegrouped(rows, suites, wanted);
    RegroupedPermutes(rows, SuiteOf);
    CountIsSum(Regrouped(rows, SuiteOf, suites), wanted);
    CountIsSum(rows, wanted);
    SumPermutation(Regrouped(rows, SuiteOf, suites), rows, HasStatus(wanted));
  }

  // ---------------------------------------------------------------- the summary

  const STATUSES := {"pass", "fail", "error", "skip", "pending"}

  lemma {:induction false} RecognisedOnce(rows: seq<TestRow>)
    ensures var s := StatusSummary(rows);
            s.passed + s.failed + s.errors + s.skipped == CountStatus(rows, STATUSES)
    ensures CountStatus(rows, STATUSES) <= |rows|
    ensures CountStatus(rows, STATUSES) == |rows| <==> forall r :: r in rows ==> r.status in STATUSES
  {
    if rows != [] {
      var tail := rows[1..];
      assert rows == [rows[0]] + tail;
      RecognisedOnce(tail);
    }
  }

  /** The counts of a tally add up to its number of tests exactly when every status is a known one:
      the check that a summary adds up rejects nothing but unknown statuses. */
  lemma {:induction false} CountsAddUpExactlyWhen(rows: seq<TestRow>)
    ensures var s := StatusSummary(rows);
            s.tests == s.passed + s.failed + s.errors + s.skipped <==> forall r :: r in rows ==> r.status in STATUSES
  {
    RecognisedOnce(rows);
  }

  /** The order of the rows cannot be seen in a tally. */
  lemma {:induction false} OrderIgnored(a: seq<TestRow>, b: seq<TestRow>)
    requires multiset(a) == multiset(b)
    ensures StatusSummary(a) == StatusSummary(b)
  {
    SameMembers(a, b);
    CountPermuted(a, b, {"pass"});
    CountPermuted(a, b, {"fail"});
    CountPermuted(a, b, {"error"});
    CountPermuted(a, b, {"skip", "pending"});
  }

  lemma {:induction false} CountPermuted(a: seq<TestRow>, b: seq<TestRow>, wanted: set<string>)
    requires multiset(a) == multiset(b)
    ensures CountStatus(a, wanted) == CountStatus(b, wanted)
  {
    CountIsSum(a, wanted);
    CountIsSum(b, wanted);
    SumPermutation(a, b, HasStatus(wanted));
  }
}
