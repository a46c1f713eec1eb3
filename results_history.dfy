/** The history part of the results screen (screens/ResultsScreen.js):
    loading the stored results, clearing them, the newest-first ordering of
    the history list and the counts of the performance summary. */
module ResultsHistory {
  import opened Wrappers
  import opened Records

  /** Newest timestamp first; equal timestamps may come in either order. */
  predicate NewestFirst(rs: seq<TestResult>) {
    forall i, j :: 0 <= i < j < |rs| ==> rs[i].timestamp >= rs[j].timestamp
  }

  /** Places `x` before the first record that is strictly older, so after
      every record at least as new. */
  function Insert(x: TestResult, rs: seq<TestResult>): (r: seq<TestResult>)
    ensures multiset(r) == multiset(rs) + multiset{x}
  {
    if rs == [] then [x]
    else if x.timestamp > rs[0].timestamp then [x] + rs
    else
      assert rs == [rs[0]] + rs[1..];
      [rs[0]] + Insert(x, rs[1..])
  }

  /** A record at least as new as every record of a newest-first list can
      go in front of it. */
  lemma ConsNewestFirst(a: TestResult, t: seq<TestResult>)
    requires NewestFirst(t)
    requires forall e :: e in t ==> a.timestamp >= e.timestamp
    ensures NewestFirst([a] + t)
  {
    var r := [a] + t;
    forall i, j | 0 <= i < j < |r| ensures r[i].timestamp >= r[j].timestamp {
      assert r[j] == t[j - 1];
      if i > 0 {
        assert r[i] == t[i - 1];
      } else {
        assert t[j - 1] in t;
      }
    }
  }

  /** Inserting into a newest-first list keeps it newest first. */
  lemma {:induction false} InsertKeepsOrder(x: TestResult, rs: seq<TestResult>)
    requires NewestFirst(rs)
    ensures NewestFirst(Insert(x, rs))
    decreases |rs|
  {
    if rs == [] {
    } else if x.timestamp > rs[0].timestamp {
      forall e | e in rs ensures x.timestamp >= e.timestamp {
        var k :| 0 <= k < |rs| && rs[k] == e;
        assert k == 0 || rs[0].timestamp >= rs[k].timestamp;
      }
      ConsNewestFirst(x, rs);
    } else {
      var tail := Insert(x, rs[1..]);
      assert NewestFirst(rs[1..]) by {
        forall i, j | 0 <= i < j < |rs[1..]| ensures rs[1..][i].timestamp >= rs[1..][j].timestamp {
          assert rs[1..][i] == rs[i + 1] && rs[1..][j] == rs[j + 1];
        }
      }
      InsertKeepsOrder(x, rs[1..]);
      forall e | e in tail ensures rs[0].timestamp >= e.timestamp {
        assert e in multiset(tail);
        assert e in multiset(rs[1..]) || e == x;
        if e != x {
          var k :| 0 <= k < |rs[1..]| && rs[1..][k] == e;
          assert rs[1..][k] == rs[k + 1];
        }
      }
      ConsNewestFirst(rs[0], tail);
    }
  }

  /** The distinct test ids among `rs`: the "Test Types" of the summary. */
  function TestTypes(rs: seq<TestResult>): (ids: set<string>)
    ensures forall id :: id in ids <==> exists r :: r in rs && r.testId == id
  {
    if rs == [] then {}
    else
      var init := rs[..|rs| - 1];
      assert rs == init + [rs[|rs| - 1]];
      TestTypes(init) + {rs[|rs| - 1].testId}
  }

  /** There are never more test types than tests, and at least one as soon
      as there is a test. */
  lemma {:induction false} TestTypesBound(rs: seq<TestResult>)
    ensures |TestTypes(rs)| <= |rs|
    ensures rs != [] ==> |TestTypes(rs)| >= 1
    decreases |rs|
  {
    if rs != [] {
      var init := rs[..|rs| - 1];
      assert rs == init + [rs[|rs| - 1]];
      TestTypesBound(init);
      assert TestTypes(rs) == TestTypes(init) + {rs[|rs| - 1].testId};
    }
  }

  /** The summary's "Total Tests" and "Test Types". */
  function Summary(rs: seq<TestResult>): (counts: (nat, nat))
    ensures counts.0 == |rs| && counts.1 == |TestTypes(rs)|
    ensures counts.1 <= counts.0
    ensures counts.0 > 0 ==> counts.1 > 0
  {
    TestTypesBound(rs);
    (|rs|, |TestTypes(rs)|)
  }

  /** Reordering the history does not change the summary. */
  lemma SummaryIgnoresOrder(a: seq<TestResult>, b: seq<TestResult>)
    requires multiset(a) == multiset(b)
    ensures Summary(a) == Summary(b)
  {
    assert |a| == |multiset(a)| == |b|;
    forall r ensures r in a <==> r in b {
      assert r in a <==> r in multiset(a);
      assert r in b <==> r in multiset(b);
    }
    assert TestTypes(a) == TestTypes(b);
  }

  /** The results screen's history state over the device store. */
  class ResultsView {
    const store: AsyncStore
    var allResults: seq<TestResult>
    var athleteProfile: map<string, string>
    var alerts: seq<string>

    constructor (store: AsyncStore)
      ensures this.store == store && allResults == [] && athleteProfile == map[] && alerts == []
    {
      this.store := store;
      allResults := [];
      athleteProfile := map[];
      alerts := [];
    }

    /** `loadData`: the stored list when the key exists (even an empty
        one), else the presentation records; likewise for the profile. */
    method LoadData(demoResults: seq<TestResult>, demoProfile: map<string, string>)
      modifies this`allResults, this`athleteProfile
      ensures store.testResults.Some? ==> allResults == store.testResults.value
      ensures store.testResults.None? ==> allResults == demoResults
      ensures athleteProfile == store.athleteProfile.GetOr(demoProfile)
    {
      if store.testResults.Some? {
        allResults := store.testResults.value;
      } else {
        allResults := demoResults;
      }
      if store.athleteProfile.Some? {
        athleteProfile := store.athleteProfile.value;
      } else {
        athleteProfile := demoProfile;
      }
    }

    /** `clearAllResults`: after a confirmed delete that storage accepts,
        the key is gone and the list is empty; a cancelled dialog or a
        failed removal leaves both as they were. */
    method ClearAllResults(confirmed: bool, removeOk: bool)
      modifies this`allResults, this`alerts, store`testResults
      ensures confirmed && removeOk ==>
                store.testResults.None? && allResults == [] && alerts == old(alerts) + ["All results cleared"]
      ensures confirmed && !removeOk ==>
                store.testResults == old(store.testResults) && allResults == old(allResults)
                && alerts == old(alerts) + ["Failed to clear results"]
      ensures !confirmed ==>
                store.testResults == old(store.testResults) && allResults == old(allResults) && alerts == old(alerts)
    {
      if !confirmed {
        return;
      }
      if removeOk {
        store.testResults := None;
        allResults := [];
        alerts := alerts + ["All results cleared"];
      } else {
        alerts := alerts + ["Failed to clear results"];
      }
    }

    /** The in-place sort of the history list before it is shown. */
    method SortHistory()
      modifies this`allResults
      ensures NewestFirst(allResults)
      ensures multiset(allResults) == multiset(old(allResults))
    {
      var rs := allResults;
      var sorted: seq<TestResult> := [];
      var i := 0;
      while i < |rs|
        invariant 0 <= i <= |rs|
        invariant NewestFirst(sorted)
        invariant multiset(sorted) == multiset(rs[..i])
      {
        assert rs[..i + 1] == rs[..i] + [rs[i]];
        InsertKeepsOrder(rs[i], sorted);
        sorted := Insert(rs[i], sorted);
        i := i + 1;
      }
      assert rs[..i] == rs;
      allResults := sorted;
    }
  }

  /** Sorting the history on screen leaves its summary counts as they were. */
  method SortedSummary(store: AsyncStore, demoResults: seq<TestResult>) returns (before: (nat, nat), after: (nat, nat))
    ensures before == after
    ensures after.1 <= after.0
  {
    var view := new ResultsView(store);
    view.LoadData(demoResults, map[]);
    var loaded := view.allResults;
    before := Summary(loaded);
    view.SortHistory();
    SummaryIgnoresOrder(loaded, view.allResults);
    after := Summary(view.allResults);
  }
}
