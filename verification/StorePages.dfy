/**
  What one scan of the jobs table tells of the rows in a state: all of them when
  there are no more than it may return, and as many as it may return otherwise.
*/
module StorePages {
  import opened Prelude
  import opened StoreTables

  lemma Fewer<T>(a: set<T>, b: set<T>)
    requires a <= b
    ensures |a| <= |b|
    decreases |a|
  {
    if a != {} {
      var x :| x in a;
      Fewer(a - {x}, b - {x});
    }
  }

  lemma SameSize<T>(a: set<T>, b: set<T>)
    requires a <= b && |a| == |b|
    ensures a == b
  {
    if a != b {
      var x :| x in b && x !in a;
      Fewer(a, b - {x});
    }
  }

  function IdsOf(page: seq<string>): set<string> {
    set i | 0 <= i < |page| :: page[i]
  }

  lemma {:induction false} DistinctCount(page: seq<string>)
    requires forall i, j :: 0 <= i < j < |page| ==> page[i] != page[j]
    ensures |IdsOf(page)| == |page|
    decreases |page|
  {
    if page != [] {
      var n := |page| - 1;
      DistinctCount(page[..n]);
      assert IdsOf(page) == IdsOf(page[..n]) + {page[n]};
    }
  }

  /** A scan counts a state's rows exactly when there are no more than it may return. */
  lemma PageCounts(jobs: Jobs, state: JobState, limit: nat, page: seq<string>)
    requires IsPage(jobs, state, limit, page)
    ensures |page| == if |InState(jobs, state)| <= limit then |InState(jobs, state)| else limit
  {
    DistinctCount(page);
    assert IdsOf(page) <= InState(jobs, state);
    Fewer(IdsOf(page), InState(jobs, state));
    if |page| < limit {
      assert IdsOf(page) == InState(jobs, state);
    }
  }

  lemma PageIsAll(jobs: Jobs, state: JobState, limit: nat, page: seq<string>)
    requires IsPage(jobs, state, limit, page) && |InState(jobs, state)| <= limit
    ensures IdsOf(page) == InState(jobs, state)
  {
    PageCounts(jobs, state, limit, page);
    DistinctCount(page);
    assert IdsOf(page) <= InState(jobs, state);
    SameSize(IdsOf(page), InState(jobs, state));
  }

  /** A row that one scan leaves out exists exactly when there are more rows than it may return. */
  lemma PageMissesSome(jobs: Jobs, state: JobState, limit: nat, page: seq<string>)
    requires IsPage(jobs, state, limit, page)
    ensures (exists id :: id in InState(jobs, state) && id !in page) <==> |InState(jobs, state)| > limit
  {
    if |InState(jobs, state)| <= limit {
      PageIsAll(jobs, state, limit, page);
      assert forall id :: id in IdsOf(page) ==> id in page;
    } else {
      PageCounts(jobs, state, limit, page);
      DistinctCount(page);
      if forall id :: id in InState(jobs, state) ==> id in page {
        assert InState(jobs, state) <= IdsOf(page);
        Fewer(InState(jobs, state), IdsOf(page));
      }
    }
  }
}
