/** The bounded issue collector: it counts every issue but keeps only some details. */
module IssueCollection {
  import opened Results
  import opened Tables

  datatype Identity = Identity(row: Option<nat>, column: Column, code: IssueCode)

  function IdentityOf(i: Issue): Identity {
    Identity(i.row, i.column, i.code)
  }

  function Identities(issues: seq<Issue>): set<Identity> {
    set i | i in issues :: IdentityOf(i)
  }

  /** One stored row is reserved for the summary, unless only one may be stored at all. */
  function DetailLimit(maximum: nat): nat {
    if maximum > 1 then maximum - 1 else maximum
  }

  function LastPhase(all: seq<Issue>): IssuePhase {
    if all == [] then ContractPhase else all[|all| - 1].phase
  }

  function Summary(phase: IssuePhase): Issue {
    Issue(None, WholeFile, IssueLimitReached, phase)
  }

  function Details(all: seq<Issue>, maximum: nat): seq<Issue> {
    if |all| <= DetailLimit(maximum) then all else all[..DetailLimit(maximum)]
  }

  /** What is stored for a run that counts the issues `all`: the first details, and a summary if any was dropped. */
  function Stored(all: seq<Issue>, maximum: nat): seq<Issue> {
    if |all| <= DetailLimit(maximum) then all else all[..DetailLimit(maximum)] + [Summary(LastPhase(all))]
  }

  /** What is stored when the collector was last drained after `mark` counted issues. */
  function Release(maximum: nat, counted: seq<Issue>, mark: nat): seq<Issue>
    requires mark <= |counted|
  {
    if |counted| <= DetailLimit(maximum) then counted
    else if maximum == 1 then Details(counted[..mark], maximum) + [Summary(LastPhase(counted))]
    else Stored(counted, maximum)
  }

  /** Counting one more issue: it is ignored if its identity was counted since `mark`. */
  function Counted(counted: seq<Issue>, mark: nat, issue: Issue): seq<Issue>
    requires mark <= |counted|
  {
    counted + if IdentityOf(issue) in Identities(counted[mark..]) then [] else [issue]
  }

  class IssueCollector {
    const maximum: nat
    var total: nat
    var issues: seq<Issue>
    var pendingIdentities: set<Identity>
    var detailCount: nat
    var lastPhase: IssuePhase
    var truncated: bool
    ghost var counted: seq<Issue> // every issue counted so far
    ghost var drained: seq<Issue> // every detail already handed to the caller
    ghost var mark: nat // how many issues were counted at the last drain

    ghost predicate Valid()
      reads this
    {
      && total == |counted| && mark <= |counted|
      && drained + issues == Details(counted, maximum)
      && drained == Details(counted[..mark], maximum)
      && detailCount == |drained| + |issues|
      && (truncated <==> |counted| > DetailLimit(maximum))
      && lastPhase == LastPhase(counted)
      && pendingIdentities == Identities(counted[mark..])
    }

    lemma TotalIsCounted()
      requires Valid()
      ensures total == |counted| && mark <= |counted|
    {
    }

    lemma NothingDrained()
      requires Valid() && counted == []
      ensures drained == []
    {
    }

    constructor (maximum: nat)
      ensures Valid() && this.maximum == maximum && counted == [] && drained == [] && mark == 0
    {
      this.maximum := maximum;
      total, issues, pendingIdentities, detailCount := 0, [], {}, 0;
      lastPhase, truncated := ContractPhase, false;
      counted, drained, mark := [], [], 0;
    }

    /** Counts the issue unless its identity was already counted since the last drain. */
    method Add(issue: Issue)
      requires Valid()
      modifies this
      ensures Valid() && drained == old(drained) && mark == old(mark)
      ensures counted == Counted(old(counted), mark, issue)
    {
      hide Identities, Details;
      if IdentityOf(issue) in pendingIdentities {
        return;
      }
      AppendCounted(counted, mark, issue, maximum);
      assert drained + (issues + [issue]) == (drained + issues) + [issue];
      pendingIdentities := pendingIdentities + {IdentityOf(issue)};
      total := total + 1;
      lastPhase := issue.phase;
      var reserveForSummary := if maximum > 1 then 1 else 0;
      var detailLimit := maximum - reserveForSummary;
      if detailCount < detailLimit {
        issues := issues + [issue];
        detailCount := detailCount + 1;
      } else {
        truncated := true;
      }
      counted := counted + [issue];
    }

    /** Hands out the retained details and forgets their identities. */
    method Drain() returns (out: seq<Issue>)
      requires Valid()
      modifies this
      ensures Valid() && counted == old(counted) && mark == |counted|
      ensures drained == old(drained) + out && drained == Details(counted, maximum)
    {
      out := issues;
      issues := [];
      pendingIdentities := {};
      drained := drained + out;
      mark := |counted|;
      assert counted[mark..] == [];
    }

    /** The last release. With one stored issue allowed it replaces any undrained detail by the summary. */
    method Persisted() returns (out: seq<Issue>)
      requires Valid() && maximum >= 1
      modifies this
      ensures Valid() && counted == old(counted)
      ensures old(drained) + out == Release(maximum, counted, old(mark))
    {
      out := Drain();
      if truncated {
        if maximum == 1 {
          return [Summary(lastPhase)];
        }
        out := out + [Summary(lastPhase)];
      }
    }
  }

  lemma AppendCounted(counted: seq<Issue>, mark: nat, issue: Issue, maximum: nat)
    requires mark <= |counted|
    ensures Identities((counted + [issue])[mark..]) == Identities(counted[mark..]) + {IdentityOf(issue)}
    ensures (counted + [issue])[..mark] == counted[..mark]
    ensures Details(counted + [issue], maximum)
            == Details(counted, maximum) + if |counted| < DetailLimit(maximum) then [issue] else []
    ensures |Details(counted, maximum)| < DetailLimit(maximum) <==> |counted| < DetailLimit(maximum)
  {
    assert (counted + [issue])[mark..] == counted[mark..] + [issue];
  }

  /** With room for a summary, where the collector was drained does not matter. */
  lemma ReleaseIsStored(maximum: nat, counted: seq<Issue>, mark: nat)
    requires maximum >= 2 && mark <= |counted|
    ensures Release(maximum, counted, mark) == Stored(counted, maximum)
  {
  }

  /** The storage bound, and a summary exactly when something was dropped. */
  lemma StoredShape(all: seq<Issue>, maximum: nat)
    requires maximum >= 2 && forall i | i in all :: i.code != IssueLimitReached
    ensures |Stored(all, maximum)| <= maximum
    ensures Details(all, maximum) <= all && Details(all, maximum) <= Stored(all, maximum)
    ensures (exists i | i in Stored(all, maximum) :: i.code == IssueLimitReached) <==> Details(all, maximum) != all
    ensures Stored(all, maximum)
            == if |all| <= maximum - 1 then all
               else all[..maximum - 1] + [Issue(None, WholeFile, IssueLimitReached, all[|all| - 1].phase)]
  {
    if Details(all, maximum) != all {
      assert Stored(all, maximum)[maximum - 1] == Summary(LastPhase(all));
    } else {
      assert Stored(all, maximum) == all;
    }
  }

  lemma StoredUnique(all: seq<Issue>, maximum: nat)
    requires IssuesUnique(all) && forall i | i in all :: i.code != IssueLimitReached
    ensures IssuesUnique(Stored(all, maximum))
  {
    forall i, j | 0 <= i < j < |Stored(all, maximum)|
      ensures !SameIdentity(Stored(all, maximum)[i], Stored(all, maximum)[j])
    {
      assert Stored(all, maximum)[i] == all[i];
      assert all[i] in all;
    }
  }

  // ----- The limit of one -----

  /** Storage stays within the limit for all inputs and all drain points exactly when the limit is at least two. */
  lemma LimitNeedsTwo(maximum: nat)
    requires maximum >= 1
    ensures (forall counted: seq<Issue>, mark: nat | mark <= |counted| :: |Release(maximum, counted, mark)| <= maximum)
            <==> maximum >= 2
  {
    if maximum == 1 {
      var counted := TwoIssues();
      assert counted[..1] == [counted[0]];
      assert |Release(1, counted, 1)| == 2;
    }
  }

  /** With a limit of one the stored issues also depend on where the batches end. */
  lemma OneDependsOnBatches()
    ensures Release(1, TwoIssues(), 0) != Release(1, TwoIssues(), 1)
  {
    var counted := TwoIssues();
    assert counted[..1] == [counted[0]] && counted[..0] == [];
    assert |Release(1, counted, 1)| == 2 && |Release(1, counted, 0)| == 1;
  }

  function TwoIssues(): seq<Issue> {
    var a := Issue(Some(2), QuantityColumn, QuantityZero, ContractPhase);
    [a, a.(row := Some(3))]
  }
}
