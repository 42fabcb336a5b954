/** The incremental commit loop against the rule it implements: commit the highest entry of the current
    term that a majority holds. */
module CommitRule {
  import opened RaftServer

  /** The peers from j on, other than me, whose matchIndex is above iter. */
  function Matching(matchIndex: seq<nat>, me: nat, iter: nat, j: nat): (q: set<nat>)
    ensures forall v: nat :: v in q <==> j <= v < |matchIndex| && v != me && matchIndex[v] > iter
    ensures |q| == CountFrom(matchIndex, me, iter, j)
    decreases |matchIndex| - j
  {
    if j >= |matchIndex| then {}
    else
      var rest := Matching(matchIndex, me, iter, j + 1);
      if j != me && matchIndex[j] > iter then rest + {j} else rest
  }

  /** Figure 2 of the Raft paper: N exceeds the commit index, entry N is of the current term, and a
      majority of the servers, the leader among them, is known to hold it. */
  ghost predicate Committable(s: Server, me: nat, N: nat) {
    && s.commitIndex < N <= |s.logs| && s.logs[N - 1].term == s.currentTerm
    && 2 * |Matching(s.matchIndex, me, N - 1, 0) + {me}| > |s.matchIndex|
  }

  ghost predicate TermsSorted(s: Server) {
    && (forall i, j :: 0 <= i <= j < |s.logs| ==> s.logs[i].term <= s.logs[j].term)
    && (forall i :: 0 <= i < |s.logs| ==> s.logs[i].term <= s.currentTerm)
  }

  lemma {:induction false} CountAntitone(matchIndex: seq<nat>, me: nat, i: nat, k: nat, j: nat)
    requires i <= k
    ensures CountFrom(matchIndex, me, i, j) >= CountFrom(matchIndex, me, k, j)
    decreases |matchIndex| - j
  {
    if j < |matchIndex| {
      CountAntitone(matchIndex, me, i, k, j + 1);
    }
  }

  lemma MajorityMeans(matchIndex: seq<nat>, me: nat, iter: nat)
    ensures Majority(matchIndex, me, iter) <==> 2 * |Matching(matchIndex, me, iter, 0) + {me}| > |matchIndex|
  {
  }

  ghost predicate Nothing(s: Server, me: nat, iter: nat) {
    forall N: nat :: iter < N ==> !Committable(s, me, N)
  }

  ghost predicate Best(s: Server, me: nat, iter: nat, k: nat) {
    && iter < k && Committable(s, me, k)
    && forall N: nat :: iter < N && Committable(s, me, N) ==> N <= k
  }

  /** Entry iter + 1, if its term is current, is committable exactly if its majority test succeeds. */
  lemma TestAt(s: Server, me: nat, iter: nat)
    requires TermsSorted(s) && s.commitIndex <= iter < |s.logs|
    ensures Committable(s, me, iter + 1) <==> s.logs[iter].term >= s.currentTerm && Majority(s.matchIndex, me, iter)
  {
    MajorityMeans(s.matchIndex, me, iter);
  }

  /** Once a test fails no later one succeeds, so the loop may stop. */
  lemma Blocked(s: Server, me: nat, iter: nat)
    requires TermsSorted(s) && s.commitIndex <= iter < |s.logs| && !Majority(s.matchIndex, me, iter)
    ensures Nothing(s, me, iter)
  {
    forall N: nat | iter < N <= |s.logs|
      ensures !Committable(s, me, N)
    {
      CountAntitone(s.matchIndex, me, iter, N - 1, 0);
      TestAt(s, me, N - 1);
    }
  }

  lemma {:induction false} ScanIsBest(s: Server, me: nat, iter: nat, ci: nat)
    requires TermsSorted(s) && s.commitIndex <= iter && ci <= iter
    ensures
      var k := CommitScan(s, me, iter, ci);
      (k == ci && Nothing(s, me, iter)) || Best(s, me, iter, k)
    decreases |s.logs| - iter
  {
    if iter >= |s.logs| {
      assert Nothing(s, me, iter);
    } else {
      hide Committable, TermsSorted, Majority;
      TestAt(s, me, iter);
      if s.logs[iter].term < s.currentTerm {
        ScanIsBest(s, me, iter + 1, ci);
      } else if Majority(s.matchIndex, me, iter) {
        ScanIsBest(s, me, iter + 1, iter + 1);
      } else {
        Blocked(s, me, iter);
      }
    }
  }

  /** The loop sets the commit index to the largest committable N, and leaves it if there is none. */
  lemma CommitLoopIsFigure2(s: Server, me: nat)
    requires TermsSorted(s)
    ensures
      var k := CommitScan(s, me, s.commitIndex, s.commitIndex);
      && (k != s.commitIndex <==> exists N: nat :: Committable(s, me, N))
      && (k != s.commitIndex ==> Committable(s, me, k))
      && forall N: nat :: Committable(s, me, N) ==> N <= k
  {
    ScanIsBest(s, me, s.commitIndex, s.commitIndex);
    CommitScanRange(s, me, s.commitIndex, s.commitIndex);
  }

  /** Where the loop stops, the last entry it passed is of the current term and on a majority. */
  lemma {:induction false} CommitScanMeets(s: Server, me: nat, iter: nat, ci: nat)
    requires ci <= iter
    ensures
      var k := CommitScan(s, me, iter, ci);
      k == ci || (iter < k <= |s.logs| && s.logs[k - 1].term >= s.currentTerm && Majority(s.matchIndex, me, k - 1))
    decreases |s.logs| - iter
  {
    if iter < |s.logs| {
      if s.logs[iter].term < s.currentTerm {
        CommitScanMeets(s, me, iter + 1, ci);
      } else if Majority(s.matchIndex, me, iter) {
        CommitScanMeets(s, me, iter + 1, iter + 1);
      }
    }
  }
}
