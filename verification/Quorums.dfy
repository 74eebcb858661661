/** Member sets and when two of them must share a member. */
module Quorums {
  /** The ids of a cluster of size n. */
  function Ids(n: nat): (ids: set<nat>)
    ensures forall i: nat :: i in ids <==> i < n
    ensures |ids| == n
  {
    if n == 0 then {} else Ids(n - 1) + {n - 1}
  }

  ghost predicate Majority<T>(some: set<T>, all: set<T>) {
    some <= all && 2 * |some| > |all|
  }

  lemma {:induction false} SubsetSize<T>(a: set<T>, b: set<T>)
    requires a <= b
    ensures |a| <= |b|
  {
    if a != {} {
      var x :| x in a;
      SubsetSize(a - {x}, b - {x});
    }
  }

  /** Two sets of members that together outnumber the members have one in common. */
  lemma SetsMeet<T>(a: set<T>, b: set<T>, all: set<T>) returns (v: T)
    requires a <= all && b <= all && |a| + |b| > |all|
    ensures v in a && v in b
  {
    if a * b == {} {
      assert |a + b| == |a| + |b|;
      SubsetSize(a + b, all);
    }
    v :| v in a * b;
  }

  // ----- quorum sizes, excluding the leader

  function ElectionQuorum(voting: nat, custom: int): nat {
    if custom <= 0 || custom > voting then voting / 2 else custom - 1
  }

  /** Peers receiving a snapshot may be left out of the count, which never goes below 0. */
  function CommitQuorum(voting: nat, custom: int, excludedReceivers: nat): nat {
    var counted := if excludedReceivers < voting then voting - excludedReceivers else 0;
    if custom <= 0 || custom > counted then counted / 2 else custom - 1
  }

  /** With full consensus on, all members that respond must agree. */
  function FullConsensus(voting: nat, quorum: nat, notResponding: nat): nat {
    if quorum + notResponding < voting then voting - notResponding - 1 else quorum
  }

  /** The index into the sorted array is always in range, for every quorum setting. */
  lemma QuorumInRange(voting: nat, custom: int, excluded: nat, notResponding: nat)
    requires voting >= 1
    ensures var q := CommitQuorum(voting, custom, excluded);
            q <= FullConsensus(voting, q, notResponding) < voting
  {
  }

  /** Every commit quorum meets every election quorum exactly if their sizes add up to more than the members. */
  lemma QuorumsMeetIff(voting: nat, commit: nat, election: nat)
    requires commit < voting && election < voting
    ensures commit + election + 2 > voting <==>
      (forall a: set<nat>, b: set<nat> ::
         a <= Ids(voting) && b <= Ids(voting) && |a| == commit + 1 && |b| == election + 1 ==> a * b != {})
  {
    if commit + election + 2 > voting {
      forall a: set<nat>, b: set<nat> |
        a <= Ids(voting) && b <= Ids(voting) && |a| == commit + 1 && |b| == election + 1
        ensures a * b != {}
      {
        var v := SetsMeet(a, b, Ids(voting));
      }
    } else {
      var a, b := Ids(commit + 1), Ids(commit + 1 + election + 1) - Ids(commit + 1);
      assert Ids(commit + 1) <= Ids(commit + 1 + election + 1);
      assert |b| == election + 1;
      assert a * b == {};
    }
  }

  /** A custom size within the members is the number of votes needed; otherwise a bare majority is. */
  lemma VotesNeeded(voting: nat, custom: int)
    requires voting >= 1
    ensures var need := ElectionQuorum(voting, custom) + 1;
            if 1 <= custom <= voting then need == custom else 2 * need > voting && 2 * (need - 1) <= voting
  {
  }

  /** With the default sizes they always meet. */
  lemma DefaultQuorumsMeet(voting: nat)
    requires voting >= 1
    ensures CommitQuorum(voting, 0, 0) + ElectionQuorum(voting, 0) + 2 > voting
  {
  }
}
