/** The commit rule: which index a leader may consider replicated on enough members. */
module CommitIndex {
  import opened Quorums

  // ----- sorting, as std::sort with std::greater

  ghost predicate Descending(s: seq<nat>) {
    forall i, j :: 0 <= i < j < |s| ==> s[i] >= s[j]
  }

  /** Number of leading elements greater than x. */
  function Place(x: nat, s: seq<nat>): (i: nat)
    ensures i <= |s|
    ensures forall j :: 0 <= j < i ==> s[j] > x
    ensures i < |s| ==> s[i] <= x
  {
    if s == [] || s[0] <= x then 0 else 1 + Place(x, s[1..])
  }

  function InsertAt(x: nat, s: seq<nat>, i: nat): (r: seq<nat>)
    requires i <= |s|
    ensures |r| == |s| + 1
  {
    s[..i] + [x] + s[i..]
  }

  /** Inserting before the first element that is not greater keeps the order. */
  lemma InsertDescending(x: nat, s: seq<nat>)
    requires Descending(s)
    ensures Descending(InsertAt(x, s, Place(x, s)))
  {
    hide Place;
    var (r, k) := (InsertAt(x, s, Place(x, s)), Place(x, s));
    assert forall j :: 0 <= j < k ==> r[j] == s[j];
    assert forall j :: k < j < |r| ==> r[j] == s[j - 1] <= x;
  }

  function SortDescending(s: seq<nat>): (r: seq<nat>)
    ensures |r| == |s| && Descending(r)
  {
    if s == [] then []
    else
      var rest := SortDescending(s[1..]);
      InsertDescending(s[0], rest);
      InsertAt(s[0], rest, Place(s[0], rest))
  }

  lemma {:induction false} SortPermutes(s: seq<nat>)
    ensures multiset(SortDescending(s)) == multiset(s)
  {
    if s == [] {
    } else {
      var rest := SortDescending(s[1..]);
      SortPermutes(s[1..]);
      InsertCounts(s[0], rest, Place(s[0], rest));
      assert s == [s[0]] + s[1..];
    }
  }

  lemma InsertCounts(x: nat, s: seq<nat>, i: nat)
    requires i <= |s|
    ensures multiset(InsertAt(x, s, i)) == multiset(s) + multiset{x}
  {
    assert s == s[..i] + s[i..];
  }

  // ----- how many members have reached an index

  function CountAtLeast(s: seq<nat>, x: nat): nat {
    if s == [] then 0 else (if s[0] >= x then 1 else 0) + CountAtLeast(s[1..], x)
  }

  lemma {:induction false} CountConcat(a: seq<nat>, b: seq<nat>, x: nat)
    ensures CountAtLeast(a + b, x) == CountAtLeast(a, x) + CountAtLeast(b, x)
  {
    if a == [] {
      assert a + b == b;
    } else {
      assert (a + b)[1..] == a[1..] + b;
      CountConcat(a[1..], b, x);
    }
  }

  lemma CountInsert(x: nat, s: seq<nat>, i: nat, y: nat)
    requires i <= |s|
    ensures CountAtLeast(InsertAt(x, s, i), y) == CountAtLeast(s, y) + (if x >= y then 1 else 0)
  {
    CountConcat(s[..i], s[i..], y);
    CountConcat(s[..i] + [x], s[i..], y);
    CountConcat(s[..i], [x], y);
    assert s == s[..i] + s[i..];
  }

  /** Sorting does not change how many members have reached an index. */
  lemma {:induction false} CountAfterSort(s: seq<nat>, y: nat)
    ensures CountAtLeast(SortDescending(s), y) == CountAtLeast(s, y)
  {
    if s == [] {
    } else {
      var rest := SortDescending(s[1..]);
      CountAfterSort(s[1..], y);
      CountInsert(s[0], rest, Place(s[0], rest), y);
    }
  }

  lemma {:induction false} CountSorted(s: seq<nat>, q: nat, x: nat)
    requires Descending(s) && q < |s|
    ensures CountAtLeast(s, x) > q <==> x <= s[q]
  {
    if q == 0 {
      if s[0] < x { NoneAtLeast(s, x); }
    } else {
      CountSorted(s[1..], q - 1, x);
      if s[0] < x { NoneAtLeast(s, x); }
    }
  }

  lemma {:induction false} NoneAtLeast(s: seq<nat>, x: nat)
    requires forall i :: 0 <= i < |s| ==> s[i] < x
    ensures CountAtLeast(s, x) == 0
  {
    if s == [] {
    } else {
      NoneAtLeast(s[1..], x);
    }
  }

  // ----- the chosen index

  /** `idx` is the largest index that at least quorum + 1 members have reached. */
  ghost predicate IsCommitPoint(matched: seq<nat>, quorum: nat, idx: nat) {
    forall x: nat :: CountAtLeast(matched, x) > quorum <==> x <= idx
  }

  lemma SortedPick(matched: seq<nat>, quorum: nat)
    requires quorum < |matched|
    ensures |SortDescending(matched)| == |matched|
    ensures IsCommitPoint(matched, quorum, SortDescending(matched)[quorum])
  {
    var sorted := SortDescending(matched);
    forall x: nat ensures CountAtLeast(matched, x) > quorum <==> x <= sorted[quorum] {
      CountAfterSort(matched, x);
      CountSorted(sorted, quorum, x);
    }
  }

  lemma {:induction false} CountMonotone(a: seq<nat>, b: seq<nat>, x: nat)
    requires |a| == |b| && forall i :: 0 <= i < |a| ==> a[i] <= b[i]
    ensures CountAtLeast(a, x) <= CountAtLeast(b, x)
  {
    if a == [] {
    } else {
      CountMonotone(a[1..], b[1..], x);
    }
  }

  /** More replication never lowers the commit point. */
  lemma CommitPointMonotone(a: seq<nat>, b: seq<nat>, quorum: nat, x: nat, y: nat)
    requires |a| == |b| && forall i :: 0 <= i < |a| ==> a[i] <= b[i]
    requires IsCommitPoint(a, quorum, x) && IsCommitPoint(b, quorum, y)
    ensures x <= y
  {
    CountMonotone(a, b, x);
  }

  /** Full consensus never raises it. */
  lemma FullConsensusLowers(matched: seq<nat>, notResponding: nat, quorum: nat, x: nat, y: nat)
    requires IsCommitPoint(matched, quorum, x)
    requires IsCommitPoint(matched, FullConsensus(|matched|, quorum, notResponding), y)
    ensures y <= x
  {
    assert CountAtLeast(matched, y) > FullConsensus(|matched|, quorum, notResponding) >= quorum;
  }

  // ----- collecting the members

  /** What the leader knows about a peer when it computes the commit index. */
  datatype PeerView = PeerView(matched: nat, regular: bool, responding: bool, receivingSnapshot: bool)

  datatype Params = Params(customCommitQuorum: int, excludeSnpReceivers: bool, fullConsensus: bool)

  function Regular(peers: seq<PeerView>): seq<nat> {
    if peers == [] then []
    else (if peers[0].regular then [peers[0].matched] else []) + Regular(peers[1..])
  }

  function SilentPeers(peers: seq<PeerView>): nat {
    if peers == [] then 0
    else (if peers[0].regular && !peers[0].responding then 1 else 0) + SilentPeers(peers[1..])
  }

  function Receivers(peers: seq<PeerView>): nat {
    if peers == [] then 0 else (if peers[0].receivingSnapshot then 1 else 0) + Receivers(peers[1..])
  }

  /** The position in the sorted array that the settings select. */
  function QuorumIndex(peers: seq<PeerView>, params: Params): nat {
    var voting := |Regular(peers)| + 1;
    var excluded := if params.excludeSnpReceivers then Receivers(peers) else 0;
    var quorum := CommitQuorum(voting, params.customCommitQuorum, excluded);
    if params.fullConsensus then FullConsensus(voting, quorum, SilentPeers(peers)) else quorum
  }

  method MatchedIndexes(own: nat, peers: seq<PeerView>) returns (matched: seq<nat>)
    ensures matched == [own] + Regular(peers)
  {
    matched := [own];
    for i := 0 to |peers|
      invariant matched + Regular(peers[i..]) == [own] + Regular(peers)
    {
      assert peers[i..][1..] == peers[i + 1..];
      if peers[i].regular { matched := matched + [peers[i].matched]; }
    }
  }

  method NotRespondingPeers(peers: seq<PeerView>) returns (count: nat)
    ensures count == SilentPeers(peers)
  {
    count := 0;
    for i := 0 to |peers|
      invariant count + SilentPeers(peers[i..]) == SilentPeers(peers)
    {
      assert peers[i..][1..] == peers[i + 1..];
      if peers[i].regular && !peers[i].responding { count := count + 1; }
    }
  }

  method QuorumForCommit(voting: nat, peers: seq<PeerView>, params: Params) returns (quorum: nat)
    ensures quorum == CommitQuorum(voting, params.customCommitQuorum,
                                   if params.excludeSnpReceivers then Receivers(peers) else 0)
  {
    var counted := voting;
    if params.excludeSnpReceivers {
      for i := 0 to |peers|
        invariant counted == if Receivers(peers) - Receivers(peers[i..]) < voting
                             then voting - (Receivers(peers) - Receivers(peers[i..])) else 0
        invariant Receivers(peers[i..]) <= Receivers(peers)
      {
        assert peers[i..][1..] == peers[i + 1..];
        if counted > 0 && peers[i].receivingSnapshot { counted := counted - 1; }
      }
    }
    var custom := params.customCommitQuorum;
    quorum := if custom <= 0 || custom > counted then counted / 2 else custom - 1;
  }

  /**
   The index a voting leader commits to: its own index and those of the regular members,
   sorted, at the quorum position. That position is in range for every setting.
   */
  method ExpectedCommitIndex(own: nat, peers: seq<PeerView>, params: Params) returns (idx: nat)
    ensures QuorumIndex(peers, params) <= |Regular(peers)|
    ensures IsCommitPoint([own] + Regular(peers), QuorumIndex(peers, params), idx)
  {
    hide SortDescending, IsCommitPoint, CountAtLeast, Regular;
    var matched := MatchedIndexes(own, peers);
    var voting := |matched|;
    var sorted := SortDescending(matched);
    var quorum := QuorumForCommit(voting, peers, params);
    if params.fullConsensus {
      var notResponding := NotRespondingPeers(peers);
      if notResponding < voting - quorum { quorum := voting - notResponding - 1; }
    }
    SortedPick(matched, quorum);
    idx := sorted[quorum];
  }
}
