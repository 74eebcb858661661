/**
 Which members the commit rule counts: the numbers it works with are sizes of sets of peers, and
 in full-consensus mode the index it selects is the one that as many members have reached as
 there are healthy ones.
 */
module HealthyMembers {
  import opened Quorums
  import opened CommitIndex

  // ----- numbers of peers are sizes of sets

  /** The positions from k on of the peers with a property. */
  ghost function ThoseFrom(peers: seq<PeerView>, p: PeerView -> bool, k: nat): set<nat> {
    set i: nat | k <= i < |peers| && p(peers[i])
  }

  ghost function Those(peers: seq<PeerView>, p: PeerView -> bool): set<nat> { ThoseFrom(peers, p, 0) }

  predicate IsSilent(p: PeerView) { p.regular && !p.responding }

  predicate IsHealthy(p: PeerView) { p.regular && p.responding }

  predicate IsRegular(p: PeerView) { p.regular }

  predicate IsReceiving(p: PeerView) { p.receivingSnapshot }

  /** The voting peers that have reached index x. */
  ghost function Reaching(peers: seq<PeerView>, x: nat): set<nat> {
    Those(peers, HasReached(x))
  }

  ghost function HasReached(x: nat): PeerView -> bool {
    (p: PeerView) => p.regular && p.matched >= x
  }

  lemma ThoseStep(peers: seq<PeerView>, p: PeerView -> bool, k: nat)
    requires k < |peers|
    ensures |ThoseFrom(peers, p, k)| == (if p(peers[k]) then 1 else 0) + |ThoseFrom(peers, p, k + 1)|
  {
    var rest := ThoseFrom(peers, p, k + 1);
    assert ThoseFrom(peers, p, k) == if p(peers[k]) then rest + {k} else rest;
  }

  lemma ThoseNone(peers: seq<PeerView>, p: PeerView -> bool)
    ensures ThoseFrom(peers, p, |peers|) == {}
  {
  }

  lemma {:induction false} NumbersFrom(peers: seq<PeerView>, k: nat)
    requires k <= |peers|
    ensures SilentPeers(peers[k..]) == |ThoseFrom(peers, IsSilent, k)|
    ensures Receivers(peers[k..]) == |ThoseFrom(peers, IsReceiving, k)|
    ensures |Regular(peers[k..])| == |ThoseFrom(peers, IsRegular, k)|
    ensures |Regular(peers[k..])| == |ThoseFrom(peers, IsSilent, k)| + |ThoseFrom(peers, IsHealthy, k)|
    decreases |peers| - k
  {
    hide ThoseFrom;
    if k == |peers| {
      ThoseNone(peers, IsSilent);
      ThoseNone(peers, IsReceiving);
      ThoseNone(peers, IsRegular);
      ThoseNone(peers, IsHealthy);
    } else {
      NumbersFrom(peers, k + 1);
      assert peers[k..][1..] == peers[k + 1..];
      ThoseStep(peers, IsSilent, k);
      ThoseStep(peers, IsReceiving, k);
      ThoseStep(peers, IsRegular, k);
      ThoseStep(peers, IsHealthy, k);
    }
  }

  lemma NumbersAreSizes(peers: seq<PeerView>)
    ensures SilentPeers(peers) == |Those(peers, IsSilent)|
    ensures Receivers(peers) == |Those(peers, IsReceiving)|
    ensures |Regular(peers)| == |Those(peers, IsRegular)|
    ensures |Regular(peers)| == |Those(peers, IsSilent)| + |Those(peers, IsHealthy)|
  {
    hide ThoseFrom, SilentPeers, Receivers, Regular;
    NumbersFrom(peers, 0);
    assert peers[0..] == peers;
  }

  lemma {:induction false} CountFrom(peers: seq<PeerView>, x: nat, k: nat)
    requires k <= |peers|
    ensures CountAtLeast(Regular(peers[k..]), x) == |ThoseFrom(peers, HasReached(x), k)|
    decreases |peers| - k
  {
    hide ThoseFrom;
    if k == |peers| {
      ThoseNone(peers, HasReached(x));
    } else {
      CountFrom(peers, x, k + 1);
      assert peers[k..][1..] == peers[k + 1..];
      ThoseStep(peers, HasReached(x), k);
      if peers[k].regular {
        assert Regular(peers[k..])[1..] == Regular(peers[k + 1..]);
      } else {
        assert Regular(peers[k..]) == Regular(peers[k + 1..]);
      }
    }
  }

  // ----- what the rule selects

  /** How many voting members, the leader included, have reached index x. */
  ghost function Support(own: nat, peers: seq<PeerView>, x: nat): nat {
    (if own >= x then 1 else 0) + |Reaching(peers, x)|
  }

  lemma CountIsSupport(own: nat, peers: seq<PeerView>, x: nat)
    ensures CountAtLeast([own] + Regular(peers), x) == Support(own, peers, x)
  {
    CountFrom(peers, x, 0);
    assert peers[0..] == peers;
    assert ([own] + Regular(peers))[1..] == Regular(peers);
  }

  /** `idx` is the largest index that at least `need` voting members have reached. */
  ghost predicate LargestWith(own: nat, peers: seq<PeerView>, need: nat, idx: nat) {
    forall x: nat :: Support(own, peers, x) >= need <==> x <= idx
  }

  /** The leader and the peers it hears from. */
  ghost function HealthyCount(peers: seq<PeerView>): nat {
    |Those(peers, IsHealthy)| + 1
  }

  /** The quorum of the settings without the full-consensus option. */
  ghost function PlainQuorum(peers: seq<PeerView>, params: Params): nat {
    CommitQuorum(|Those(peers, IsRegular)| + 1, params.customCommitQuorum,
                 if params.excludeSnpReceivers then |Those(peers, IsReceiving)| else 0)
  }

  /**
   The selected index is the largest that a quorum has reached; with full consensus on, as many
   members as are healthy must have reached it, if they outnumber the quorum.
   */
  lemma SelectedIndex(own: nat, peers: seq<PeerView>, params: Params, idx: nat)
    ensures IsCommitPoint([own] + Regular(peers), QuorumIndex(peers, params), idx) <==>
            LargestWith(own, peers,
                        if params.fullConsensus && HealthyCount(peers) > PlainQuorum(peers, params)
                        then HealthyCount(peers) else PlainQuorum(peers, params) + 1, idx)
  {
    hide CountAtLeast, Support, Regular, SilentPeers, Receivers, ThoseFrom, CommitQuorum;
    NumbersAreSizes(peers);
    forall x: nat ensures CountAtLeast([own] + Regular(peers), x) == Support(own, peers, x) {
      CountIsSupport(own, peers, x);
    }
  }

  /** If nobody is silent, full consensus commits nothing that a voting member lacks. */
  lemma EveryoneHasIt(own: nat, peers: seq<PeerView>, params: Params, idx: nat, i: nat)
    requires IsCommitPoint([own] + Regular(peers), QuorumIndex(peers, params), idx)
    requires params.fullConsensus && Those(peers, IsSilent) == {}
    requires i < |peers| && peers[i].regular
    ensures idx <= own && idx <= peers[i].matched
  {
    hide IsCommitPoint, QuorumIndex, CommitQuorum;
    SelectedIndex(own, peers, params, idx);
    NumbersAreSizes(peers);
    QuorumBelow(peers, params);
    assert Support(own, peers, idx) >= HealthyCount(peers);
    var (reaching, all) := (Reaching(peers, idx), Those(peers, IsRegular));
    assert reaching <= all;
    SubsetSize(reaching, all);
    if i !in reaching {
      SubsetSize(reaching, all - {i});
    }
  }

  // ----- the promise that every healthy member has it

  /** The lowest index among the leader and the peers it hears from, those before k left out. */
  ghost function SlowestFrom(own: nat, peers: seq<PeerView>, k: nat): (m: nat)
    requires k <= |peers|
    ensures m <= own && forall i :: k <= i < |peers| && IsHealthy(peers[i]) ==> m <= peers[i].matched
    ensures m == own || exists i :: k <= i < |peers| && IsHealthy(peers[i]) && peers[i].matched == m
    decreases |peers| - k
  {
    if k == |peers| then own
    else
      var rest := SlowestFrom(own, peers, k + 1);
      if IsHealthy(peers[k]) && peers[k].matched < rest then peers[k].matched else rest
  }

  ghost function Slowest(own: nat, peers: seq<PeerView>): nat { SlowestFrom(own, peers, 0) }

  ghost predicate AllHealthyHave(own: nat, peers: seq<PeerView>, idx: nat) {
    own >= idx && forall i :: 0 <= i < |peers| && IsHealthy(peers[i]) ==> peers[i].matched >= idx
  }

  ghost function SilentAbove(m: nat): PeerView -> bool {
    (p: PeerView) => IsSilent(p) && p.matched > m
  }

  ghost function HealthyAbove(m: nat): PeerView -> bool {
    (p: PeerView) => IsHealthy(p) && p.matched > m
  }

  ghost function HealthyAt(m: nat): PeerView -> bool {
    (p: PeerView) => IsHealthy(p) && p.matched <= m
  }

  /** Those ahead of m are silent or healthy, and the healthy ones are ahead of it or not. */
  lemma AheadSplits(peers: seq<PeerView>, m: nat)
    ensures |Reaching(peers, m + 1)| == |Those(peers, SilentAbove(m))| + |Those(peers, HealthyAbove(m))|
    ensures |Those(peers, IsHealthy)| == |Those(peers, HealthyAbove(m))| + |Those(peers, HealthyAt(m))|
  {
    assert Reaching(peers, m + 1) == Those(peers, SilentAbove(m)) + Those(peers, HealthyAbove(m));
    assert Those(peers, IsHealthy) == Those(peers, HealthyAbove(m)) + Those(peers, HealthyAt(m));
  }

  /**
   With full consensus and a quorum of healthy members, all of them have the selected index if and
   only if fewer silent members are ahead of the slowest healthy one than healthy ones are as slow.
   */
  lemma HealthyHaveItIff(own: nat, peers: seq<PeerView>, params: Params, idx: nat)
    requires IsCommitPoint([own] + Regular(peers), QuorumIndex(peers, params), idx)
    requires params.fullConsensus && HealthyCount(peers) > PlainQuorum(peers, params)
    ensures var m := Slowest(own, peers);
            AllHealthyHave(own, peers, idx) <==>
            |Those(peers, SilentAbove(m))| < |Those(peers, HealthyAt(m))| + (if own <= m then 1 else 0)
  {
    hide IsCommitPoint, QuorumIndex, CommitQuorum, ThoseFrom, Regular;
    var m := Slowest(own, peers);
    SelectedIndex(own, peers, params, idx);
    AheadSplits(peers, m);
    assert Support(own, peers, m + 1) >= HealthyCount(peers) <==> m + 1 <= idx;
  }

  /** The promise fails: the leader and a silent peer carry an index that a healthy peer does not have. */
  lemma HealthyMayLackIt(low: nat, high: nat)
    requires low < high
    ensures var peers := [PeerView(low, true, true, false), PeerView(high, true, false, false)];
            && IsCommitPoint([high] + Regular(peers), QuorumIndex(peers, Params(0, false, true)), high)
            && IsHealthy(peers[0]) && peers[0].matched < high
  {
    var peers := [PeerView(low, true, true, false), PeerView(high, true, false, false)];
    assert peers[1..] == [peers[1]] && peers[1..][1..] == [];
    assert Regular([]) == [] && SilentPeers([]) == 0;
    assert Regular(peers[1..]) == [high] && SilentPeers(peers[1..]) == 1;
    assert Regular(peers) == [low, high] && SilentPeers(peers) == 1;
    var all := [high] + Regular(peers);
    forall x: nat ensures CountAtLeast(all, x) > 1 <==> x <= high {
      assert all[1..] == [low, high] && [low, high][1..] == [high] && [high][1..] == [];
      assert CountAtLeast([high], x) == (if high >= x then 1 else 0) + CountAtLeast([], x);
      assert CountAtLeast([low, high], x) == (if low >= x then 1 else 0) + CountAtLeast([high], x);
    }
  }

  lemma QuorumBelow(peers: seq<PeerView>, params: Params)
    ensures PlainQuorum(peers, params) <= |Those(peers, IsRegular)|
  {
  }

  /** Members that count towards the quorum when snapshot receivers are left out. */
  ghost function Counted(peers: seq<PeerView>, params: Params): nat {
    var voting := |Those(peers, IsRegular)| + 1;
    var excluded := if params.excludeSnpReceivers then |Those(peers, IsReceiving)| else 0;
    if excluded < voting then voting - excluded else 0
  }

  /** A custom size that fits is the number of members needed; otherwise it is a bare majority of those counted. */
  lemma PlainNeed(peers: seq<PeerView>, params: Params)
    ensures var (counted, need) := (Counted(peers, params), PlainQuorum(peers, params) + 1);
            if 1 <= params.customCommitQuorum <= counted then need == params.customCommitQuorum
            else 2 * (need - 1) <= counted < 2 * need
  {
  }
}
