/** How the next cluster config is built when one server joins or leaves. */
module ConfigChange {
  import opened Basics
  import opened Codec
  import opened Quorums

  function Members(servers: seq<SrvConfig>): set<int> {
    set i | 0 <= i < |servers| :: servers[i].id
  }

  /** The members whose votes count. */
  function Voters(servers: seq<SrvConfig>): set<int> {
    set i | 0 <= i < |servers| && !servers[i].learner :: servers[i].id
  }

  ghost predicate Distinct(servers: seq<SrvConfig>) {
    forall i, j :: 0 <= i < j < |servers| ==> servers[i].id != servers[j].id
  }

  /** The uncommitted config, if there is one, is what the next one builds on. */
  function Base(current: ClusterConfig, uncommitted: Option<ClusterConfig>): ClusterConfig {
    if uncommitted.Some? then uncommitted.value else current
  }

  function Successor(base: ClusterConfig, next: uint64, servers: seq<SrvConfig>): ClusterConfig {
    ClusterConfig(next, base.logIdx, base.async, base.userCtx, servers)
  }

  function Remaining(servers: seq<SrvConfig>, id: int32): seq<SrvConfig> {
    if servers == [] then []
    else (if servers[0].id != id then [servers[0]] else []) + Remaining(servers[1..], id)
  }

  datatype Change = Join(server: SrvConfig) | Leave(id: int32)

  function Applied(servers: seq<SrvConfig>, change: Change): seq<SrvConfig> {
    match change
    case Join(s) => servers + [s]
    case Leave(id) => Remaining(servers, id)
  }

  /** The config that carries out a change, to be stored at index `next`. */
  function Proposal(current: ClusterConfig, uncommitted: Option<ClusterConfig>, next: uint64, change: Change)
    : ClusterConfig
  {
    var base := Base(current, uncommitted);
    Successor(base, next, Applied(base.servers, change))
  }

  method AddServer(current: ClusterConfig, uncommitted: Option<ClusterConfig>, next: uint64, s: SrvConfig)
    returns (c: ClusterConfig)
    ensures c == Proposal(current, uncommitted, next, Join(s))
  {
    var base := if uncommitted.Some? then uncommitted.value else current;
    var servers: seq<SrvConfig> := [];
    for i := 0 to |base.servers|
      invariant servers == base.servers[..i]
    {
      servers := servers + [base.servers[i]];
    }
    servers := servers + [s];
    c := ClusterConfig(next, base.logIdx, base.async, base.userCtx, servers);
  }

  lemma {:induction false} RemainingPush(servers: seq<SrvConfig>, s: SrvConfig, id: int32)
    ensures Remaining(servers + [s], id) == Remaining(servers, id) + (if s.id != id then [s] else [])
    decreases |servers|
  {
    if servers == [] {
      assert servers + [s] == [s];
      assert Remaining([s][1..], id) == [];
    } else {
      assert (servers + [s])[1..] == servers[1..] + [s];
      RemainingPush(servers[1..], s, id);
    }
  }

  method RemoveServer(current: ClusterConfig, uncommitted: Option<ClusterConfig>, next: uint64, id: int32)
    returns (c: ClusterConfig)
    ensures c == Proposal(current, uncommitted, next, Leave(id))
  {
    var base := if uncommitted.Some? then uncommitted.value else current;
    var servers: seq<SrvConfig> := [];
    for i := 0 to |base.servers|
      invariant servers == Remaining(base.servers[..i], id)
    {
      RemainingPush(base.servers[..i], base.servers[i], id);
      assert base.servers[..i + 1] == base.servers[..i] + [base.servers[i]];
      if base.servers[i].id != id { servers := servers + [base.servers[i]]; }
    }
    assert base.servers[..|base.servers|] == base.servers;
    c := ClusterConfig(next, base.logIdx, base.async, base.userCtx, servers);
  }

  // ----- exactly one member

  lemma AddedMembers(servers: seq<SrvConfig>, s: SrvConfig)
    ensures Members(servers + [s]) == Members(servers) + {s.id}
    ensures Voters(servers + [s]) == Voters(servers) + (if s.learner then {} else {s.id})
    ensures Distinct(servers + [s]) <==> Distinct(servers) && s.id !in Members(servers)
  {
    var all := servers + [s];
    forall x ensures x in Members(all) <==> x in Members(servers) + {s.id} {
      if x in Members(servers) {
        var i :| 0 <= i < |servers| && servers[i].id == x;
        assert all[i].id == x;
      }
      assert all[|servers|].id == s.id;
    }
    forall x ensures x in Voters(all) <==> x in Voters(servers) + (if s.learner then {} else {s.id}) {
      if x in Voters(servers) {
        var i :| 0 <= i < |servers| && !servers[i].learner && servers[i].id == x;
        assert all[i].id == x;
      }
      assert all[|servers|] == s;
    }
    if Distinct(all) {
      assert forall i :: 0 <= i < |servers| ==> all[i] == servers[i];
      assert forall i :: 0 <= i < |servers| ==> all[i].id != all[|servers|].id;
    }
  }

  lemma {:induction false} RemainingMembers(servers: seq<SrvConfig>, id: int32)
    ensures Members(Remaining(servers, id)) == Members(servers) - {id as int}
    ensures Voters(Remaining(servers, id)) == Voters(servers) - {id as int}
    decreases |servers|
  {
    if servers == [] {
    } else {
      RemainingMembers(servers[1..], id);
      Head(servers);
      var rest := Remaining(servers[1..], id);
      if servers[0].id != id {
        Head([servers[0]] + rest);
        assert ([servers[0]] + rest)[1..] == rest;
      } else {
        assert [] + rest == rest;
      }
    }
  }

  lemma Head(servers: seq<SrvConfig>)
    requires servers != []
    ensures Members(servers) == {servers[0].id as int} + Members(servers[1..])
    ensures Voters(servers) == (if servers[0].learner then {} else {servers[0].id as int}) + Voters(servers[1..])
  {
    forall x | x in Members(servers[1..]) ensures x in Members(servers) {
      var i :| 0 <= i < |servers| - 1 && servers[1..][i].id == x;
      assert servers[i + 1].id == x;
    }
    forall x | x in Members(servers) && x != servers[0].id ensures x in Members(servers[1..]) {
      var i :| 0 <= i < |servers| && servers[i].id == x;
      assert servers[1..][i - 1].id == x;
    }
    forall x | x in Voters(servers[1..]) ensures x in Voters(servers) {
      var i :| 0 <= i < |servers| - 1 && !servers[1..][i].learner && servers[1..][i].id == x;
      assert servers[i + 1].id == x;
    }
    forall x | x in Voters(servers) ensures x in Voters(servers[1..]) || (x == servers[0].id && !servers[0].learner) {
      var i :| 0 <= i < |servers| && !servers[i].learner && servers[i].id == x;
      if i > 0 { assert servers[1..][i - 1] == servers[i]; }
    }
  }

  /** Adding grows the member set by exactly one if and only if the id is new. */
  lemma AddDiffersByOneIff(servers: seq<SrvConfig>, s: SrvConfig)
    ensures |Members(servers + [s])| == |Members(servers)| + 1 <==> s.id !in Members(servers)
  {
    AddedMembers(servers, s);
  }

  /** Removing shrinks it by exactly one if and only if the id is a member. */
  lemma RemoveDiffersByOneIff(servers: seq<SrvConfig>, id: int32)
    ensures |Members(Remaining(servers, id))| + 1 == |Members(servers)| <==> id in Members(servers)
  {
    RemainingMembers(servers, id);
    if id !in Members(servers) { assert Members(servers) - {id as int} == Members(servers); }
  }

  // ----- overlapping majorities

  /** Majorities of two member sets that differ by at most one member have a member in common. */
  lemma MajoritiesMeet(smaller: set<int>, x: int, a: set<int>, b: set<int>) returns (v: int)
    requires Majority(a, smaller) && Majority(b, smaller + {x})
    ensures v in a && v in b
  {
    v := SetsMeet(a, b, smaller + {x});
  }

  /** Every voting majority before a server is added meets every voting majority after. */
  lemma AddKeepsOverlap(servers: seq<SrvConfig>, s: SrvConfig, a: set<int>, b: set<int>)
    requires Majority(a, Voters(servers)) && Majority(b, Voters(servers + [s]))
    ensures a * b != {}
  {
    AddedMembers(servers, s);
    var v: int;
    if s.learner {
      v := SetsMeet(a, b, Voters(servers));
    } else {
      v := MajoritiesMeet(Voters(servers), s.id, a, b);
    }
    assert v in a * b;
  }

  /** And likewise when one is removed. */
  lemma RemoveKeepsOverlap(servers: seq<SrvConfig>, id: int32, a: set<int>, b: set<int>)
    requires Majority(a, Voters(servers)) && Majority(b, Voters(Remaining(servers, id)))
    ensures a * b != {}
  {
    RemainingMembers(servers, id);
    var v: int;
    if id in Voters(servers) {
      assert Voters(servers) == Voters(Remaining(servers, id)) + {id as int};
      v := MajoritiesMeet(Voters(Remaining(servers, id)), id, b, a);
    } else {
      assert Voters(Remaining(servers, id)) == Voters(servers);
      v := SetsMeet(a, b, Voters(servers));
    }
    assert v in a * b;
  }

  // ----- changes one after another

  /** The config in force, and the latest one if that is not committed yet. */
  datatype Configs = Configs(current: ClusterConfig, pending: Option<ClusterConfig>)

  datatype Event = Proposed(next: uint64, change: Change) | Committed(conf: ClusterConfig)

  function After(c: Configs, e: Event): Configs {
    match e
    case Proposed(next, change) => c.(pending := Some(Proposal(c.current, c.pending, next, change)))
    case Committed(conf) =>
      Configs(conf, if c.pending.Some? && c.pending.value.logIdx == conf.logIdx then None else c.pending)
  }

  /** Only configs of the log are committed, in order: the latest one, or one before it. */
  predicate Fits(c: Configs, e: Event) {
    e.Committed? ==> c.pending.Some? && (e.conf.logIdx == c.pending.value.logIdx ==> e.conf == c.pending.value)
  }

  predicate AllFit(c: Configs, events: seq<Event>)
    decreases |events|
  {
    events == [] || (Fits(c, events[0]) && AllFit(After(c, events[0]), events[1..]))
  }

  function AfterAll(c: Configs, events: seq<Event>): Configs
    decreases |events|
  {
    if events == [] then c else AfterAll(After(c, events[0]), events[1..])
  }

  /** All configs from the latest one on, in the order of the log. */
  function History(c: Configs, events: seq<Event>): seq<ClusterConfig>
    decreases |events|
  {
    if events == [] then [Base(c.current, c.pending)]
    else if events[0].Committed? then History(After(c, events[0]), events[1..])
    else [Base(c.current, c.pending)] + History(After(c, events[0]), events[1..])
  }

  function Proposals(events: seq<Event>): seq<(uint64, Change)> {
    if events == [] then []
    else (if events[0].Proposed? then [(events[0].next, events[0].change)] else []) + Proposals(events[1..])
  }

  /** The config is the previous one with one change; it names the previous one's index and keeps its settings. */
  predicate Continues(c: ClusterConfig, c': ClusterConfig, p: (uint64, Change)) {
    && c'.servers == Applied(c.servers, p.1) && c'.logIdx == p.0 && c'.prevLogIdx == c.logIdx
    && c'.async == c.async && c'.userCtx == c.userCtx
  }

  /**
   Whatever is committed in between, every config continues the one before it, so that a change is
   never lost to a later one, and the last of them is the latest.
   */
  lemma {:induction false} ChangesAccumulate(c: Configs, events: seq<Event>)
    requires AllFit(c, events)
    ensures Chained(History(c, events), Proposals(events), Base(c.current, c.pending))
    ensures var (all, end) := (History(c, events), AfterAll(c, events)); all[|all| - 1] == Base(end.current, end.pending)
    decreases |events|
  {
    hide Chained, Proposal, Base;
    if events == [] {
      ChainedOne(Base(c.current, c.pending));
    } else {
      var (c1, rest) := (After(c, events[0]), events[1..]);
      ChangesAccumulate(c1, rest);
      BaseAfter(c, events[0]);
      ChainedSize(History(c1, rest), Proposals(rest), Base(c1.current, c1.pending));
      if events[0].Proposed? {
        ChainedMore(Base(c.current, c.pending), (events[0].next, events[0].change), History(c1, rest), Proposals(rest),
                    Base(c1.current, c1.pending));
      } else {
        assert Proposals(events) == [] + Proposals(rest) == Proposals(rest);
      }
    }
  }

  /** A chain of configs that begins with `first`, one for each change. */
  ghost predicate Chained(all: seq<ClusterConfig>, made: seq<(uint64, Change)>, first: ClusterConfig) {
    && |all| == |made| + 1 && all[0] == first
    && forall i :: 0 <= i < |made| ==> Continues(all[i], all[i + 1], made[i])
  }

  lemma ChainedOne(first: ClusterConfig)
    ensures Chained([first], [], first)
  {
  }

  lemma ChainedSize(all: seq<ClusterConfig>, made: seq<(uint64, Change)>, first: ClusterConfig)
    requires Chained(all, made, first)
    ensures |all| == |made| + 1
  {
  }

  lemma ChainedMore(c: ClusterConfig, p: (uint64, Change), all: seq<ClusterConfig>, made: seq<(uint64, Change)>,
                    next: ClusterConfig)
    requires Chained(all, made, next) && Continues(c, next, p)
    ensures Chained([c] + all, [p] + made, c)
  {
    hide Continues;
    forall i | 0 <= i < |made| + 1 ensures Continues(([c] + all)[i], ([c] + all)[i + 1], ([p] + made)[i]) {
      if i > 0 { assert Continues(all[i - 1], all[i], made[i - 1]); }
    }
  }

  /** A change continues the latest config; a commit leaves it the latest. */
  lemma BaseAfter(c: Configs, e: Event)
    requires Fits(c, e)
    ensures var (latest, latest') := (Base(c.current, c.pending), Base(After(c, e).current, After(c, e).pending));
            if e.Proposed? then Continues(latest, latest', (e.next, e.change)) else latest' == latest
  {
  }
}
