/** The global manager's commit queue: a queue of servers and a set that mirrors it. */
module CommitQueue {
  import opened Basics

  ghost predicate NoDuplicates<T>(queue: seq<T>) {
    forall i, j :: 0 <= i < j < |queue| ==> queue[i] != queue[j]
  }

  function Without<T(==)>(queue: seq<T>, x: T): seq<T> {
    if queue == [] then [] else (if queue[0] == x then [] else [queue[0]]) + Without(queue[1..], x)
  }

  lemma {:induction false} WithoutAbsent<T>(queue: seq<T>, x: T)
    requires x !in queue
    ensures Without(queue, x) == queue
  {
    if queue == [] {
    } else {
      WithoutAbsent(queue[1..], x);
    }
  }

  /** Removing the only occurrence. */
  lemma {:induction false} WithoutAt<T>(queue: seq<T>, i: nat)
    requires NoDuplicates(queue) && i < |queue|
    ensures Without(queue, queue[i]) == queue[..i] + queue[i + 1..]
    decreases |queue|
  {
    if i == 0 {
      WithoutAbsent(queue[1..], queue[0]);
    } else {
      WithoutAt(queue[1..], i - 1);
      assert queue[..i] + queue[i + 1..] == [queue[0]] + (queue[1..][..i - 1] + queue[1..][i..]);
    }
  }

  class GlobalQueue<T(==, !new)> {
    var queue: seq<T>
    var members: set<T>

    /** No server waits twice, and the set names exactly those that wait. */
    ghost predicate Valid()
      reads this
    {
      NoDuplicates(queue) && forall x :: x in members <==> x in queue
    }

    constructor ()
      ensures Valid() && queue == []
    {
      queue := [];
      members := {};
    }

    /** A server that already waits is not queued again. */
    method Request(server: T)
      requires Valid()
      modifies this
      ensures Valid() && queue == if server in old(queue) then old(queue) else old(queue) + [server]
    {
      if server in members { return; }
      queue := queue + [server];
      members := members + {server};
    }

    /** First come, first served; the server may be queued again while it is being worked on. */
    method Pop() returns (target: Option<T>)
      requires Valid()
      modifies this
      ensures Valid()
      ensures target == if old(queue) == [] then None else Some(old(queue)[0])
      ensures queue == if old(queue) == [] then [] else old(queue)[1..]
    {
      if queue == [] { return None; }
      target := Some(queue[0]);
      members := members - {queue[0]};
      queue := queue[1..];
    }

    /** Drops the first occurrence, which is the only one; the others keep their order. */
    method Close(server: T)
      requires Valid()
      modifies this
      ensures Valid() && server !in queue
      ensures queue == Without(old(queue), server)
    {
      var i := 0;
      while i < |queue|
        invariant 0 <= i <= |queue| && queue == old(queue) && members == old(members)
        invariant server !in queue[..i]
      {
        if queue[i] == server {
          WithoutAt(queue, i);
          members := members - {server};
          queue := queue[..i] + queue[i + 1..];
          return;
        }
        i := i + 1;
      }
      WithoutAbsent(queue, server);
    }
  }
}
