/** The three message-id filters against redelivery: Mochat's set and queue, Feishu's ordered dictionary,
    QQ's bounded deque. */
module DedupWindows {
  import opened Prelude

  const MOCHAT_WINDOW: nat := 2000
  const FEISHU_WINDOW: nat := 1000
  const QQ_WINDOW: nat := 1000

  /** One step of a sliding window: a known id is reported, a new one pushes the oldest out. */
  function Remember(window: seq<string>, n: nat, id: string): (seq<string>, bool) {
    if id in window then (window, true) else (LastN(window + [id], n), false)
  }

  function Elements(s: seq<string>): set<string> {
    set x | x in s
  }

  /** Evict from both structures until the window fits. */
  method TrimOldest(ids: set<string>, queue: seq<string>) returns (ids': set<string>, queue': seq<string>)
    requires ids == Elements(queue) && NoDuplicates(queue)
    ensures queue' == LastN(queue, MOCHAT_WINDOW) && ids' == Elements(queue') && NoDuplicates(queue')
  {
    ids', queue' := ids, queue;
    while |queue'| > MOCHAT_WINDOW
      invariant |queue'| <= |queue| && queue' == queue[|queue| - |queue'|..]
      invariant |queue'| == |queue| || |queue'| >= MOCHAT_WINDOW
      invariant ids' == Elements(queue') && NoDuplicates(queue')
    {
      ids', queue' := ids' - {queue'[0]}, queue'[1..];
    }
  }

  class MochatSeen {
    var seenSet: map<string, set<string>>
    var seenQueue: map<string, seq<string>>

    constructor ()
      ensures Valid() && seenQueue == map[]
    {
      seenSet, seenQueue := map[], map[];
    }

    /** Per target, the set holds exactly the queue's ids, and the queue repeats none of them. */
    ghost predicate Valid()
      reads this
    {
      && seenSet.Keys == seenQueue.Keys
      && forall k :: k in seenQueue ==>
           seenSet[k] == Elements(seenQueue[k]) && NoDuplicates(seenQueue[k]) && |seenQueue[k]| <= MOCHAT_WINDOW
    }

    function QueueOf(key: string): seq<string>
      reads this
    {
      if key in seenQueue then seenQueue[key] else []
    }

    method RememberMessageId(key: string, id: string) returns (seen: bool)
      requires Valid()
      modifies this
      ensures Valid()
      ensures (QueueOf(key), seen) == Remember(old(QueueOf(key)), MOCHAT_WINDOW, id)
      ensures forall k :: k != key ==> QueueOf(k) == old(QueueOf(k))
    {
      var ids := if key in seenSet then seenSet[key] else {};
      var queue := QueueOf(key);
      assert ids == Elements(queue) && NoDuplicates(queue);
      if id in ids {
        seenSet, seenQueue := seenSet[key := ids], seenQueue[key := queue];
        return true;
      }
      ids, queue := TrimOldest(ids + {id}, queue + [id]);
      seenSet, seenQueue := seenSet[key := ids], seenQueue[key := queue];
      return false;
    }
  }

  class FeishuSeen {
    /** The ordered dictionary's keys, oldest first. */
    var processed: seq<string>

    constructor ()
      ensures processed == []
    {
      processed := [];
    }

    method Check(id: string) returns (seen: bool)
      modifies this
      ensures (processed, seen) == Remember(old(processed), FEISHU_WINDOW, id)
    {
      if id in processed {
        return true;
      }
      ghost var full := processed + [id];
      processed := processed + [id];
      while |processed| > FEISHU_WINDOW
        invariant |processed| <= |full| && processed == full[|full| - |processed|..]
        invariant |processed| == |full| || |processed| >= FEISHU_WINDOW
      {
        processed := processed[1..];
      }
      return false;
    }
  }

  class QqSeen {
    var ids: seq<string>

    constructor ()
      ensures ids == []
    {
      ids := [];
    }

    ghost predicate Valid()
      reads this
    {
      |ids| <= QQ_WINDOW
    }

    /** A full deque drops its oldest element on append. */
    method Check(id: string) returns (seen: bool)
      requires Valid()
      modifies this
      ensures Valid()
      ensures (ids, seen) == Remember(old(ids), QQ_WINDOW, id)
    {
      if id in ids {
        return true;
      }
      assert ids != [] ==> (ids + [id])[1..] == ids[1..] + [id];
      ids := if |ids| == QQ_WINDOW then ids[1..] + [id] else ids + [id];
      return false;
    }
  }

  /* ---------- what every such filter guarantees over a whole run ---------- */

  /** The window and the accepted ids after a run of incoming ids, starting from an empty window. */
  function RunWindow(n: nat, incoming: seq<string>): (r: (seq<string>, seq<string>)) {
    if incoming == [] then ([], [])
    else
      var id := incoming[|incoming| - 1];
      var (window, accepted) := RunWindow(n, incoming[..|incoming| - 1]);
      var (window', seen) := Remember(window, n, id);
      (window', if seen then accepted else accepted + [id])
  }

  /** The window is always the last n accepted ids, all different; so an id is reported as seen exactly when
      it is among the last n accepted ones. */
  lemma {:induction false} WindowIsLastAccepted(n: nat, incoming: seq<string>)
    ensures var (window, accepted) := RunWindow(n, incoming);
      window == LastN(accepted, n) && NoDuplicates(window) && |window| <= n
  {
    if incoming == [] {
    } else {
      var id := incoming[|incoming| - 1];
      WindowIsLastAccepted(n, incoming[..|incoming| - 1]);
      var (window, accepted) := RunWindow(n, incoming[..|incoming| - 1]);
      if id !in window {
        LastNStep(accepted, id, n);
      }
    }
  }

  lemma {:induction false} LastNStep(log: seq<string>, id: string, n: nat)
    requires NoDuplicates(LastN(log, n)) && id !in LastN(log, n)
    ensures LastN(LastN(log, n) + [id], n) == LastN(log + [id], n)
    ensures NoDuplicates(LastN(log + [id], n)) && |LastN(log + [id], n)| <= n
  {
    var window, next := LastN(log, n), LastN(log + [id], n);
    var k := |window| + 1 - |next|;
    assert next == (window + [id])[k..];
  }

  /** Two deliveries of the same id are more than n deliveries apart. */
  lemma {:induction false} RedeliveryGap(n: nat, incoming: seq<string>, i: nat, j: nat)
    requires i < j < |RunWindow(n, incoming).1| && RunWindow(n, incoming).1[i] == RunWindow(n, incoming).1[j]
    ensures j - i > n
  {
    var earlier := incoming[..|incoming| - 1];
    var (window, accepted) := RunWindow(n, earlier);
    if j < |accepted| {
      RedeliveryGap(n, earlier, i, j);
    } else {
      WindowIsLastAccepted(n, earlier);
      assert accepted[i] !in window;
      assert forall k :: |accepted| - |window| <= k < |accepted| ==> accepted[k] == window[k - (|accepted| - |window|)];
    }
  }

  /** Every incoming id is delivered at least once, and nothing else is. */
  lemma {:induction false} AllDelivered(n: nat, incoming: seq<string>)
    ensures Elements(RunWindow(n, incoming).1) == Elements(incoming)
  {
    if incoming == [] {
    } else {
      var last := |incoming| - 1;
      AllDelivered(n, incoming[..last]);
      WindowIsLastAccepted(n, incoming[..last]);
      assert Elements(incoming) == Elements(incoming[..last]) + {incoming[last]};
      var accepted := RunWindow(n, incoming[..last]).1;
      assert Elements(accepted + [incoming[last]]) == Elements(accepted) + {incoming[last]};
      assert incoming[last] in LastN(accepted, n) ==> incoming[last] in accepted;
    }
  }

  lemma {:induction false} DistinctCount(s: seq<string>)
    requires NoDuplicates(s)
    ensures |Elements(s)| == |s|
  {
    if s == [] {
    } else {
      var last := |s| - 1;
      DistinctCount(s[..last]);
      assert Elements(s) == Elements(s[..last]) + {s[last]};
    }
  }

  /** A run over at most n different ids delivers each of them exactly once, however often it arrives. */
  lemma {:induction false} ExactlyOnceWithinWindow(n: nat, incoming: seq<string>)
    requires |Elements(incoming)| <= n
    ensures NoDuplicates(RunWindow(n, incoming).1)
    ensures Elements(RunWindow(n, incoming).1) == Elements(incoming)
  {
    AllDelivered(n, incoming);
    if incoming == [] {
    } else {
      var last := |incoming| - 1;
      var earlier := incoming[..last];
      assert Elements(incoming) == Elements(earlier) + {incoming[last]};
      SubsetCount(Elements(earlier), Elements(incoming));
      ExactlyOnceWithinWindow(n, earlier);
      WindowIsLastAccepted(n, earlier);
      DistinctCount(RunWindow(n, earlier).1);
    }
  }

  lemma {:induction false} SubsetCount<T>(a: set<T>, b: set<T>)
    requires a <= b
    ensures |a| <= |b|
  {
    assert b == a + (b - a);
  }
}
