/**
 * The bounded activity queue: the most recent serialized activity events,
 * oldest first, at most `Capacity` of them.
 */
module Activity {
  import opened Wrappers

  /** Number of serialized events the queue keeps. */
  const Capacity: nat := 200

  /** Number of entries `get_recent_activity` returns when no limit is given. */
  const DefaultLimit: nat := 50

  function Min(a: nat, b: nat): nat {
    if a <= b then a else b
  }

  /**
   * Reference definition of "the newest `n` entries": drop the oldest entry
   * until at most `n` remain.
   */
  function Newest<T>(s: seq<T>, n: nat): seq<T>
    decreases |s|
  {
    if |s| <= n then s else Newest(s[1..], n)
  }

  /** The newest `n` entries are the suffix of `s` of length `min(n, |s|)`. */
  lemma {:induction false} NewestIsSuffix<T>(s: seq<T>, n: nat)
    ensures Newest(s, n) == s[|s| - Min(n, |s|)..]
    decreases |s|
  {
    if |s| > n {
      NewestIsSuffix(s[1..], n);
      assert s[1..][|s| - 1 - n..] == s[|s| - n..];
    }
  }

  /** Trimming to the newest `n` entries, then appending, then trimming again, loses nothing extra. */
  lemma NewestOfNewest<T>(a: seq<T>, b: seq<T>, n: nat)
    ensures Newest(Newest(a, n) + b, n) == Newest(a + b, n)
  {
    NewestIsSuffix(a, n);
    var a' := a[|a| - Min(n, |a|)..];
    NewestIsSuffix(a' + b, n);
    NewestIsSuffix(a + b, n);
    var k := Min(n, |a + b|);
    assert Min(n, |a' + b|) == k;
    assert (a' + b)[|a' + b| - k..] == (a + b)[|a + b| - k..];
  }

  /**
   * The queue after `push_event`: the entry is appended at the back, and the
   * front entry is dropped when the length then exceeds `Capacity`.
   */
  function Pushed(q: seq<string>, json: string): seq<string>
  {
    var appended := q + [json];
    if |appended| > Capacity then appended[1..] else appended
  }

  /** A push onto a queue within capacity stays within capacity and puts the new entry last. */
  lemma PushedBounded(q: seq<string>, json: string)
    requires |q| <= Capacity
    ensures |Pushed(q, json)| <= Capacity
    ensures |Pushed(q, json)| == Min(|q| + 1, Capacity)
    ensures Pushed(q, json)[|Pushed(q, json)| - 1] == json
  {
  }

  /**
   * A push onto a full queue evicts exactly the oldest entry: the others keep
   * their order and the new entry is last.
   */
  lemma PushedWhenFull(q: seq<string>, json: string)
    requires |q| == Capacity
    ensures Pushed(q, json) == q[1..] + [json]
  {
  }

  /** A push onto a queue that is not full evicts nothing. */
  lemma PushedWhenNotFull(q: seq<string>, json: string)
    requires |q| < Capacity
    ensures Pushed(q, json) == q + [json]
  {
  }

  /** A push onto a queue within capacity leaves the newest `Capacity` entries of the old contents extended by the new entry. */
  lemma PushedKeepsNewest(q: seq<string>, json: string)
    requires |q| <= Capacity
    ensures Pushed(q, json) == Newest(q + [json], Capacity)
  {
    NewestIsSuffix(q + [json], Capacity);
  }

  /** The queue after pushing `xs`, in order, one `push_event` at a time. */
  function PushAll(q: seq<string>, xs: seq<string>): seq<string>
    decreases |xs|
  {
    if xs == [] then q else PushAll(Pushed(q, xs[0]), xs[1..])
  }

  /**
   * Whatever the events pushed, the queue holds the newest `Capacity` of all
   * entries ever pushed, in push order: eviction is oldest first.
   */
  lemma {:induction false} PushAllKeepsNewest(q: seq<string>, xs: seq<string>)
    requires |q| <= Capacity
    ensures PushAll(q, xs) == Newest(q + xs, Capacity)
    ensures |PushAll(q, xs)| <= Capacity
    decreases |xs|
  {
    if xs == [] {
      assert q + xs == q;
    } else {
      var q' := Pushed(q, xs[0]);
      PushedBounded(q, xs[0]);
      PushAllKeepsNewest(q', xs[1..]);
      PushedKeepsNewest(q, xs[0]);
      NewestOfNewest(q + [xs[0]], xs[1..], Capacity);
      assert q + [xs[0]] + xs[1..] == q + xs;
    }
    NewestIsSuffix(q + xs, Capacity);
  }

  /**
   * `get_recent_activity`: the limit defaults to `DefaultLimit`, the start
   * index is the length minus the limit, saturating at zero, and the entries
   * from there on are returned in queue order.
   */
  function RecentActivity(entries: seq<string>, limit: Option<nat>): (r: seq<string>)
    ensures r == Newest(entries, limit.GetOr(DefaultLimit))
    ensures |r| == Min(limit.GetOr(DefaultLimit), |entries|)
    ensures entries == entries[..|entries| - |r|] + r
  {
    var lim := limit.GetOr(DefaultLimit);
    var start := if |entries| >= lim then |entries| - lim else 0;
    NewestIsSuffix(entries, lim);
    entries[start..]
  }

  /**
   * Every one of the last `|xs|` pushes (at most `Capacity`) can be read back
   * verbatim, in push order, with a limit of `|xs|`.
   */
  lemma PushedEventsReadBack(q: seq<string>, xs: seq<string>)
    requires |q| <= Capacity
    requires |xs| <= Capacity
    ensures RecentActivity(PushAll(q, xs), Some(|xs|)) == xs
  {
    PushAllKeepsNewest(q, xs);
    var all := q + xs;
    NewestIsSuffix(all, Capacity);
    NewestIsSuffix(Newest(all, Capacity), |xs|);
    assert all[|all| - |xs|..] == xs;
  }

  /** A cleared queue reads back as empty whatever the limit. */
  lemma ClearedReadsEmpty(limit: Option<nat>)
    ensures RecentActivity([], limit) == []
  {
  }

  /** The shared `VecDeque<String>` of recent activity. */
  class ActivityQueue {
    var entries: seq<string>

    /** The queue never holds more than `Capacity` entries. */
    ghost predicate Valid()
      reads this
    {
      |entries| <= Capacity
    }

    /** `VecDeque::with_capacity(200)`: an empty queue. */
    constructor ()
      ensures Valid() && entries == []
    {
      entries := [];
    }

    /** The queue half of `push_event`: `push_back`, then `pop_front` once over capacity. */
    method Push(json: string)
      modifies this
      ensures entries == Pushed(old(entries), json)
      ensures old(Valid()) ==> Valid()
    {
      entries := entries + [json];
      if |entries| > Capacity {
        entries := entries[1..];
      }
    }

    /** `clear_activity`: empties the queue. */
    method Clear()
      modifies this
      ensures Valid() && entries == []
    {
      entries := [];
    }
  }
}
