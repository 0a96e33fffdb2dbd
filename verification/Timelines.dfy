/**
 * What one device history means: a map from observation time to the last sample accepted for it, cut at a retention
 * limit and thinned to the newest entries. Expiry, thinning and overwriting commute, so a history that is maintained
 * batch by batch is the history computed once from everything accepted.
 */
module Timelines {
  // `reading` stands for the readings, which the store carries along without looking at them.
  datatype Sample = Sample(observedAt: real, reading: int)

  type Timeline = map<real, Sample>

  // The last sample of each time wins.
  function Latest(samples: seq<Sample>): Timeline {
    if samples == [] then map[]
    else
      var last := samples[|samples| - 1];
      Latest(samples[..|samples| - 1])[last.observedAt := last]
  }

  lemma {:induction false} LatestMembers(samples: seq<Sample>)
    ensures forall t :: t in Latest(samples) ==> Latest(samples)[t].observedAt == t && Latest(samples)[t] in samples
    ensures forall s :: s in samples ==> s.observedAt in Latest(samples)
  {
    if samples == [] {
    } else {
      LatestMembers(samples[..|samples| - 1]);
      assert samples == samples[..|samples| - 1] + [samples[|samples| - 1]];
    }
  }

  lemma LatestAppend(samples: seq<Sample>, s: Sample)
    ensures Latest(samples + [s]) == Latest(samples)[s.observedAt := s]
  {
    assert (samples + [s])[..|samples|] == samples;
  }

  // ------------------------------------------------------------------ expiry

  function Cut(limit: real, m: Timeline): Timeline {
    map t | t in m && t >= limit :: m[t]
  }

  // ------------------------------------------------------------------ the newest entries

  function Above(t: real, times: set<real>): set<real> {
    set u | u in times && u > t
  }

  function Top(n: nat, times: set<real>): set<real> {
    set t | t in times && |Above(t, times)| < n
  }

  // The entries with fewer than n newer ones.
  function Newest(n: nat, m: Timeline): Timeline {
    map t | t in Top(n, m.Keys) :: m[t]
  }

  lemma SubsetSize(a: set<real>, b: set<real>)
    requires a <= b
    ensures |a| <= |b| && (|a| == |b| ==> a == b)
  {
    assert b == a + (b - a);
    if |a| == |b| { assert b - a == {}; }
  }

  lemma AnyMember<T>(s: set<T>) returns (x: T)
    requires s != {}
    ensures x in s
  {
    x :| x in s;
  }

  lemma {:induction false} Lowest(times: set<real>) returns (low: real)
    requires times != {}
    ensures low in times && forall t :: t in times ==> low <= t
    decreases |times|
  {
    var some := AnyMember(times);
    low := some;
    if times != {some} {
      var other := Lowest(times - {some});
      low := if other < some then other else some;
      assert forall t :: t in times ==> t == some || t in times - {some};
    }
  }

  // A set of at least n times has at least n among its top n.
  lemma {:induction false} TopIsFull(n: nat, times: set<real>)
    requires n <= |times|
    ensures n <= |Top(n, times)|
    decreases |times|
  {
    if n < |times| {
      var low := Lowest(times);
      var rest := times - {low};
      TopIsFull(n, rest);
      forall t | t in Top(n, rest) ensures t in Top(n, times) {
        assert Above(t, rest) == Above(t, times);
      }
      SubsetSize(Top(n, rest), Top(n, times));
    } else {
      forall t | t in times ensures t in Top(n, times) {
        SubsetSize(Above(t, times), times - {t});
      }
      assert Top(n, times) == times;
    }
  }

  // Everything in the top n is newer than anything left out of it.
  lemma TopIsAbove(n: nat, times: set<real>, left: real)
    requires left in times && left !in Top(n, times)
    ensures Top(n, times) <= Above(left, times)
  {
    forall t | t in Top(n, times) ensures t > left {
      if t <= left { SubsetSize(Above(left, times), Above(t, times)); }
    }
  }

  // Thinning before adding more times changes nothing after thinning again.
  lemma TopOfMerge(n: nat, times: set<real>, more: set<real>)
    ensures Top(n, Top(n, times) + more) == Top(n, times + more)
  {
    var thinned, all := Top(n, times) + more, times + more;
    forall t ensures t in Top(n, thinned) <==> t in Top(n, all) {
      SubsetSize(Above(t, thinned), Above(t, all));
      if t in Top(n, all) && t in times {
        SubsetSize(Above(t, times), Above(t, all));
      } else if t in Top(n, thinned) && Above(t, thinned) != Above(t, all) {
        var left :| left in Above(t, all) && left !in Above(t, thinned);
        SubsetSize(Above(left, times), times);
        TopIsFull(n, times);
        TopIsAbove(n, times, left);
        SubsetSize(Top(n, times), Above(t, thinned));
        assert false;
      }
    }
  }

  lemma TopOfCut(n: nat, limit: real, times: set<real>)
    ensures (set t | t in Top(n, times) && t >= limit) == Top(n, set t | t in times && t >= limit)
  {
    var kept := set t | t in times && t >= limit;
    forall t | t in kept ensures Above(t, kept) == Above(t, times) {
    }
  }

  lemma NewestOfMerge(n: nat, m: Timeline, more: Timeline)
    ensures Newest(n, Newest(n, m) + more) == Newest(n, m + more)
  {
    TopOfMerge(n, m.Keys, more.Keys);
    assert (Newest(n, m) + more).Keys == Top(n, m.Keys) + more.Keys;
    assert (m + more).Keys == m.Keys + more.Keys;
  }

  lemma CutOfNewest(n: nat, limit: real, m: Timeline)
    ensures Cut(limit, Newest(n, m)) == Newest(n, Cut(limit, m))
  {
    TopOfCut(n, limit, m.Keys);
    assert Cut(limit, m).Keys == set t | t in m.Keys && t >= limit;
    assert Cut(limit, Newest(n, m)).Keys == set t | t in Top(n, m.Keys) && t >= limit;
  }

  // ------------------------------------------------------------------ batch by batch

  // One accepted batch: the retention limit when it arrived, and its samples.
  datatype Batch = Batch(limit: real, samples: Timeline)

  ghost predicate Recent(limit: real, m: Timeline) {
    forall t :: t in m ==> t >= limit
  }

  // One step of the store: expire, merge with the last sample winning, thin.
  function Absorbed(n: nat, history: Timeline, b: Batch): Timeline {
    Newest(n, Cut(b.limit, history) + b.samples)
  }

  // What happens to one device's history: a batch arrives (an empty one is a mere expiry), or the history is evicted.
  datatype Event = Arrival(batch: Batch) | Eviction

  function Maintained(n: nat, events: seq<Event>): Timeline {
    if events == [] then map[]
    else
      match events[|events| - 1]
      case Arrival(b) => Absorbed(n, Maintained(n, events[..|events| - 1]), b)
      case Eviction => map[]
  }

  // Everything accepted since the last eviction.
  function Accepted(events: seq<Event>): Timeline {
    if events == [] then map[]
    else
      match events[|events| - 1]
      case Arrival(b) => Accepted(events[..|events| - 1]) + b.samples
      case Eviction => map[]
  }

  // The latest retention limit, `start` if there was none.
  function LastLimit(start: real, events: seq<Event>): real {
    if events == [] then start
    else
      match events[|events| - 1]
      case Arrival(b) => b.limit
      case Eviction => LastLimit(start, events[..|events| - 1])
  }

  // The clock never goes back and every accepted sample is recent.
  ghost predicate Orderly(start: real, events: seq<Event>) {
    events == [] ||
    (Orderly(start, events[..|events| - 1]) &&
     match events[|events| - 1]
     case Arrival(b) => LastLimit(start, events[..|events| - 1]) <= b.limit && Recent(b.limit, b.samples)
     case Eviction => true)
  }

  // One step on top of a history that refines `all`.
  lemma AbsorbRefines(n: nat, history: Timeline, limit: real, all: Timeline, b: Batch)
    requires history == Newest(n, Cut(limit, all)) && limit <= b.limit && Recent(b.limit, b.samples)
    ensures Absorbed(n, history, b) == Newest(n, Cut(b.limit, all + b.samples))
  {
    CutAgain(n, history, limit, all, b.limit);
    NewestOfMerge(n, Cut(b.limit, all), b.samples);
    assert Cut(b.limit, all) + b.samples == Cut(b.limit, all + b.samples);
  }

  // A later expiry.
  lemma CutAgain(n: nat, history: Timeline, limit: real, all: Timeline, later: real)
    requires history == Newest(n, Cut(limit, all)) && limit <= later
    ensures Cut(later, history) == Newest(n, Cut(later, all))
  {
    CutOfNewest(n, later, Cut(limit, all));
    assert Cut(later, Cut(limit, all)) == Cut(later, all);
  }

  // Maintaining the history event by event gives the newest n unexpired entries of everything accepted since the last
  // eviction.
  lemma {:induction false} StreamingIsOffline(n: nat, start: real, events: seq<Event>)
    requires Orderly(start, events)
    ensures Maintained(n, events) == Newest(n, Cut(LastLimit(start, events), Accepted(events)))
  {
    if events == [] || events[|events| - 1].Eviction? {
      NothingKept(n, LastLimit(start, events));
    } else {
      var before, b := events[..|events| - 1], events[|events| - 1].batch;
      StreamingIsOffline(n, start, before);
      AbsorbRefines(n, Maintained(n, before), LastLimit(start, before), Accepted(before), b);
    }
  }

  lemma NothingKept(n: nat, limit: real)
    ensures Newest(n, Cut(limit, map[])) == map[]
  {
    assert Cut(limit, map[]) == map[];
  }

  // ------------------------------------------------------------------ histories as sorted sequences

  ghost predicate Increasing(s: seq<Sample>) {
    forall i, j :: 0 <= i < j < |s| ==> s[i].observedAt < s[j].observedAt
  }

  // The suffix from the first sample at or after the limit.
  function Since(limit: real, s: seq<Sample>): seq<Sample> {
    if s == [] || s[0].observedAt >= limit then s else Since(limit, s[1..])
  }

  lemma {:induction false} SinceSplits(limit: real, s: seq<Sample>, n: nat)
    requires n <= |s|
    requires forall i :: 0 <= i < n ==> s[i].observedAt < limit
    requires n < |s| ==> s[n].observedAt >= limit
    ensures Since(limit, s) == s[n..]
  {
    if n == 0 {
    } else {
      SinceSplits(limit, s[1..], n - 1);
    }
  }

  // In a sorted history every sample is the latest of its time.
  lemma {:induction false} LatestOfIncreasing(s: seq<Sample>)
    requires Increasing(s)
    ensures forall i :: 0 <= i < |s| ==> s[i].observedAt in Latest(s) && Latest(s)[s[i].observedAt] == s[i]
  {
    if s == [] {
    } else {
      var front, last := s[..|s| - 1], s[|s| - 1];
      LatestOfIncreasing(front);
      forall i | 0 <= i < |s| ensures s[i].observedAt in Latest(s) && Latest(s)[s[i].observedAt] == s[i] {
        if i < |s| - 1 { assert s[i] == front[i]; }
      }
    }
  }

  lemma {:induction false} LatestSize(s: seq<Sample>)
    requires Increasing(s)
    ensures |Latest(s).Keys| == |s|
  {
    if s == [] {
    } else {
      var front, last := s[..|s| - 1], s[|s| - 1];
      LatestSize(front);
      LatestMembers(front);
      assert last.observedAt !in Latest(front);
      assert Latest(s).Keys == Latest(front).Keys + {last.observedAt};
    }
  }

  lemma IndexOf(s: seq<Sample>, t: real) returns (i: nat)
    requires t in Latest(s)
    ensures i < |s| && s[i] == Latest(s)[t] && s[i].observedAt == t
  {
    LatestMembers(s);
    hide Latest;
    i :| 0 <= i < |s| && s[i] == Latest(s)[t];
  }

  lemma SuffixLatest(s: seq<Sample>, n: nat)
    requires Increasing(s) && n < |s|
    ensures Latest(s[n..]) == Cut(s[n].observedAt, Latest(s))
  {
    hide Latest;
    var r := s[n..];
    LatestOfIncreasing(s);
    LatestOfIncreasing(r);
    forall t | t in Latest(r) ensures t in Latest(s) && t >= s[n].observedAt && Latest(r)[t] == Latest(s)[t] {
      var i := IndexOf(r, t);
      assert r[i] == s[n + i];
    }
    forall t | t in Latest(s) && t >= s[n].observedAt ensures t in Latest(r) {
      var i := IndexOf(s, t);
      assert s[i] == r[i - n];
    }
  }

  lemma EmptyLatest()
    ensures Latest([]) == map[]
  {
  }

  lemma EmptyCut(limit: real, s: seq<Sample>)
    requires forall i :: 0 <= i < |s| ==> s[i].observedAt < limit
    ensures Cut(limit, Latest(s)) == map[]
  {
    hide Latest;
    forall t | t in Latest(s) ensures t < limit {
      var i := IndexOf(s, t);
    }
  }

  // Dropping the expired prefix is expiry.
  lemma SinceIsCut(limit: real, s: seq<Sample>)
    requires Increasing(s)
    ensures Increasing(Since(limit, s)) && Latest(Since(limit, s)) == Cut(limit, Latest(s))
  {
    hide Latest;
    hide Since;
    SinceFirst(limit, s);
    var n := |s| - |Since(limit, s)|;
    if n == |s| {
      assert Latest([]) == map[] by { EmptyLatest(); }
      EmptyCut(limit, s);
    } else {
      SuffixLatest(s, n);
      CutsAgree(s, n, limit);
    }
  }

  lemma CutsAgree(s: seq<Sample>, n: nat, limit: real)
    requires Increasing(s) && n < |s| && s[n].observedAt >= limit
    requires forall i :: 0 <= i < n ==> s[i].observedAt < limit
    ensures Cut(limit, Latest(s)) == Cut(s[n].observedAt, Latest(s))
  {
    hide Latest;
    forall t | t in Latest(s) && t >= limit ensures t >= s[n].observedAt {
      var i := IndexOf(s, t);
    }
  }

  lemma {:induction false} SinceFirst(limit: real, s: seq<Sample>)
    ensures |Since(limit, s)| <= |s| && Since(limit, s) == s[|s| - |Since(limit, s)|..]
    ensures forall i :: 0 <= i < |s| - |Since(limit, s)| ==> s[i].observedAt < limit
    ensures Since(limit, s) != [] ==> Since(limit, s)[0].observedAt >= limit
  {
    if s != [] && s[0].observedAt < limit {
      SinceFirst(limit, s[1..]);
      forall i | 0 <= i < |s| - |Since(limit, s)| ensures s[i].observedAt < limit {
        if i > 0 { assert s[i] == s[1..][i - 1]; }
      }
    }
  }

  // Keeping the last n samples of a sorted history is thinning.
  lemma LastIsNewest(n: nat, s: seq<Sample>)
    requires Increasing(s) && 0 < n <= |s|
    ensures Latest(s[|s| - n..]) == Newest(n, Latest(s))
  {
    hide Latest;
    var k, m := |s| - n, Latest(s);
    SuffixLatest(s, k);
    forall t | t in m ensures t >= s[k].observedAt <==> t in Top(n, m.Keys) {
      var i := IndexOf(s, t);
      CountAbove(s, i);
    }
  }

  lemma CountAbove(s: seq<Sample>, i: nat)
    requires Increasing(s) && i < |s|
    ensures |Above(s[i].observedAt, Latest(s).Keys)| == |s| - 1 - i
  {
    hide Latest;
    var r := s[i + 1..];
    LatestSize(r);
    LatestOfIncreasing(s);
    LatestOfIncreasing(r);
    forall t | t in Latest(r) ensures t in Above(s[i].observedAt, Latest(s).Keys) {
      var j := IndexOf(r, t);
      assert r[j] == s[i + 1 + j];
    }
    forall t | t in Above(s[i].observedAt, Latest(s).Keys) ensures t in Latest(r) {
      var j := IndexOf(s, t);
      assert s[j] == r[j - i - 1];
    }
    assert Above(s[i].observedAt, Latest(s).Keys) == Latest(r).Keys;
  }

  // A sorted history is determined by its timeline.
  lemma SortedIsUnique(s: seq<Sample>, r: seq<Sample>)
    requires Increasing(s) && Increasing(r) && Latest(s) == Latest(r)
    ensures s == r
  {
    hide Latest;
    LatestSize(s);
    LatestSize(r);
    forall i | 0 <= i < |s| ensures s[i] == r[i] {
      LatestOfIncreasing(s);
      var j := IndexOf(r, s[i].observedAt);
      CountAbove(s, i);
      CountAbove(r, j);
    }
  }

  // A short history is not thinned.
  lemma NothingThinned(n: nat, m: Timeline)
    requires |m| <= n
    ensures Newest(n, m) == m
  {
    forall t | t in m ensures t in Top(n, m.Keys) {
      SubsetSize(Above(t, m.Keys), m.Keys - {t});
    }
  }
}
