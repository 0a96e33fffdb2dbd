/**
 * The device metric store of metrics.go: per-device histories that are pruned, merged, thinned and evicted in place.
 * `accepted` is the reference: everything accepted for a device since its history was last evicted.
 */
module Metrics {
  import opened Wrappers
  import opened Timelines
  import Sorting

  const RETENTION: real := 172800000.0
  const FUTURE_SKEW: real := 600000.0
  const MAX_BATCH: nat := 500
  const MAX_PER_DEVICE: nat := 3000
  const MAX_TOTAL: nat := 300000
  const MAX_DEVICES: nat := 1000

  datatype Key = Key(userID: string, deviceID: string)

  type Series = map<Key, seq<Sample>>

  function History(series: Series, key: Key): seq<Sample> {
    if key in series then series[key] else []
  }

  function AcceptedFor(accepted: map<Key, Timeline>, key: Key): Timeline {
    if key in accepted then accepted[key] else map[]
  }

  ghost function Sum(series: Series): nat
    decreases |series|
  {
    if series == map[] then 0
    else
      var k :| k in series;
      |series[k]| + Sum(series - {k})
  }

  lemma {:induction false} SumWithout(series: Series, key: Key)
    requires key in series
    ensures Sum(series) == |series[key]| + Sum(series - {key})
    decreases |series|
  {
    var k :| k in series && Sum(series) == |series[k]| + Sum(series - {k});
    if k != key {
      SumWithout(series - {k}, key);
      SumWithout(series - {key}, k);
      assert series - {k} - {key} == series - {key} - {k};
    }
  }

  lemma SumUpdate(series: Series, key: Key, samples: seq<Sample>)
    ensures Sum(series[key := samples]) == Sum(series) - |History(series, key)| + |samples|
  {
    var updated := series[key := samples];
    SumWithout(updated, key);
    if key in series {
      SumWithout(series, key);
      assert updated - {key} == series - {key};
    } else {
      assert updated - {key} == series;
    }
  }

  // ------------------------------------------------------------------ what every history satisfies

  ghost predicate SoundHistory(samples: seq<Sample>) {
    samples != [] && Increasing(samples) && |samples| <= MAX_PER_DEVICE
  }

  ghost predicate Sound(series: Series) {
    forall k :: k in series ==> SoundHistory(series[k])
  }

  ghost predicate Over(series: Series) {
    Sum(series) > MAX_TOTAL || |series| > MAX_DEVICES
  }

  // Every history is the newest MAX_PER_DEVICE unexpired samples of everything accepted for its device.
  ghost predicate Refines(series: Series, accepted: map<Key, Timeline>, limit: real) {
    forall k :: RefinesAt(series, accepted, limit, k)
  }

  ghost predicate RefinesAt(series: Series, accepted: map<Key, Timeline>, limit: real, k: Key) {
    Latest(History(series, k)) == Newest(MAX_PER_DEVICE, Cut(limit, AcceptedFor(accepted, k)))
  }

  // ------------------------------------------------------------------ expiry

  function Pruned(series: Series, limit: real): Series {
    map k | k in series && Since(limit, series[k]) != [] :: Since(limit, series[k])
  }

  lemma PrunedHistory(series: Series, limit: real, k: Key)
    requires Sound(series)
    ensures History(Pruned(series, limit), k) == Since(limit, History(series, k))
    ensures Latest(History(Pruned(series, limit), k)) == Cut(limit, Latest(History(series, k)))
    ensures k in Pruned(series, limit) ==> k in series && SoundHistory(Pruned(series, limit)[k])
  {
    hide Latest;
    hide Cut;
    assert Since(limit, []) == [];
    SinceFirst(limit, History(series, k));
    hide Since;
    SinceIsCut(limit, History(series, k));
  }

  lemma PruneRefines(series: Series, accepted: map<Key, Timeline>, limit: real, later: real)
    requires Sound(series) && Refines(series, accepted, limit) && limit <= later
    ensures Refines(Pruned(series, later), accepted, later)
  {
    hide Latest;
    hide Newest;
    hide Cut;
    hide Pruned;
    forall k ensures RefinesAt(Pruned(series, later), accepted, later, k) {
      assert RefinesAt(series, accepted, limit, k);
      PrunedHistory(series, later, k);
      CutAgain(MAX_PER_DEVICE, Latest(History(series, k)), limit, AcceptedFor(accepted, k), later);
    }
  }

  lemma PruneShrinks(series: Series, limit: real)
    requires Sound(series)
    ensures Sound(Pruned(series, limit)) && Pruned(series, limit).Keys <= series.Keys
    ensures Sum(Pruned(series, limit)) <= Sum(series) && |Pruned(series, limit)| <= |series|
  {
    forall k | k in Pruned(series, limit) ensures SoundHistory(Pruned(series, limit)[k]) && |Pruned(series, limit)[k]| <= |series[k]| {
      PrunedHistory(series, limit, k);
      SinceFirst(limit, series[k]);
    }
    KeysWithin(Pruned(series, limit).Keys, series.Keys);
    SmallerSum(Pruned(series, limit), series);
  }

  lemma KeysWithin(a: set<Key>, b: set<Key>)
    requires a <= b
    ensures |a| <= |b|
  {
    assert b == a + (b - a);
  }

  lemma {:induction false} SmallerSum(a: Series, b: Series)
    requires forall k :: k in a ==> k in b && |a[k]| <= |b[k]|
    ensures Sum(a) <= Sum(b)
    decreases |a|
  {
    if a != map[] {
      var k :| k in a;
      SumWithout(a, k);
      SumWithout(b, k);
      SmallerSum(a - {k}, b - {k});
    }
  }

  // ------------------------------------------------------------------ eviction

  function NewestAt(samples: seq<Sample>): real
    requires samples != []
  {
    samples[|samples| - 1].observedAt
  }

  function Without(series: Series, victims: seq<Key>): Series {
    map k | k in series && k !in victims :: series[k]
  }

  // One eviction: the caps were exceeded, and no device's newest sample was older than the victim's.
  ghost predicate Evictable(series: Series, victim: Key)
    requires Sound(series)
  {
    && Over(series)
    && victim in series
    && (forall k :: k in series ==> NewestAt(series[victim]) <= NewestAt(series[k]))
  }

  // `victims` were evicted one after the other.
  ghost predicate Evictions(series: Series, victims: seq<Key>)
    requires Sound(series)
  {
    forall i :: 0 <= i < |victims| ==> Evictable(Without(series, victims[..i]), victims[i])
  }

  // No evicted history had a newer newest sample than any survivor, and the last eviction was needed.
  lemma EvictionsAreFair(series: Series, victims: seq<Key>)
    requires Sound(series) && Evictions(series, victims)
    ensures forall v, k :: v in victims && k in Without(series, victims) ==> v in series && NewestAt(series[v]) <= NewestAt(series[k])
    ensures victims != [] ==> Over(Without(series, victims[..|victims| - 1]))
  {
    forall v, k | v in victims && k in Without(series, victims) ensures v in series && NewestAt(series[v]) <= NewestAt(series[k]) {
      var i :| 0 <= i < |victims| && victims[i] == v;
      assert Evictable(Without(series, victims[..i]), v);
      assert k in Without(series, victims[..i]);
    }
    if victims != [] {
      assert Evictable(Without(series, victims[..|victims| - 1]), victims[|victims| - 1]);
    }
  }

  // ------------------------------------------------------------------ the batch

  predicate Acceptable(item: Option<Sample>, oldest: real, newest: real) {
    item.Some? && oldest <= item.value.observedAt <= newest
  }

  // The samples of a batch that decode and lie in the time window, in order.
  function Incoming(batch: seq<Option<Sample>>, oldest: real, newest: real): seq<Sample> {
    if batch == [] then []
    else
      var last := batch[|batch| - 1];
      Incoming(batch[..|batch| - 1], oldest, newest) + if Acceptable(last, oldest, newest) then [last.value] else []
  }

  lemma {:induction false} IncomingMembers(batch: seq<Option<Sample>>, oldest: real, newest: real)
    ensures forall s :: s in Incoming(batch, oldest, newest) <==> Some(s) in batch && Acceptable(Some(s), oldest, newest)
  {
    if batch == [] {
    } else {
      IncomingMembers(batch[..|batch| - 1], oldest, newest);
      assert batch == batch[..|batch| - 1] + [batch[|batch| - 1]];
    }
  }

  lemma IncomingFrom(batch: seq<Option<Sample>>, oldest: real, newest: real)
    ensures AllFrom(oldest, Incoming(batch, oldest, newest))
  {
    IncomingMembers(batch, oldest, newest);
  }

  // What store accepts of a message.
  function AcceptedOf(raw: seq<Option<Sample>>, now: real): seq<Sample> {
    Incoming(raw[..if |raw| < MAX_BATCH then |raw| else MAX_BATCH], now - RETENTION, now + FUTURE_SKEW)
  }

  // Item i of the message is accepted: it is among the first 500, decodes, and was observed between 48 hours before and
  // 10 minutes after now.
  predicate Accepts(raw: seq<Option<Sample>>, now: real, i: nat) {
    i < |raw| && i < 500 && raw[i].Some? && now - 172800000.0 <= raw[i].value.observedAt <= now + 600000.0
  }

  // And no later accepted item is of the same time.
  predicate AcceptsLast(raw: seq<Option<Sample>>, now: real, i: nat) {
    Accepts(raw, now, i) && forall j :: i < j < |raw| && Accepts(raw, now, j) ==> raw[j].value.observedAt != raw[i].value.observedAt
  }

  function AcceptedItems(raw: seq<Option<Sample>>, now: real): set<nat> {
    set i: nat | i < |raw| && Accepts(raw, now, i)
  }

  // What a message adds to what was accepted for its device: of each time the last accepted item, over what there was.
  ghost predicate Gains(before: Timeline, after: Timeline, raw: seq<Option<Sample>>, now: real) {
    && (forall i: nat :: AcceptsLast(raw, now, i) ==>
          raw[i].value.observedAt in after && after[raw[i].value.observedAt] == raw[i].value)
    && (forall t :: t in before ==> t in after)
    && (forall t :: t in after && !AcceptsTime(raw, now, t) ==> t in before && after[t] == before[t])
  }

  ghost predicate AcceptsTime(raw: seq<Option<Sample>>, now: real, t: real) {
    exists i: nat :: Accepts(raw, now, i) && raw[i].value.observedAt == t
  }

  // The last accepted item of its time among the first n.
  predicate LastBelow(raw: seq<Option<Sample>>, now: real, n: nat, i: nat) {
    i < n && Accepts(raw, now, i) &&
    forall j :: i < j < n && Accepts(raw, now, j) ==> raw[j].value.observedAt != raw[i].value.observedAt
  }

  lemma LastMoves(raw: seq<Option<Sample>>, now: real, m: nat)
    requires Accepts(raw, now, m)
    ensures forall i: nat :: LastBelow(raw, now, m + 1, i) <==>
      i == m || (LastBelow(raw, now, m, i) && raw[i].value.observedAt != raw[m].value.observedAt)
  {
  }

  // The timeline holds, of each time, the last accepted item among the first n.
  ghost predicate HoldsLast(m: Timeline, raw: seq<Option<Sample>>, now: real, n: nat) {
    && (forall t :: t in m ==> exists i: nat :: LastBelow(raw, now, n, i) && raw[i].value.observedAt == t)
    && (forall i: nat :: LastBelow(raw, now, n, i) ==>
          raw[i].value.observedAt in m && m[raw[i].value.observedAt] == raw[i].value)
  }

  lemma HoldsOneMore(m: Timeline, raw: seq<Option<Sample>>, now: real, n: nat)
    requires HoldsLast(m, raw, now, n) && Accepts(raw, now, n)
    ensures HoldsLast(m[raw[n].value.observedAt := raw[n].value], raw, now, n + 1)
  {
    LastMoves(raw, now, n);
    hide LastBelow;
    var time := raw[n].value.observedAt;
    var more := m[time := raw[n].value];
    forall t | t in more ensures exists i: nat :: LastBelow(raw, now, n + 1, i) && raw[i].value.observedAt == t {
      if t == time {
        assert LastBelow(raw, now, n + 1, n);
      } else {
        var i: nat :| LastBelow(raw, now, n, i) && raw[i].value.observedAt == t;
        assert LastBelow(raw, now, n + 1, i);
      }
    }
  }

  lemma HoldsStill(m: Timeline, raw: seq<Option<Sample>>, now: real, n: nat)
    requires HoldsLast(m, raw, now, n) && !Accepts(raw, now, n)
    ensures HoldsLast(m, raw, now, n + 1)
  {
    assert forall i: nat :: LastBelow(raw, now, n + 1, i) <==> LastBelow(raw, now, n, i);
    hide LastBelow;
    forall t | t in m ensures exists i: nat :: LastBelow(raw, now, n + 1, i) && raw[i].value.observedAt == t {
      var i: nat :| LastBelow(raw, now, n, i) && raw[i].value.observedAt == t;
      assert LastBelow(raw, now, n + 1, i);
    }
  }

  lemma {:induction false} AcceptedUpTo(raw: seq<Option<Sample>>, now: real, n: nat)
    requires n <= |raw| && n <= MAX_BATCH
    ensures var incoming := Incoming(raw[..n], now - RETENTION, now + FUTURE_SKEW);
      |incoming| == |set i: nat | i < n && Accepts(raw, now, i)| && HoldsLast(Latest(incoming), raw, now, n)
  {
    hide HoldsLast, Latest;
    if n == 0 {
      HoldsNothing(raw, now);
    } else {
      var m := n - 1;
      AcceptedUpTo(raw, now, m);
      assert raw[..n][..m] == raw[..m];
      var before := Incoming(raw[..m], now - RETENTION, now + FUTURE_SKEW);
      assert Accepts(raw, now, m) <==> Acceptable(raw[m], now - RETENTION, now + FUTURE_SKEW);
      var items := set i: nat | i < m && Accepts(raw, now, i);
      if Accepts(raw, now, m) {
        LatestAppend(before, raw[m].value);
        HoldsOneMore(Latest(before), raw, now, m);
        assert (set i: nat | i < n && Accepts(raw, now, i)) == items + {m};
      } else {
        HoldsStill(Latest(before), raw, now, m);
        assert (set i: nat | i < n && Accepts(raw, now, i)) == items;
        assert before + [] == before;
      }
    }
  }

  lemma HoldsNothing(raw: seq<Option<Sample>>, now: real)
    ensures HoldsLast(Latest([]), raw, now, 0)
  {
  }

  lemma AcceptedExactly(raw: seq<Option<Sample>>, now: real, before: Timeline)
    ensures |AcceptedOf(raw, now)| == |AcceptedItems(raw, now)|
    ensures Gains(before, before + Latest(AcceptedOf(raw, now)), raw, now)
  {
    var n := if |raw| < MAX_BATCH then |raw| else MAX_BATCH;
    AcceptedUpTo(raw, now, n);
    assert AcceptedItems(raw, now) == set i: nat | i < n && Accepts(raw, now, i);
    assert forall i: nat :: AcceptsLast(raw, now, i) <==> LastBelow(raw, now, n, i);
  }

  // In terms of the message itself: what is accepted for each device after a store.
  lemma StoreGains(accepted: map<Key, Timeline>, key: Key, raw: seq<Option<Sample>>, now: real, victims: seq<Key>)
    ensures var after := Kept(Offered(accepted, key, AcceptedOf(raw, now)), victims);
      && (key !in victims ==> Gains(AcceptedFor(accepted, key), AcceptedFor(after, key), raw, now))
      && (forall k :: k != key && k !in victims ==> AcceptedFor(after, k) == AcceptedFor(accepted, k))
      && (forall k :: k in victims ==> AcceptedFor(after, k) == map[])
  {
    hide AcceptedOf, Gains;
    AcceptedExactly(raw, now, AcceptedFor(accepted, key));
    if AcceptedOf(raw, now) == [] { NothingAdded(AcceptedFor(accepted, key)); }
  }

  lemma NothingAdded(m: Timeline)
    ensures m + Latest([]) == m
  {
  }

  function Offered(accepted: map<Key, Timeline>, key: Key, incoming: seq<Sample>): map<Key, Timeline> {
    if incoming == [] then accepted else accepted[key := AcceptedFor(accepted, key) + Latest(incoming)]
  }

  // The history that a batch leads to, before any eviction.
  ghost predicate MergedHistory(samples: seq<Sample>, existing: seq<Sample>, incoming: seq<Sample>) {
    SoundHistory(samples) && Latest(samples) == Newest(MAX_PER_DEVICE, Latest(existing) + Latest(incoming))
  }

  ghost predicate AllFrom(limit: real, samples: seq<Sample>) {
    forall s :: s in samples ==> s.observedAt >= limit
  }

  lemma MergeRefines(series: Series, accepted: map<Key, Timeline>, limit: real, key: Key, incoming: seq<Sample>, samples: seq<Sample>)
    requires Refines(series, accepted, limit) && incoming != []
    requires AllFrom(limit, incoming)
    requires MergedHistory(samples, History(series, key), incoming)
    ensures Refines(series[key := samples], Offered(accepted, key, incoming), limit)
  {
    hide Newest;
    hide Latest;
    hide Cut;
    var all, b := AcceptedFor(accepted, key), Batch(limit, Latest(incoming));
    var history := Latest(History(series, key));
    assert RefinesAt(series, accepted, limit, key);
    LatestMembers(incoming);
    AbsorbRefines(MAX_PER_DEVICE, history, limit, all, b);
    CutAgain(MAX_PER_DEVICE, history, limit, all, limit);
    var series', accepted' := series[key := samples], Offered(accepted, key, incoming);
    forall k ensures RefinesAt(series', accepted', limit, k) {
      assert RefinesAt(series, accepted, limit, k);
      if k == key {
        assert Cut(limit, history) == history;
      } else {
        assert History(series', k) == History(series, k);
      }
    }
  }

  lemma NothingYet(limit: real)
    ensures Latest([]) == map[] && Newest(MAX_PER_DEVICE, Cut(limit, map[])) == map[]
  {
    NothingKept(MAX_PER_DEVICE, limit);
  }

  function Kept(accepted: map<Key, Timeline>, victims: seq<Key>): map<Key, Timeline> {
    map k | k in accepted && k !in victims :: accepted[k]
  }

  lemma EvictRefines(series: Series, accepted: map<Key, Timeline>, limit: real, victims: seq<Key>)
    requires Refines(series, accepted, limit)
    ensures Refines(Without(series, victims), Kept(accepted, victims), limit)
  {
    hide Latest;
    forall k ensures RefinesAt(Without(series, victims), Kept(accepted, victims), limit, k) {
      assert RefinesAt(series, accepted, limit, k);
      NothingYet(limit);
      if k !in victims { assert History(Without(series, victims), k) == History(series, k); }
    }
  }

  // ------------------------------------------------------------------ loops of the store

  predicate Before(a: Sample, b: Sample) {
    a.observedAt < b.observedAt
  }

  // The search that Go's sort.Search makes for the first sample at or after `from`.
  method Search(samples: seq<Sample>, from: real) returns (start: nat)
    requires Increasing(samples)
    ensures start <= |samples| && samples[start..] == Since(from, samples)
  {
    var i, j := 0, |samples|;
    while i < j
      invariant 0 <= i <= j <= |samples|
      invariant forall k :: 0 <= k < i ==> samples[k].observedAt < from
      invariant forall k :: j <= k < |samples| ==> samples[k].observedAt >= from
    {
      var h := i + (j - i) / 2;
      if samples[h].observedAt >= from {
        j := h;
      } else {
        i := h + 1;
      }
    }
    SinceSplits(from, samples, i);
    return i;
  }

  method Decoded(batch: seq<Option<Sample>>, oldest: real, newest: real) returns (incoming: seq<Sample>)
    ensures incoming == Incoming(batch, oldest, newest)
  {
    incoming := [];
    var i := 0;
    while i < |batch|
      invariant 0 <= i <= |batch| && incoming == Incoming(batch[..i], oldest, newest)
    {
      assert batch[..i + 1][..i] == batch[..i];
      match batch[i] {
        case Some(sample) =>
          if sample.observedAt >= oldest && sample.observedAt <= newest { incoming := incoming + [sample]; }
        case None =>
      }
      i := i + 1;
    }
    assert batch[..i] == batch;
  }

  // Writes the samples over the merged map, one by one.
  method Overlay(merged: Timeline, samples: seq<Sample>) returns (r: Timeline)
    ensures r == merged + Latest(samples)
  {
    hide Latest;
    EmptyLatest();
    r := merged;
    var i := 0;
    while i < |samples|
      invariant 0 <= i <= |samples| && r == merged + Latest(samples[..i])
    {
      assert samples[..i + 1] == samples[..i] + [samples[i]];
      LatestAppend(samples[..i], samples[i]);
      r := r[samples[i].observedAt := samples[i]];
      i := i + 1;
    }
    assert samples[..i] == samples;
  }

  // The values of the merged map, in the arbitrary order in which the map is walked.
  method Listed(merged: Timeline) returns (samples: seq<Sample>)
    requires forall t :: t in merged ==> merged[t].observedAt == t
    ensures Sorting.Distinct(samples)
    ensures forall s :: s in samples <==> s.observedAt in merged && merged[s.observedAt] == s
  {
    samples := [];
    var todo := merged.Keys;
    while todo != {}
      invariant todo <= merged.Keys && Sorting.Distinct(samples)
      invariant forall s :: s in samples <==> s.observedAt in merged.Keys - todo && merged[s.observedAt] == s
      decreases |todo|
    {
      var t := AnyTime(todo);
      assert merged[t] !in samples;
      samples := samples + [merged[t]];
      todo := todo - {t};
    }
  }

  method AnyTime(todo: set<real>) returns (t: real)
    requires todo != {}
    ensures t in todo
  {
    ghost var member := AnyMember(todo);
    t :| t in todo;
  }

  lemma SortedValues(samples: seq<Sample>, merged: Timeline)
    requires Sorting.Distinct(samples)
    requires forall s :: s in samples <==> s.observedAt in merged && merged[s.observedAt] == s
    requires forall t :: t in merged ==> merged[t].observedAt == t
    ensures Increasing(Sorting.Stable(samples, Before)) && Latest(Sorting.Stable(samples, Before)) == merged
  {
    hide Latest;
    hide Sorting.Stable;
    var r := Sorting.Stable(samples, Before);
    Sorting.StableSorted(samples, Before);
    Sorting.StableDistinct(samples, Before);
    Sorting.SameElements(samples, Before);
    forall i, j | 0 <= i < j < |r| ensures r[i].observedAt < r[j].observedAt {
      assert !Before(r[j], r[i]);
      assert r[i] in samples && r[j] in samples;
    }
    LatestMembers(r);
    LatestOfIncreasing(r);
    forall t | t in Latest(r) ensures t in merged && Latest(r)[t] == merged[t] {
      assert Latest(r)[t] in samples;
    }
    forall t | t in merged ensures t in Latest(r) {
      assert merged[t] in samples;
    }
  }

  method SortedMerge(existing: seq<Sample>, incoming: seq<Sample>) returns (samples: seq<Sample>)
    requires incoming != []
    ensures Increasing(samples) && Latest(samples) == Latest(existing) + Latest(incoming) && samples != []
  {
    hide Latest;
    hide Sorting.Stable;
    var merged := Overlay(map[], existing);
    merged := Overlay(merged, incoming);
    OverlayFacts(existing, incoming);
    var listed := Listed(merged);
    samples := Sorting.Stable(listed, Before);
    SortedValues(listed, merged);
    EmptyLatest();
  }

  // Merge, sort and keep the newest.
  method Merge(existing: seq<Sample>, incoming: seq<Sample>) returns (samples: seq<Sample>)
    requires incoming != []
    ensures MergedHistory(samples, existing, incoming)
  {
    hide Latest;
    hide Newest;
    samples := SortedMerge(existing, incoming);
    MergedSize(samples, Latest(samples));
    if |samples| > MAX_PER_DEVICE {
      LastIsNewest(MAX_PER_DEVICE, samples);
      samples := samples[|samples| - MAX_PER_DEVICE..];
    }
  }

  lemma OverlayFacts(existing: seq<Sample>, incoming: seq<Sample>)
    requires incoming != []
    ensures var merged := Latest(existing) + Latest(incoming);
      (forall t :: t in merged ==> merged[t].observedAt == t) && incoming[0].observedAt in merged
  {
    LatestMembers(existing);
    LatestMembers(incoming);
    assert incoming[0] in incoming;
  }

  lemma MergedSize(samples: seq<Sample>, merged: Timeline)
    requires Increasing(samples) && Latest(samples) == merged
    ensures |samples| == |merged|
    ensures |samples| <= MAX_PER_DEVICE ==> Newest(MAX_PER_DEVICE, merged) == merged
  {
    hide Latest;
    LatestSize(samples);
    if |samples| <= MAX_PER_DEVICE { NothingThinned(MAX_PER_DEVICE, merged); }
  }

  // What store does to the histories that are left after pruning.
  ghost predicate StoreEffect(before: Series, after: Series, key: Key, incoming: seq<Sample>, merged: seq<Sample>,
                              victims: seq<Key>)
  {
    if incoming == [] then after == before && victims == []
    else
      && MergedHistory(merged, History(before, key), incoming)
      && Sound(before[key := merged])
      && Evictions(before[key := merged], victims)
      && after == Without(before[key := merged], victims)
  }

  lemma KeepOneLess(accepted: map<Key, Timeline>, victims: seq<Key>, victim: Key)
    ensures Kept(accepted, victims + [victim]) == Kept(accepted, victims) - {victim}
  {
  }

  lemma SumOfNone(series: Series)
    requires Sum(series) > 0
    ensures series != map[]
  {
  }

  lemma EvictOneMore(series: Series, victims: seq<Key>, victim: Key)
    requires Sound(series) && Evictions(series, victims) && Evictable(Without(series, victims), victim)
    ensures Evictions(series, victims + [victim])
    ensures Without(series, victims + [victim]) == Without(series, victims) - {victim}
  {
    hide Evictable;
    var all := victims + [victim];
    assert all[..|victims|] == victims;
    forall i | 0 <= i < |all| ensures Evictable(Without(series, all[..i]), all[i]) {
      if i < |victims| {
        assert all[..i] == victims[..i];
      }
    }
  }

  lemma CutTwice(limit: real, from: real, m: Timeline)
    requires limit <= from
    ensures Cut(from, Cut(limit, m)) == Cut(from, m)
  {
  }

  // The part of a pruned history at or after `from` is that part of the history before pruning.
  lemma ReadsPart(series: Series, key: Key, limit: real, from: real)
    requires Sound(series) && limit <= from
    ensures var samples := History(Pruned(series, limit), key);
      && Increasing(samples) && Increasing(Since(from, samples))
      && Latest(Since(from, samples)) == Cut(from, Latest(samples)) == Cut(from, Latest(History(series, key)))
  {
    hide Latest;
    hide Since;
    hide Cut;
    hide Pruned;
    var samples := History(Pruned(series, limit), key);
    PrunedHistory(series, limit, key);
    SinceIsCut(limit, History(series, key));
    SinceIsCut(from, samples);
    CutTwice(limit, from, Latest(History(series, key)));
  }

  lemma ReadsReference(series: Series, accepted: map<Key, Timeline>, limit: real, key: Key)
    requires Refines(series, accepted, limit)
    ensures Latest(History(series, key)) == Newest(MAX_PER_DEVICE, Cut(limit, AcceptedFor(accepted, key)))
  {
    assert RefinesAt(series, accepted, limit, key);
  }

  class MetricStore {
    var series: Series
    var total: int
    var armed: bool                            // a cleanup timer is set
    ghost var accepted: map<Key, Timeline>     // everything accepted for a device since its last eviction
    ghost var clock: real                      // the time of the last operation
    ghost var steady: bool                     // the clock has never gone back

    ghost predicate Consistent()
      reads this
    {
      Sound(series) && total == Sum(series)
    }

    ghost predicate Valid()
      reads this
    {
      && Consistent()
      && !Over(series)
      && (series != map[] ==> armed)
      && (steady ==> Refines(series, accepted, clock - RETENTION))
    }

    constructor (ghost created: real)
      ensures Valid() && series == map[] && accepted == map[] && clock == created && steady
    {
      series, total, armed := map[], 0, false;
      accepted, clock, steady := map[], created, true;
      new;
      NothingYet(clock - RETENTION);
    }

    method PruneLocked(now: real)
      requires Consistent()
      modifies this`series, this`total
      ensures Consistent() && series == Pruned(old(series), now - RETENTION)
    {
      hide Sum;
      hide Since;
      var oldest := now - RETENTION;
      var todo := series.Keys;
      while todo != {}
        invariant todo <= old(series.Keys) && Consistent()
        invariant forall k :: k in todo ==> k in series && series[k] == old(series)[k]
        invariant forall k :: k in series ==> k in old(series)
        invariant forall k :: k in old(series) && k !in todo ==> History(series, k) == Since(oldest, old(series)[k])
        decreases |todo|
      {
        var key :| key in todo;
        todo := todo - {key};
        PruneOne(key, oldest);
      }
    }

    // The body of the loop over all histories.
    method PruneOne(key: Key, oldest: real)
      requires Consistent() && key in series
      modifies this`series, this`total
      ensures Consistent() && History(series, key) == Since(oldest, old(series)[key])
      ensures forall k :: k != key ==> (k in series <==> k in old(series))
      ensures forall k :: k != key && k in series ==> series[k] == old(series)[k]
    {
      hide Sum;
      hide Since;
      var samples := series[key];
      assert SoundHistory(samples);
      var start := Search(samples, oldest);
      assert start == 0 ==> samples[start..] == samples;
      SumWithout(series, key);
      SumUpdate(series, key, samples[start..]);
      if start != 0 {
        total := total - start;
        if start == |samples| {
          series := series - {key};
        } else {
          series := series[key := samples[start..]];
        }
      }
    }

    // Under global pressure: the history whose newest sample is oldest goes.
    method EvictOldestLocked() returns (ghost victim: Key)
      requires Consistent() && series != map[]
      modifies this`series, this`total
      ensures Consistent() && victim in old(series) && series == old(series) - {victim}
      ensures forall k :: k in old(series) ==> NewestAt(old(series)[victim]) <= NewestAt(old(series)[k])
      ensures total < old(total)
    {
      var oldestKey := Key("", "");
      var oldest: Option<real> := None;
      var todo := series.Keys;
      while todo != {}
        invariant todo <= series.Keys
        invariant oldest.None? ==> todo == series.Keys
        invariant oldest.Some? ==> oldestKey in series && oldest.value == NewestAt(series[oldestKey])
        invariant oldest.Some? ==> forall k :: k in series && k !in todo ==> oldest.value <= NewestAt(series[k])
        decreases |todo|
      {
        var key :| key in todo;
        todo := todo - {key};
        var samples := series[key];
        assert SoundHistory(samples);
        var newest := samples[|samples| - 1].observedAt;
        if oldest.None? || newest < oldest.value {
          oldest, oldestKey := Some(newest), key;
        }
      }
      assert SoundHistory(series[oldestKey]);
      SumWithout(series, oldestKey);
      victim := oldestKey;
      total := total - |series[oldestKey]|;
      series := series - {oldestKey};
    }

    method ScheduleCleanupLocked()
      modifies this`armed
      ensures armed == (old(armed) || series != map[])
    {
      if |series| > 0 && !armed { armed := true; }
    }

    method Store(key: Key, raw: seq<Option<Sample>>, now: real)
        returns (count: nat, ghost merged: seq<Sample>, ghost victims: seq<Key>)
      requires Valid()
      modifies this
      ensures Valid()
      ensures count == |AcceptedItems(raw, now)|
      ensures key !in victims ==> Gains(AcceptedFor(old(accepted), key), AcceptedFor(accepted, key), raw, now)
      ensures forall k :: k != key && k !in victims ==> AcceptedFor(accepted, k) == AcceptedFor(old(accepted), k)
      ensures forall k :: k in victims ==> AcceptedFor(accepted, k) == map[]
      ensures StoreEffect(Pruned(old(series), now - RETENTION), series, key, AcceptedOf(raw, now), merged, victims)
      ensures accepted == Kept(Offered(old(accepted), key, AcceptedOf(raw, now)), victims)
      ensures clock == now && steady == (old(steady) && old(clock) <= now)
    {
      hide StoreEffect, Kept, Offered, Refines, Sound, Over, Gains, Pruned, Sum;
      var batch := raw[..if |raw| < MAX_BATCH then |raw| else MAX_BATCH];
      var incoming := Decoded(batch, now - RETENTION, now + FUTURE_SKEW);
      IncomingFrom(batch, now - RETENTION, now + FUTURE_SKEW);
      assert incoming == AcceptedOf(raw, now);
      count := |incoming|;
      merged, victims := StoreLocked(key, incoming, now);
      AcceptedExactly(raw, now, map[]);
      StoreGains(old(accepted), key, raw, now, victims);
    }

    method StoreLocked(key: Key, incoming: seq<Sample>, now: real) returns (ghost merged: seq<Sample>, ghost victims: seq<Key>)
      requires Valid() && AllFrom(now - RETENTION, incoming)
      modifies this
      ensures Valid()
      ensures StoreEffect(Pruned(old(series), now - RETENTION), series, key, incoming, merged, victims)
      ensures accepted == Kept(Offered(old(accepted), key, incoming), victims)
      ensures clock == now && steady == (old(steady) && old(clock) <= now)
    {
      hide StoreEffect, Pruned, Kept, Offered, Refines, Sound, Over, AllFrom;
      PruneLocked(now);
      Passed(now, old(series));
      merged, victims := AdmitLocked(key, incoming);
      ScheduleCleanupLocked();
    }

    // Merges the batch into the device's history.
    method InsertLocked(key: Key, incoming: seq<Sample>) returns (samples: seq<Sample>)
      requires Consistent() && incoming != []
      modifies this`series, this`total, this`accepted
      ensures Consistent() && series == old(series)[key := samples] && MergedHistory(samples, History(old(series), key), incoming)
      ensures accepted == Offered(old(accepted), key, incoming)
      ensures forall limit :: Refines(old(series), old(accepted), limit) && AllFrom(limit, incoming) ==> Refines(series, accepted, limit)
    {
      var existing := if key in series then series[key] else [];
      samples := Merge(existing, incoming);
      forall limit | Refines(series, accepted, limit) && AllFrom(limit, incoming)
        ensures Refines(series[key := samples], Offered(accepted, key, incoming), limit)
      {
        MergeRefines(series, accepted, limit, key, incoming, samples);
      }
      SumUpdate(series, key, samples);
      total := total + |samples| - |existing|;
      series := series[key := samples];
      accepted := Offered(accepted, key, incoming);
    }

    // Evicts until both caps hold; every eviction lowers the total.
    method MakeRoomLocked() returns (ghost victims: seq<Key>)
      requires Consistent()
      modifies this`series, this`total, this`accepted
      ensures Consistent() && !Over(series)
      ensures Evictions(old(series), victims) && series == Without(old(series), victims)
      ensures accepted == Kept(old(accepted), victims)
      ensures forall limit :: Refines(old(series), old(accepted), limit) ==> Refines(series, accepted, limit)
    {
      hide Refines;
      hide Sum;
      victims := [];
      while total > MAX_TOTAL || |series| > MAX_DEVICES
        invariant Consistent() && Evictions(old(series), victims) && series == Without(old(series), victims)
        invariant accepted == Kept(old(accepted), victims)
        decreases total
      {
        hide Without;
        hide Evictions;
        hide Kept;
        if total > MAX_TOTAL { SumOfNone(series); }
        var victim := EvictOldestLocked();
        EvictOneMore(old(series), victims, victim);
        KeepOneLess(old(accepted), victims, victim);
        accepted := accepted - {victim};
        victims := victims + [victim];
      }
      forall limit | Refines(old(series), old(accepted), limit) ensures Refines(series, accepted, limit) {
        EvictRefines(old(series), old(accepted), limit, victims);
      }
    }

    method AdmitLocked(key: Key, incoming: seq<Sample>) returns (ghost merged: seq<Sample>, ghost victims: seq<Key>)
      requires Consistent() && !Over(series)
      modifies this`series, this`total, this`accepted
      ensures Consistent() && !Over(series)
      ensures StoreEffect(old(series), series, key, incoming, merged, victims)
      ensures accepted == Kept(Offered(old(accepted), key, incoming), victims)
      ensures forall limit :: Refines(old(series), old(accepted), limit) && AllFrom(limit, incoming) ==> Refines(series, accepted, limit)
    {
      merged, victims := [], [];
      assert Kept(accepted, []) == accepted;
      if |incoming| > 0 {
        hide Sum;
        hide Without;
        hide Evictions;
        hide Kept;
        hide Latest;
        hide Refines;
        merged := InsertLocked(key, incoming);
        victims := MakeRoomLocked();
      }
    }

    method Read(key: Key, since: real, now: real) returns (result: seq<Sample>)
      requires Valid()
      modifies this
      ensures Valid() && accepted == old(accepted)
      ensures series == Pruned(old(series), now - RETENTION)
      ensures clock == now && steady == (old(steady) && old(clock) <= now)
      ensures Increasing(result)
      ensures var from := if since > now - RETENTION then since else now - RETENTION;
        && Latest(result) == Cut(from, Latest(History(old(series), key)))
        && (steady ==> Latest(result) == Cut(from, Newest(MAX_PER_DEVICE, Cut(now - RETENTION, AcceptedFor(accepted, key)))))
    {
      hide Sum, Latest, Newest, Cut, Pruned, Since, Over, Refines, AcceptedFor;
      PruneLocked(now);
      Passed(now, old(series));
      var from := if since > now - RETENTION then since else now - RETENTION;
      result := Tail(key, from);
      ReadsPart(old(series), key, now - RETENTION, from);
      if steady { ReadsReference(series, accepted, now - RETENTION, key); }
    }

    // The stored samples of a device from a time on.
    method Tail(key: Key, from: real) returns (result: seq<Sample>)
      requires Consistent()
      ensures result == Since(from, History(series, key))
    {
      hide Sum, Since;
      var samples := if key in series then series[key] else [];
      var start := Search(samples, from);
      result := samples[start..];
    }

    method Cleanup(now: real)
      requires Valid()
      modifies this
      ensures Valid() && accepted == old(accepted)
      ensures series == Pruned(old(series), now - RETENTION) && armed == (series != map[])
      ensures clock == now && steady == (old(steady) && old(clock) <= now)
    {
      hide Sum;
      hide Latest;
      hide Newest;
      hide Cut;
      hide Pruned;
      armed := false;
      PruneLocked(now);
      Passed(now, old(series));
      ScheduleCleanupLocked();
    }

    // The clock moves on to `now`, at which the histories were just pruned.
    ghost method Passed(now: real, before: Series)
      requires Sound(before) && series == Pruned(before, now - RETENTION)
      requires steady ==> Refines(before, accepted, clock - RETENTION)
      requires !Over(before)
      modifies this`clock, this`steady
      ensures clock == now && steady == (old(steady) && old(clock) <= now)
      ensures !Over(series) && (steady ==> Refines(series, accepted, now - RETENTION))
      ensures series != map[] ==> before != map[]
    {
      hide Latest;
      hide Newest;
      hide Cut;
      hide Pruned;
      hide Sum;
      PruneShrinks(before, now - RETENTION);
      if steady && clock <= now { PruneRefines(before, accepted, clock - RETENTION, now - RETENTION); }
      steady := steady && clock <= now;
      clock := now;
    }
  }

  // ------------------------------------------------------------------ storing and reading back

  // An entry survives thinning and expiry exactly if it is late enough and has fewer than n newer ones.
  lemma SurvivesExactly(n: nat, all: Timeline, limit: real, from: real, t: real)
    requires limit <= from
    ensures t in Cut(from, Newest(n, Cut(limit, all))) <==> t in all && t >= from && |Above(t, all.Keys)| < n
  {
    if t in all && t >= from { assert Above(t, Cut(limit, all).Keys) == Above(t, all.Keys); }
  }

  lemma InSorted(s: seq<Sample>, sample: Sample)
    requires Increasing(s)
    ensures sample in s <==> sample.observedAt in Latest(s) && Latest(s)[sample.observedAt] == sample
  {
    LatestMembers(s);
    LatestOfIncreasing(s);
    hide Latest;
  }

  // A device that sends a message and is then asked for: of each time the last accepted item comes back, exactly unless
  // its history was evicted or thinned by 3000 newer samples.
  method StoreThenRead(store: MetricStore, key: Key, raw: seq<Option<Sample>>, since: real, now: real)
      returns (result: seq<Sample>, ghost victims: seq<Key>)
    requires store.Valid() && store.steady && store.clock <= now
    modifies store
    ensures forall i: nat :: AcceptsLast(raw, now, i) && raw[i].value.observedAt >= since ==>
      (raw[i].value in result <==>
        key !in victims && |Above(raw[i].value.observedAt, AcceptedFor(store.accepted, key).Keys)| < 3000)
  {
    hide Latest, Newest, Cut, Gains, AcceptedFor, Pruned, Kept, Offered, StoreEffect;
    var count;
    ghost var merged;
    count, merged, victims := store.Store(key, raw, now);
    ghost var all := AcceptedFor(store.accepted, key);
    result := store.Read(key, since, now);
    ghost var from := if since > now - RETENTION then since else now - RETENTION;
    forall i: nat | AcceptsLast(raw, now, i) && raw[i].value.observedAt >= since
      ensures raw[i].value in result <==> key !in victims && |Above(raw[i].value.observedAt, all.Keys)| < 3000
    {
      InSorted(result, raw[i].value);
      ReadBack(all, now - RETENTION, from, raw[i].value.observedAt);
      if key !in victims { GainedItem(AcceptedFor(old(store.accepted), key), all, raw, now, i); }
    }
  }

  lemma GainedItem(before: Timeline, after: Timeline, raw: seq<Option<Sample>>, now: real, i: nat)
    requires Gains(before, after, raw, now) && AcceptsLast(raw, now, i)
    ensures raw[i].value.observedAt in after && after[raw[i].value.observedAt] == raw[i].value
  {
  }

  lemma ReadBack(all: Timeline, limit: real, from: real, t: real)
    requires limit <= from
    ensures var read := Cut(from, Newest(MAX_PER_DEVICE, Cut(limit, all)));
      && (t in read <==> t in all && t >= from && |Above(t, all.Keys)| < 3000)
      && (t in read ==> read[t] == all[t])
  {
    SurvivesExactly(MAX_PER_DEVICE, all, limit, from, t);
  }
}
