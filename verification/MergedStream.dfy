/** Reading recorded messages back: each split file is filtered and stably sorted by stamp and topic,
    and the splits are merged.  Merging is shown to be the same as reading one file that holds all
    the splits' records one after the other. */
module MergedStream {
  import opened Sequences
  import opened Wrappers

  /** A deserialised record; the header stamp may be missing. */
  datatype Record<T> = Record(topic: string, typeName: string, stamp: Option<Stamp>, logTimeNs: int, body: T)

  datatype Stamp = Stamp(sec: int, nanosec: int)

  datatype TimedMessage<T> = TimedMessage(stampNs: int, topic: string, typeName: string, body: T, logTimeNs: int)

  /** Messages are ordered by stamp and then by topic. */
  datatype Key = Key(stampNs: int, topic: string)

  function KeyOf<T>(m: TimedMessage<T>): Key {
    Key(m.stampNs, m.topic)
  }

  /** Character by character, a proper prefix first. */
  predicate TopicAtMost(a: string, b: string) {
    if a == [] then true
    else if b == [] then false
    else if a[0] == b[0] then TopicAtMost(a[1..], b[1..])
    else a[0] < b[0]
  }

  predicate AtMost(a: Key, b: Key) {
    a.stampNs < b.stampNs || (a.stampNs == b.stampNs && TopicAtMost(a.topic, b.topic))
  }

  lemma {:induction false} TopicOrder(a: string, b: string, c: string)
    ensures TopicAtMost(a, b) || TopicAtMost(b, a)
    ensures TopicAtMost(a, b) && TopicAtMost(b, a) ==> a == b
    ensures TopicAtMost(a, b) && TopicAtMost(b, c) ==> TopicAtMost(a, c)
  {
    if a != [] && b != [] {
      TopicOrder(a[1..], b[1..], if c == [] then [] else c[1..]);
    }
  }

  /** The keys are totally ordered. */
  lemma KeyOrder(a: Key, b: Key, c: Key)
    ensures AtMost(a, b) || AtMost(b, a)
    ensures AtMost(a, b) && AtMost(b, a) ==> a == b
    ensures AtMost(a, b) && AtMost(b, c) ==> AtMost(a, c)
  {
    TopicOrder(a.topic, b.topic, c.topic);
  }

  // -------- sorting by key, stably

  ghost predicate Sorted<T>(s: seq<TimedMessage<T>>) {
    forall i, j :: 0 <= i < j < |s| ==> AtMost(KeyOf(s[i]), KeyOf(s[j]))
  }

  function HasKey<T>(k: Key): TimedMessage<T> -> bool {
    (m: TimedMessage<T>) => KeyOf(m) == k
  }

  /** The messages with one key, in order. */
  function WithKey<T>(s: seq<TimedMessage<T>>, k: Key): seq<TimedMessage<T>> {
    Filter(s, HasKey(k))
  }

  /** a is ordered, and messages with equal keys are in b's order. */
  ghost predicate IsStableSortOf<T>(a: seq<TimedMessage<T>>, b: seq<TimedMessage<T>>) {
    Sorted(a) && forall k :: WithKey(a, k) == WithKey(b, k)
  }

  lemma WithKeyNonempty<T>(s: seq<TimedMessage<T>>, m: TimedMessage<T>)
    ensures m in s <==> m in WithKey(s, KeyOf(m))
  {
    FilterMembers(s, HasKey(KeyOf(m)));
  }

  lemma WithKeyTail<T>(s: seq<TimedMessage<T>>, k: Key)
    requires s != []
    ensures WithKey(s[1..], k) == if KeyOf(s[0]) == k then WithKey(s, k)[1..] else WithKey(s, k)
  {
  }

  /** There is only one stable sort. */
  lemma {:induction false} StableSortIsUnique<T>(a: seq<TimedMessage<T>>, b: seq<TimedMessage<T>>)
    requires Sorted(a) && Sorted(b) && forall k :: WithKey(a, k) == WithKey(b, k)
    ensures a == b
  {
    if a == [] {
      if b != [] {
        assert WithKey(a, KeyOf(b[0])) == WithKey(b, KeyOf(b[0]));
        WithKeyNonempty(b, b[0]);
      }
    } else {
      WithKeyNonempty(a, a[0]);
      assert b != [] by { WithKeyNonempty(b, a[0]); }
      SameHead(a, b);
      forall k ensures WithKey(a[1..], k) == WithKey(b[1..], k) {
        assert WithKey(a, k) == WithKey(b, k);
        WithKeyTail(a, k);
        WithKeyTail(b, k);
      }
      StableSortIsUnique(a[1..], b[1..]);
      assert a == [a[0]] + a[1..] && b == [b[0]] + b[1..];
    }
  }

  lemma SameHead<T>(a: seq<TimedMessage<T>>, b: seq<TimedMessage<T>>)
    requires a != [] && b != [] && Sorted(a) && Sorted(b) && forall k :: WithKey(a, k) == WithKey(b, k)
    ensures a[0] == b[0]
  {
    var ka, kb := KeyOf(a[0]), KeyOf(b[0]);
    WithKeyNonempty(a, a[0]);
    WithKeyNonempty(b, a[0]);
    WithKeyNonempty(b, b[0]);
    WithKeyNonempty(a, b[0]);
    assert WithKey(a, ka) == WithKey(b, ka) && WithKey(a, kb) == WithKey(b, kb);
    var i :| 0 <= i < |b| && b[i] == a[0];
    var j :| 0 <= j < |a| && a[j] == b[0];
    KeyOrder(ka, kb, ka);
    KeyOrder(ka, ka, ka);
    assert WithKey(a, ka)[0] == a[0] && WithKey(b, ka)[0] == b[0];
  }

  /** Before the first message with a greater key. */
  function Insert<T>(m: TimedMessage<T>, s: seq<TimedMessage<T>>): seq<TimedMessage<T>> {
    if s == [] then [m]
    else if AtMost(KeyOf(s[0]), KeyOf(m)) then [s[0]] + Insert(m, s[1..])
    else [m] + s
  }

  /** Python's list.sort with the message's key. */
  function StableSort<T>(s: seq<TimedMessage<T>>): seq<TimedMessage<T>>
    decreases |s|
  {
    if s == [] then [] else Insert(s[|s| - 1], StableSort(s[..|s| - 1]))
  }

  ghost predicate AllFrom<T>(m: TimedMessage<T>, s: seq<TimedMessage<T>>) {
    forall x :: x in s ==> AtMost(KeyOf(m), KeyOf(x))
  }

  lemma SortedCons<T>(m: TimedMessage<T>, s: seq<TimedMessage<T>>)
    ensures Sorted([m] + s) <==> Sorted(s) && AllFrom(m, s)
  {
    var all := [m] + s;
    assert forall i :: 0 <= i < |s| ==> s[i] == all[i + 1] && s[i] in s;
    if Sorted(all) {
      forall x | x in s ensures AtMost(KeyOf(m), KeyOf(x)) {
        var i :| 0 <= i < |s| && s[i] == x;
        assert AtMost(KeyOf(all[0]), KeyOf(all[i + 1]));
      }
      forall i, j | 0 <= i < j < |s| ensures AtMost(KeyOf(s[i]), KeyOf(s[j])) {
        assert AtMost(KeyOf(all[i + 1]), KeyOf(all[j + 1]));
      }
    }
  }

  lemma {:induction false} InsertMembers<T>(m: TimedMessage<T>, s: seq<TimedMessage<T>>)
    ensures multiset(Insert(m, s)) == multiset(s) + multiset{m}
    ensures forall x :: x in Insert(m, s) <==> x == m || x in s
  {
    if s != [] && AtMost(KeyOf(s[0]), KeyOf(m)) {
      InsertMembers(m, s[1..]);
    }
    assert s != [] ==> s == [s[0]] + s[1..];
  }

  lemma {:induction false} InsertSorts<T>(m: TimedMessage<T>, s: seq<TimedMessage<T>>)
    requires Sorted(s)
    ensures Sorted(Insert(m, s))
  {
    hide Sorted;
    if s == [] {
      SortedCons(m, s);
      assert [m] + s == [m];
      assert Sorted(s);
    } else {
      var tail := s[1..];
      assert s == [s[0]] + tail;
      SortedCons(s[0], tail);
      if AtMost(KeyOf(s[0]), KeyOf(m)) {
        InsertSorts(m, tail);
        InsertMembers(m, tail);
        assert AllFrom(s[0], Insert(m, tail));
        SortedCons(s[0], Insert(m, tail));
      } else {
        FrontSmallest(m, s);
        SortedCons(m, s);
      }
    }
  }

  /** What comes before the head of a sorted sequence comes before all of it, and strictly. */
  lemma FrontSmallest<T>(m: TimedMessage<T>, s: seq<TimedMessage<T>>)
    requires Sorted(s) && s != [] && !AtMost(KeyOf(s[0]), KeyOf(m))
    ensures AllFrom(m, s) && WithKey(s, KeyOf(m)) == []
  {
    forall i | 0 <= i < |s|
      ensures AtMost(KeyOf(m), KeyOf(s[i])) && KeyOf(s[i]) != KeyOf(m)
    {
      KeyOrder(KeyOf(m), KeyOf(s[0]), KeyOf(s[i]));
      KeyOrder(KeyOf(s[0]), KeyOf(s[i]), KeyOf(m));
    }
    FilterNone(s, HasKey(KeyOf(m)));
  }

  lemma {:induction false} InsertStable<T>(m: TimedMessage<T>, s: seq<TimedMessage<T>>, k: Key)
    requires Sorted(s)
    ensures WithKey(Insert(m, s), k) == WithKey(s + [m], k)
  {
    if s == [] {
      assert s + [m] == [m];
    } else if AtMost(KeyOf(s[0]), KeyOf(m)) {
      InsertStable(m, s[1..], k);
      FilterConcat([s[0]], Insert(m, s[1..]), HasKey(k));
      FilterConcat([s[0]], s[1..] + [m], HasKey(k));
      assert s + [m] == [s[0]] + (s[1..] + [m]);
    } else {
      FrontSmallest(m, s);
      FilterConcat([m], s, HasKey(k));
      FilterConcat(s, [m], HasKey(k));
      if k != KeyOf(m) {
        FilterNone([m], HasKey(k));
      }
    }
  }

  /** list.sort orders the messages, keeps each of them, and keeps equal keys in order. */
  lemma {:induction false} StableSortSorts<T>(s: seq<TimedMessage<T>>)
    ensures IsStableSortOf(StableSort(s), s) && multiset(StableSort(s)) == multiset(s)
    decreases |s|
  {
    hide Sorted, WithKey;
    if s == [] {
      assert Sorted(s) by { EmptySorted(s); }
    } else {
      var m, front := s[|s| - 1], s[..|s| - 1];
      assert s == front + [m];
      StableSortSorts(front);
      InsertSorts(m, StableSort(front));
      InsertMembers(m, StableSort(front));
      forall k ensures WithKey(StableSort(s), k) == WithKey(s, k) {
        InsertStable(m, StableSort(front), k);
        WithKeyConcat(StableSort(front), [m], k);
        WithKeyConcat(front, [m], k);
      }
    }
  }

  lemma EmptySorted<T>(s: seq<TimedMessage<T>>)
    requires s == []
    ensures Sorted(s)
  {
  }

  lemma WithKeyConcat<T>(a: seq<TimedMessage<T>>, b: seq<TimedMessage<T>>, k: Key)
    ensures WithKey(a + b, k) == WithKey(a, k) + WithKey(b, k)
  {
    FilterConcat(a, b, HasKey(k));
  }

  // -------- merging

  function Flatten<X>(parts: seq<seq<X>>): seq<X> {
    if parts == [] then [] else parts[0] + Flatten(parts[1..])
  }

  /** The first of the streams whose heads have the least key, or |streams| if all are empty. */
  function LeastHead<T>(streams: seq<seq<TimedMessage<T>>>): (i: nat)
    ensures i <= |streams| && (i < |streams| ==> streams[i] != [])
  {
    if streams == [] then 0
    else
      var i := LeastHead(streams[1..]);
      if streams[0] == [] then i + 1
      else if i == |streams| - 1 || AtMost(KeyOf(streams[0][0]), KeyOf(streams[1..][i][0])) then 0
      else i + 1
  }

  /** heapq.merge: again and again the least head, ties going to the earlier stream. */
  function Merge<T>(streams: seq<seq<TimedMessage<T>>>): seq<TimedMessage<T>>
    decreases |Flatten(streams)|
  {
    var i := LeastHead(streams);
    if i == |streams| then []
    else
      TakeShrinks(streams, i);
      [streams[i][0]] + Merge(streams[i := streams[i][1..]])
  }

  lemma FlattenSplit<X>(parts: seq<seq<X>>, i: nat)
    requires i < |parts|
    ensures Flatten(parts) == Flatten(parts[..i]) + parts[i] + Flatten(parts[i + 1..])
  {
    if i == 0 {
      assert Flatten(parts[..0]) == [];
    } else {
      var tail := parts[1..];
      FlattenSplit(tail, i - 1);
      assert parts[..i][1..] == tail[..i - 1] && parts[i + 1..] == tail[i..];
      Associative(parts[0], Flatten(tail[..i - 1]), parts[i], Flatten(tail[i..]));
    }
  }

  lemma Associative<X>(a: seq<X>, b: seq<X>, c: seq<X>, d: seq<X>)
    ensures a + (b + c + d) == (a + b) + c + d
  {
  }

  lemma TakeShrinks<T>(streams: seq<seq<TimedMessage<T>>>, i: nat)
    requires i < |streams| && streams[i] != []
    ensures |Flatten(streams)| == |Flatten(streams[i := streams[i][1..]])| + 1
  {
    var rest := streams[i := streams[i][1..]];
    FlattenSplit(streams, i);
    FlattenSplit(rest, i);
    assert rest[..i] == streams[..i] && rest[i + 1..] == streams[i + 1..];
  }

  /** The chosen head is least, and strictly less than the heads of the earlier streams. */
  lemma {:induction false} LeastHeadLaw<T>(streams: seq<seq<TimedMessage<T>>>)
    ensures var i := LeastHead(streams);
            && (i == |streams| ==> forall j :: 0 <= j < |streams| ==> streams[j] == [])
            && (i < |streams| ==> forall j :: 0 <= j < |streams| && streams[j] != [] ==>
                  && AtMost(KeyOf(streams[i][0]), KeyOf(streams[j][0]))
                  && (j < i ==> !AtMost(KeyOf(streams[j][0]), KeyOf(streams[i][0]))))
  {
    if streams != [] {
      var tail := streams[1..];
      LeastHeadLaw(tail);
      var i := LeastHead(tail);
      assert forall j :: 0 < j < |streams| ==> streams[j] == tail[j - 1];
      if streams[0] != [] {
        var k0 := KeyOf(streams[0][0]);
        KeyOrder(k0, k0, k0);
        if i < |tail| {
          var ki := KeyOf(tail[i][0]);
          KeyOrder(k0, ki, k0);
          forall j | 0 <= j < |tail| && tail[j] != []
            ensures AtMost(k0, ki) ==> AtMost(k0, KeyOf(tail[j][0]))
          {
            KeyOrder(k0, ki, KeyOf(tail[j][0]));
          }
        }
      }
    }
  }

  lemma {:induction false} FlattenMembers<X>(parts: seq<seq<X>>, x: X)
    ensures x in Flatten(parts) <==> exists j :: 0 <= j < |parts| && x in parts[j]
  {
    if parts != [] {
      FlattenMembers(parts[1..], x);
      assert forall j :: 0 < j < |parts| ==> parts[j] == parts[1..][j - 1];
    }
  }

  ghost predicate AllSorted<T>(streams: seq<seq<TimedMessage<T>>>) {
    forall j :: 0 <= j < |streams| ==> Sorted(streams[j])
  }

  lemma ChosenIsLeast<T>(streams: seq<seq<TimedMessage<T>>>)
    requires AllSorted(streams) && LeastHead(streams) < |streams|
    ensures var i := LeastHead(streams);
            && AllFrom(streams[i][0], Flatten(streams))
            && WithKey(Flatten(streams[..i]), KeyOf(streams[i][0])) == []
  {
    LeastHeadLaw(streams);
    var i := LeastHead(streams);
    var m := streams[i][0];
    forall j | 0 <= j < |streams|
      ensures AllFrom(m, streams[j]) && (j < i ==> WithKey(streams[j], KeyOf(m)) == [])
    {
      HeadFirst(m, streams[j]);
      if j < i && streams[j] != [] {
        FrontSmallest(m, streams[j]);
      }
    }
    forall x | x in Flatten(streams) ensures AtMost(KeyOf(m), KeyOf(x)) {
      FlattenMembers(streams, x);
    }
    NoneBefore(streams[..i], KeyOf(m));
  }

  lemma HeadFirst<T>(m: TimedMessage<T>, s: seq<TimedMessage<T>>)
    requires Sorted(s) && (s != [] ==> AtMost(KeyOf(m), KeyOf(s[0])))
    ensures AllFrom(m, s)
  {
    forall i | 0 <= i < |s| ensures AtMost(KeyOf(m), KeyOf(s[i])) {
      KeyOrder(KeyOf(m), KeyOf(s[0]), KeyOf(s[i]));
    }
  }

  lemma {:induction false} NoneBefore<T>(streams: seq<seq<TimedMessage<T>>>, k: Key)
    requires forall j :: 0 <= j < |streams| ==> WithKey(streams[j], k) == []
    ensures WithKey(Flatten(streams), k) == []
  {
    if streams != [] {
      NoneBefore(streams[1..], k);
      WithKeyConcat(streams[0], Flatten(streams[1..]), k);
    }
  }

  /** Taking the chosen head out of the streams takes it out of the front of its key's messages. */
  lemma TakeKeeps<T>(streams: seq<seq<TimedMessage<T>>>, k: Key)
    requires AllSorted(streams) && LeastHead(streams) < |streams|
    ensures var i := LeastHead(streams);
            var m, rest := streams[i][0], streams[i := streams[i][1..]];
            && AllSorted(rest)
            && multiset(Flatten(streams)) == multiset{m} + multiset(Flatten(rest))
            && WithKey(Flatten(streams), k) == WithKey([m], k) + WithKey(Flatten(rest), k)
  {
    var i := LeastHead(streams);
    var m, tail, rest := streams[i][0], streams[i][1..], streams[i := streams[i][1..]];
    var before, after := Flatten(streams[..i]), Flatten(streams[i + 1..]);
    FlattenSplit(streams, i);
    FlattenSplit(rest, i);
    assert rest[..i] == streams[..i] && rest[i + 1..] == streams[i + 1..];
    assert streams[i] == [m] + tail;
    ChosenIsLeast(streams);
    TakeFromMiddle(before, m, tail, after, k);
  }

  lemma TakeFromMiddle<T>(before: seq<TimedMessage<T>>, m: TimedMessage<T>, tail: seq<TimedMessage<T>>, after: seq<TimedMessage<T>>, k: Key)
    requires WithKey(before, KeyOf(m)) == []
    ensures WithKey(before + ([m] + tail) + after, k) == WithKey([m], k) + WithKey(before + tail + after, k)
  {
    WithKeyConcat(before + ([m] + tail), after, k);
    WithKeyConcat(before, [m] + tail, k);
    WithKeyConcat([m], tail, k);
    WithKeyConcat(before + tail, after, k);
    WithKeyConcat(before, tail, k);
    if k != KeyOf(m) {
      FilterNone([m], HasKey(k));
    }
  }

  /** The merge of sorted streams is the stable sort of the streams one after the other. */
  lemma {:induction false} MergeIsStableSort<T>(streams: seq<seq<TimedMessage<T>>>)
    requires AllSorted(streams)
    ensures IsStableSortOf(Merge(streams), Flatten(streams))
    ensures multiset(Merge(streams)) == multiset(Flatten(streams))
    decreases |Flatten(streams)|
  {
    hide Sorted, WithKey, AllSorted;
    var i := LeastHead(streams);
    LeastHeadLaw(streams);
    if i == |streams| {
      EmptySorted(Merge(streams));
      assert Flatten(streams) == [] by { FlattenEmpty(streams); }
    } else {
      var m, rest := streams[i][0], streams[i := streams[i][1..]];
      TakeKeeps(streams, KeyOf(m));
      TakeShrinks(streams, i);
      MergeIsStableSort(rest);
      ChosenIsLeast(streams);
      assert AllFrom(m, Merge(rest)) by { assert forall x :: x in Merge(rest) ==> x in multiset(Flatten(streams)); }
      SortedCons(m, Merge(rest));
      forall k ensures WithKey(Merge(streams), k) == WithKey(Flatten(streams), k) {
        TakeKeeps(streams, k);
        WithKeyConcat([m], Merge(rest), k);
      }
    }
  }

  lemma {:induction false} FlattenEmpty<X>(parts: seq<seq<X>>)
    requires forall j :: 0 <= j < |parts| ==> parts[j] == []
    ensures Flatten(parts) == []
  {
    if parts != [] {
      FlattenEmpty(parts[1..]);
    }
  }

  // -------- reading one split, and several

  /** topics and range are optional filters; an empty list of topics filters nothing, and the end of
      the range is exclusive. */
  datatype Query = Query(topics: Option<seq<string>>, range: Option<(int, int)>)

  function StampNs(stamp: Stamp): int {
    stamp.sec * 1000000000 + stamp.nanosec
  }

  predicate WantsTopic(q: Query, topic: string) {
    q.topics == None || q.topics.value == [] || topic in q.topics.value
  }

  predicate Wants<T>(q: Query, rec: Record<T>) {
    && WantsTopic(q, rec.topic)
    && rec.stamp.Some?
    && (q.range.Some? ==> q.range.value.0 <= StampNs(rec.stamp.value) < q.range.value.1)
  }

  function Timed<T>(rec: Record<T>): TimedMessage<T>
    requires rec.stamp.Some?
  {
    TimedMessage(StampNs(rec.stamp.value), rec.topic, rec.typeName, rec.body, rec.logTimeNs)
  }

  /** The messages of the wanted records, in recorded order. */
  function Wanted<T>(q: Query, records: seq<Record<T>>): seq<TimedMessage<T>> {
    if records == [] then []
    else (if Wants(q, records[0]) then [Timed(records[0])] else []) + Wanted(q, records[1..])
  }

  lemma {:induction false} WantedConcat<T>(q: Query, a: seq<Record<T>>, b: seq<Record<T>>)
    ensures Wanted(q, a + b) == Wanted(q, a) + Wanted(q, b)
  {
    if a == [] {
      assert a + b == b;
    } else {
      WantedConcat(q, a[1..], b);
      assert (a + b)[1..] == a[1..] + b;
      var first := if Wants(q, a[0]) then [Timed(a[0])] else [];
      assert (first + Wanted(q, a[1..])) + Wanted(q, b) == first + (Wanted(q, a[1..]) + Wanted(q, b));
    }
  }

  /** What reading one split yields. */
  function SplitMessages<T>(q: Query, records: seq<Record<T>>): seq<TimedMessage<T>> {
    StableSort(Wanted(q, records))
  }

  method IterSplitMessages<T>(q: Query, records: seq<Record<T>>) returns (buffered: seq<TimedMessage<T>>)
    ensures buffered == SplitMessages(q, records)
  {
    buffered := [];
    var i := 0;
    while i < |records|
      invariant 0 <= i <= |records|
      invariant buffered == Wanted(q, records[..i])
    {
      var rec := records[i];
      i := i + 1;
      assert records[..i] == records[..i - 1] + [rec];
      WantedConcat(q, records[..i - 1], [rec]);
      if !WantsTopic(q, rec.topic) || rec.stamp == None {
        continue;
      }
      var stampNs := rec.stamp.value.sec * 1000000000 + rec.stamp.value.nanosec;
      if q.range.Some? && stampNs < q.range.value.0 {
        continue;
      }
      if q.range.Some? && stampNs >= q.range.value.1 {
        continue;
      }
      buffered := buffered + [TimedMessage(stampNs, rec.topic, rec.typeName, rec.body, rec.logTimeNs)];
    }
    assert records[..i] == records;
    buffered := StableSort(buffered);
  }

  function Streams<T>(q: Query, splits: seq<seq<Record<T>>>): seq<seq<TimedMessage<T>>> {
    if splits == [] then [] else [SplitMessages(q, splits[0])] + Streams(q, splits[1..])
  }

  function MergeSplitStreams<T>(q: Query, splits: seq<seq<Record<T>>>): seq<TimedMessage<T>> {
    Merge(Streams(q, splits))
  }

  lemma {:induction false} StreamsSorted<T>(q: Query, splits: seq<seq<Record<T>>>)
    ensures AllSorted(Streams(q, splits))
  {
    hide Sorted;
    if splits != [] {
      StreamsSorted(q, splits[1..]);
      StableSortSorts(Wanted(q, splits[0]));
    }
  }

  lemma {:induction false} StreamsKeepKeys<T>(q: Query, splits: seq<seq<Record<T>>>, k: Key)
    ensures WithKey(Flatten(Streams(q, splits)), k) == WithKey(Wanted(q, Flatten(splits)), k)
  {
    hide WithKey;
    if splits != [] {
      var rest := splits[1..];
      StreamsKeepKeys(q, rest, k);
      StableSortSorts(Wanted(q, splits[0]));
      WantedConcat(q, splits[0], Flatten(rest));
      WithKeyConcat(SplitMessages(q, splits[0]), Flatten(Streams(q, rest)), k);
      WithKeyConcat(Wanted(q, splits[0]), Wanted(q, Flatten(rest)), k);
      assert Streams(q, splits)[1..] == Streams(q, rest);
    }
  }

  /** The main theorem: merging the splits gives exactly what one file with all their records in
      split order would give: the stable sort, by stamp and topic, of the wanted messages.  So equal
      keys come out by split and then by position within the split, and no message is lost or
      doubled. */
  lemma MergeIsOneFile<T>(q: Query, splits: seq<seq<Record<T>>>)
    ensures MergeSplitStreams(q, splits) == SplitMessages(q, Flatten(splits))
    ensures IsStableSortOf(MergeSplitStreams(q, splits), Wanted(q, Flatten(splits)))
    ensures multiset(MergeSplitStreams(q, splits)) == multiset(Wanted(q, Flatten(splits)))
  {
    var streams, all := Streams(q, splits), Wanted(q, Flatten(splits));
    StreamsSorted(q, splits);
    MergeIsStableSort(streams);
    StableSortSorts(all);
    hide Sorted, WithKey, AllSorted, Merge, StableSort;
    forall k ensures WithKey(Merge(streams), k) == WithKey(StableSort(all), k) {
      StreamsKeepKeys(q, splits, k);
      assert WithKey(Merge(streams), k) == WithKey(Flatten(streams), k);
      assert WithKey(StableSort(all), k) == WithKey(all, k);
    }
    StableSortIsUnique(Merge(streams), StableSort(all));
  }

  /** Nothing but the wanted records' messages is yielded, and each of them is. */
  lemma {:induction false} WantedMembers<T>(q: Query, records: seq<Record<T>>, m: TimedMessage<T>)
    ensures m in Wanted(q, records) <==> exists i :: 0 <= i < |records| && Wants(q, records[i]) && Timed(records[i]) == m
  {
    if records != [] {
      WantedMembers(q, records[1..], m);
      assert forall i :: 0 < i < |records| ==> records[i] == records[1..][i - 1];
    }
  }

  // -------- what is yielded, in the records' own fields

  /** Strings are compared as Python compares them: at the first place where they differ, or by one
      being a prefix of the other. */
  lemma {:induction false} TopicAtMostIff(a: string, b: string)
    ensures TopicAtMost(a, b)
            <==> || a <= b
                 || exists i :: 0 <= i < |a| && i < |b| && a[..i] == b[..i] && a[i] < b[i]
  {
    if a != [] && b != [] {
      if a[0] == b[0] {
        TopicAtMostIff(a[1..], b[1..]);
        PrefixTail(a, b);
        if exists i :: 0 <= i < |a[1..]| && i < |b[1..]| && a[1..][..i] == b[1..][..i] && a[1..][i] < b[1..][i] {
          var i :| 0 <= i < |a[1..]| && i < |b[1..]| && a[1..][..i] == b[1..][..i] && a[1..][i] < b[1..][i];
          assert a[..i + 1] == [a[0]] + a[1..][..i] && b[..i + 1] == [b[0]] + b[1..][..i];
          assert a[i + 1] < b[i + 1];
        }
        if exists i :: 0 <= i < |a| && i < |b| && a[..i] == b[..i] && a[i] < b[i] {
          var i :| 0 <= i < |a| && i < |b| && a[..i] == b[..i] && a[i] < b[i];
          assert a[1..][..i - 1] == a[..i][1..] && b[1..][..i - 1] == b[..i][1..];
          assert a[1..][i - 1] < b[1..][i - 1];
        }
      } else if exists i :: 0 <= i < |a| && i < |b| && a[..i] == b[..i] && a[i] < b[i] {
        var i :| 0 <= i < |a| && i < |b| && a[..i] == b[..i] && a[i] < b[i];
        assert forall k :: 0 <= k < i ==> a[..i][k] == a[k] && b[..i][k] == b[k];
      } else {
        assert a[..0] == b[..0];
      }
    }
  }

  lemma PrefixTail(a: string, b: string)
    requires a != [] && b != [] && a[0] == b[0]
    ensures a <= b <==> a[1..] <= b[1..]
  {
    if a[1..] <= b[1..] {
      assert a == [a[0]] + a[1..] && b[..|a|] == [b[0]] + b[1..][..|a| - 1];
    }
  }

  function WithStampAndTopic<T>(stampNs: int, topic: string): TimedMessage<T> -> bool {
    (m: TimedMessage<T>) => m.stampNs == stampNs && m.topic == topic
  }

  lemma {:induction false} FilterSame<X>(s: seq<X>, p: X -> bool, q: X -> bool)
    requires forall x :: p(x) == q(x)
    ensures Filter(s, p) == Filter(s, q)
  {
    if s != [] {
      FilterSame(s[1..], p, q);
    }
  }

  /** The merged stream ascends by stamp and, at equal stamps, by topic; the messages of one stamp and
      topic come in the order of the splits and of the records in them. */
  lemma MergedInOrder<T>(q: Query, splits: seq<seq<Record<T>>>)
    ensures var s := MergeSplitStreams(q, splits);
            && (forall i, j :: 0 <= i < j < |s| ==>
                  s[i].stampNs < s[j].stampNs || (s[i].stampNs == s[j].stampNs && TopicAtMost(s[i].topic, s[j].topic)))
            && forall stampNs, topic ::
                 Filter(s, WithStampAndTopic(stampNs, topic))
                 == Filter(Wanted(q, Flatten(splits)), WithStampAndTopic(stampNs, topic))
  {
    MergeIsOneFile(q, splits);
    var s, all := MergeSplitStreams(q, splits), Wanted(q, Flatten(splits));
    forall i, j | 0 <= i < j < |s|
      ensures s[i].stampNs < s[j].stampNs || (s[i].stampNs == s[j].stampNs && TopicAtMost(s[i].topic, s[j].topic))
    {
      assert AtMost(KeyOf(s[i]), KeyOf(s[j]));
    }
    forall stampNs, topic
      ensures Filter(s, WithStampAndTopic(stampNs, topic)) == Filter(all, WithStampAndTopic(stampNs, topic))
    {
      var k := Key(stampNs, topic);
      assert WithKey(s, k) == WithKey(all, k);
      FilterSame(s, WithStampAndTopic<T>(stampNs, topic), HasKey<T>(k));
      FilterSame(all, WithStampAndTopic<T>(stampNs, topic), HasKey<T>(k));
    }
  }

  /** The message is the record's, and the record passes the filters. */
  ghost predicate Yields<T>(q: Query, rec: Record<T>, m: TimedMessage<T>) {
    && rec.topic == m.topic && rec.typeName == m.typeName && rec.body == m.body && rec.logTimeNs == m.logTimeNs
    && rec.stamp.Some? && m.stampNs == 1000000000 * rec.stamp.value.sec + rec.stamp.value.nanosec
    && (q.topics.Some? && |q.topics.value| > 0 ==> m.topic in q.topics.value)
    && (q.range.Some? ==> q.range.value.0 <= m.stampNs && m.stampNs < q.range.value.1)
  }

  lemma YieldsIff<T>(q: Query, rec: Record<T>, m: TimedMessage<T>)
    ensures Yields(q, rec, m) <==> Wants(q, rec) && Timed(rec) == m
  {
  }

  /** A message is yielded if and only if some split holds a record of that topic, type, body and log
      time whose header stamp is the message's and passes the filters. */
  lemma MergedMembers<T>(q: Query, splits: seq<seq<Record<T>>>, m: TimedMessage<T>)
    ensures m in MergeSplitStreams(q, splits)
            <==> exists i, k :: 0 <= i < |splits| && 0 <= k < |splits[i]| && Yields(q, splits[i][k], m)
  {
    MergeIsOneFile(q, splits);
    var all, records := Wanted(q, Flatten(splits)), Flatten(splits);
    assert m in MergeSplitStreams(q, splits) <==> m in multiset(all);
    WantedMembers(q, records, m);
    hide Flatten, MergeSplitStreams, Wanted, Wants, Timed, Yields;
    if m in all {
      var r :| 0 <= r < |records| && Wants(q, records[r]) && Timed(records[r]) == m;
      FlattenMembers(splits, records[r]);
      var i :| 0 <= i < |splits| && records[r] in splits[i];
      var k :| 0 <= k < |splits[i]| && splits[i][k] == records[r];
      YieldsIff(q, splits[i][k], m);
    }
    if i, k :| 0 <= i < |splits| && 0 <= k < |splits[i]| && Yields(q, splits[i][k], m) {
      FlattenMembers(splits, splits[i][k]);
      YieldsIff(q, splits[i][k], m);
    }
  }
}
