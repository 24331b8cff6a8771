/** The history view of src/components/fitness/ProgressDisplay.tsx: `groupHistoryBySession`
    turns the flat "Workout History" rows into one session per (week, day), newest first,
    and the render-time `reduce` splits a session's sets into runs of the same exercise
    and tool. */
module ProgressDisplay {
  import opened Js
  import opened Fitness

  // ================================================================ sessions

  /** `W${Week}-D${Day}` */
  function SessionId(week: int, day: int): string {
    "W" + IntToString(week) + "-D" + IntToString(day)
  }

  /** Where the first 'D' of `s` stands (`|s|` when there is none). */
  function IndexOfD(s: string): (r: nat)
    ensures r <= |s| && forall i :: 0 <= i < r ==> s[i] != 'D'
    ensures r < |s| ==> s[r] == 'D'
  {
    if s == [] || s[0] == 'D' then 0 else 1 + IndexOfD(s[1..])
  }

  lemma {:induction false} IndexOfDAfter(p: string, q: string)
    requires forall i :: 0 <= i < |p| ==> p[i] != 'D'
    ensures IndexOfD(p + "D" + q) == |p|
  {
    if p != [] {
      assert (p + "D" + q)[1..] == p[1..] + "D" + q;
      IndexOfDAfter(p[1..], q);
    }
  }

  /** Neither week text holds a 'D', so the first 'D' of an id ends the week. */
  lemma SplitAtD(a: string, b: string, c: string, d: string)
    requires forall i :: 0 <= i < |a| ==> a[i] != 'D'
    requires forall i :: 0 <= i < |c| ==> c[i] != 'D'
    requires "W" + a + "-D" + b == "W" + c + "-D" + d
    ensures a == c && b == d
  {
    var s := "W" + a + "-D" + b;
    var t := "W" + c + "-D" + d;
    assert s == ("W" + a + "-") + "D" + b;
    assert t == ("W" + c + "-") + "D" + d;
    IndexOfDAfter("W" + a + "-", b);
    IndexOfDAfter("W" + c + "-", d);
    assert a == s[1..1 + |a|];
    assert c == t[1..1 + |c|];
    assert b == s[|a| + 3..];
    assert d == t[|c| + 3..];
  }

  /** Two sessions share an id only when they share week and day. */
  lemma SessionIdInjective(w1: int, d1: int, w2: int, d2: int)
    requires SessionId(w1, d1) == SessionId(w2, d2)
    ensures w1 == w2 && d1 == d2
  {
    IntToStringShape(w1);
    IntToStringShape(w2);
    SplitAtD(IntToString(w1), IntToString(d1), IntToString(w2), IntToString(d2));
    IntToStringInjective(w1, w2);
    IntToStringInjective(d1, d2);
  }

  function EntryId(e: HistoryEntry): string {
    SessionId(e.week, e.day)
  }

  /** The session opened for a (week, day) not seen before (ProgressDisplay.tsx:27-34). */
  function NewSession(week: int, day: int): (s: WorkoutHistoryItem)
    ensures s.id == SessionId(week, day) && s.week == week && s.day == day && s.loggedSets == []
  {
    WorkoutHistoryItem(SessionId(week, day),
                       "Week " + IntToString(week) + ", Day " + IntToString(day),
                       week, day,
                       "Workout Week " + IntToString(week) + ", Day " + IntToString(day),
                       [])
  }

  /** The set pushed for one row (ProgressDisplay.tsx:38-46): only null becomes "" (a
      missing value prints as "undefined"), a missing or zero set number becomes 0, and a
      falsy tool or target group becomes undefined. */
  function ToLoggedSet(e: HistoryEntry): (r: LoggedSetInfo)
    ensures r.exerciseName == e.exercise && r.notes == ""
    ensures e.weight == Null ==> r.weight == ""
    ensures e.weight == Undefined ==> r.weight == "undefined"
    ensures e.weight.Num? ==> r.weight == IntToString(e.weight.n)
    ensures e.reps == Null ==> r.reps == ""
    ensures e.reps == Undefined ==> r.reps == "undefined"
    ensures e.reps.Num? ==> r.reps == IntToString(e.reps.n)
    ensures Truthy(e.setNumber) ==> r.setNumber == e.setNumber
    ensures !Truthy(e.setNumber) ==> r.setNumber == Num(0)
    ensures r.tool == (if Truthy(e.tool) then e.tool else Undefined)
    ensures r.targetMuscleGroup == (if Truthy(e.targetGroup) then e.targetGroup else Undefined)
  {
    LoggedSetInfo(e.exercise, Or(e.tool, Undefined), Or(e.setNumber, Num(0)),
                  if e.weight != Null then ToString(e.weight) else "",
                  if e.reps != Null then ToString(e.reps) else "",
                  "",
                  Or(e.targetGroup, Undefined))
  }

  /** The sets of session `id`: the rows with that id, converted, in input order. */
  function LoggedOf(entries: seq<HistoryEntry>, id: string): seq<LoggedSetInfo> {
    if entries == [] then []
    else
      var e := entries[|entries| - 1];
      LoggedOf(entries[..|entries| - 1], id) + (if EntryId(e) == id then [ToLoggedSet(e)] else [])
  }

  /** The session a row belongs to, as groupHistoryBySession must build it. */
  function SessionFor(entries: seq<HistoryEntry>, k: nat): WorkoutHistoryItem
    requires k < |entries|
  {
    NewSession(entries[k].week, entries[k].day).(loggedSets := LoggedOf(entries, EntryId(entries[k])))
  }

  /** The elements of `xs` in order of first appearance. */
  function Distinct<T(==)>(xs: seq<T>): seq<T> {
    if xs == [] then []
    else
      var d := Distinct(xs[..|xs| - 1]);
      if xs[|xs| - 1] in d then d else d + [xs[|xs| - 1]]
  }

  lemma {:induction false} DistinctUnique<T>(xs: seq<T>)
    ensures forall a, b :: 0 <= a < b < |Distinct(xs)| ==> Distinct(xs)[a] != Distinct(xs)[b]
  {
    if xs != [] {
      var d := Distinct(xs[..|xs| - 1]);
      DistinctUnique(xs[..|xs| - 1]);
      var x := xs[|xs| - 1];
      if x !in d {
        var d' := d + [x];
        forall a, b | 0 <= a < b < |d'| ensures d'[a] != d'[b] {
          assert d'[a] == d[a];
          if b == |d| {
            assert d[a] in d;
          } else {
            assert d'[b] == d[b];
          }
        }
      }
    }
  }

  lemma {:induction false} DistinctMembers<T>(xs: seq<T>)
    ensures forall x :: x in Distinct(xs) <==> x in xs
  {
    if xs != [] {
      DistinctMembers(xs[..|xs| - 1]);
      SplitLast(xs);
    }
  }

  /** The session id of each row. */
  function Ids(entries: seq<HistoryEntry>): (r: seq<string>)
    ensures |r| == |entries| && forall k :: 0 <= k < |entries| ==> r[k] == EntryId(entries[k])
  {
    seq(|entries|, k requires 0 <= k < |entries| => EntryId(entries[k]))
  }

  /** `s` is the session of some row. */
  predicate SessionOfSomeRow(entries: seq<HistoryEntry>, s: WorkoutHistoryItem) {
    exists k :: 0 <= k < |entries| && s == SessionFor(entries, k)
  }

  /** The ids of `entries` in order of first appearance: the insertion order of `sessionsMap`. */
  function DistinctIds(entries: seq<HistoryEntry>): seq<string> {
    Distinct(Ids(entries))
  }

  /** One more row appends its id unless the id is already listed. */
  lemma DistinctIdsStep(entries: seq<HistoryEntry>)
    requires entries != []
    ensures var p := DistinctIds(entries[..|entries| - 1]);
      var id := EntryId(entries[|entries| - 1]);
      DistinctIds(entries) == if id in p then p else p + [id]
  {
    assert Ids(entries)[..|entries| - 1] == Ids(entries[..|entries| - 1]);
  }

  lemma DistinctIdsUnique(entries: seq<HistoryEntry>)
    ensures forall a, b :: 0 <= a < b < |DistinctIds(entries)| ==> DistinctIds(entries)[a] != DistinctIds(entries)[b]
  {
    DistinctUnique(Ids(entries));
  }

  lemma DistinctIdsMembers(entries: seq<HistoryEntry>)
    ensures forall id :: id in DistinctIds(entries) <==> exists k :: 0 <= k < |entries| && EntryId(entries[k]) == id
  {
    var ids := Ids(entries);
    DistinctMembers(ids);
    forall id ensures id in DistinctIds(entries) <==> exists k :: 0 <= k < |entries| && EntryId(entries[k]) == id {
      if id in ids {
        var k :| 0 <= k < |ids| && ids[k] == id;
        assert EntryId(entries[k]) == id;
      }
      if k :| 0 <= k < |entries| && EntryId(entries[k]) == id {
        assert ids[k] == id;
      }
    }
  }

  /** No row carries the id: its session holds nothing. */
  lemma {:induction false} LoggedOfAbsent(entries: seq<HistoryEntry>, id: string)
    requires forall k :: 0 <= k < |entries| ==> EntryId(entries[k]) != id
    ensures LoggedOf(entries, id) == []
  {
    if entries != [] {
      var p := entries[..|entries| - 1];
      assert forall k :: 0 <= k < |p| ==> p[k] == entries[k];
      LoggedOfAbsent(p, id);
    }
  }

  /** The state of the `forEach`: the map's keys in insertion order, and the map. */
  datatype Sessions = Sessions(order: seq<string>, byId: map<string, WorkoutHistoryItem>)

  /** The `forEach` body for one row (ProgressDisplay.tsx:24-46). */
  function AddEntry(s: Sessions, e: HistoryEntry): Sessions {
    var id := EntryId(e);
    var s1 := if id in s.byId then s else Sessions(s.order + [id], s.byId[id := NewSession(e.week, e.day)]);
    var session := s1.byId[id];
    Sessions(s1.order, s1.byId[id := session.(loggedSets := session.loggedSets + [ToLoggedSet(e)])])
  }

  function Collect(entries: seq<HistoryEntry>): Sessions {
    if entries == [] then Sessions([], map[])
    else AddEntry(Collect(entries[..|entries| - 1]), entries[|entries| - 1])
  }

  lemma {:induction false} CollectKeys(entries: seq<HistoryEntry>)
    ensures Collect(entries).order == DistinctIds(entries)
    ensures forall id :: id in Collect(entries).byId <==> id in DistinctIds(entries)
  {
    if entries != [] {
      CollectKeys(entries[..|entries| - 1]);
      DistinctIdsStep(entries);
    }
  }

  /** A row whose id differs leaves the session stored under `id` alone. */
  lemma AddEntryOther(s: Sessions, e: HistoryEntry, id: string)
    requires EntryId(e) != id
    ensures id in AddEntry(s, e).byId <==> id in s.byId
    ensures id in s.byId ==> AddEntry(s, e).byId[id] == s.byId[id]
  {
  }

  /** A row is appended to the session of its own id, which is opened first when missing. */
  lemma AddEntrySame(s: Sessions, e: HistoryEntry)
    ensures EntryId(e) in AddEntry(s, e).byId
    ensures EntryId(e) in s.byId ==>
      AddEntry(s, e) == Sessions(s.order, s.byId[EntryId(e) := s.byId[EntryId(e)].(loggedSets := s.byId[EntryId(e)].loggedSets + [ToLoggedSet(e)])])
    ensures EntryId(e) !in s.byId ==>
      AddEntry(s, e) == Sessions(s.order + [EntryId(e)], s.byId[EntryId(e) := NewSession(e.week, e.day).(loggedSets := [ToLoggedSet(e)])])
  {
    assert [] + [ToLoggedSet(e)] == [ToLoggedSet(e)];
  }

  /** Rows with the same id belong to the same session. */
  lemma SessionForSameId(entries: seq<HistoryEntry>, k1: nat, k2: nat)
    requires k1 < |entries| && k2 < |entries| && EntryId(entries[k1]) == EntryId(entries[k2])
    ensures SessionFor(entries, k1) == SessionFor(entries, k2)
  {
    SessionIdInjective(entries[k1].week, entries[k1].day, entries[k2].week, entries[k2].day);
  }

  lemma CollectLast(p: seq<HistoryEntry>, e: HistoryEntry)
    ensures Collect(p + [e]) == AddEntry(Collect(p), e)
    ensures LoggedOf(p + [e], EntryId(e)) == LoggedOf(p, EntryId(e)) + [ToLoggedSet(e)]
    ensures forall id :: id != EntryId(e) ==> LoggedOf(p + [e], id) == LoggedOf(p, id)
  {
    assert (p + [e])[..|p|] == p;
  }

  /** A row of another session leaves an earlier row's session as it was. */
  lemma StepOther(p: seq<HistoryEntry>, e: HistoryEntry, k: nat)
    requires k < |p| && EntryId(e) != EntryId(p[k])
    requires EntryId(p[k]) in Collect(p).byId && Collect(p).byId[EntryId(p[k])] == SessionFor(p, k)
    ensures EntryId(p[k]) in Collect(p + [e]).byId
    ensures Collect(p + [e]).byId[EntryId(p[k])] == SessionFor(p + [e], k)
  {
    CollectLast(p, e);
    AddEntryOther(Collect(p), e, EntryId(p[k]));
    assert (p + [e])[k] == p[k];
  }

  /** A row of a session already open joins it. */
  lemma StepJoin(p: seq<HistoryEntry>, e: HistoryEntry, k: nat)
    requires k < |p| && EntryId(e) == EntryId(p[k])
    requires EntryId(p[k]) in Collect(p).byId && Collect(p).byId[EntryId(p[k])] == SessionFor(p, k)
    ensures EntryId(e) in Collect(p + [e]).byId
    ensures Collect(p + [e]).byId[EntryId(e)] == SessionFor(p + [e], |p|)
  {
    CollectLast(p, e);
    AddEntrySame(Collect(p), e);
    SessionIdInjective(p[k].week, p[k].day, e.week, e.day);
  }

  /** The first row of a session opens it. */
  lemma StepOpen(p: seq<HistoryEntry>, e: HistoryEntry)
    requires forall k :: 0 <= k < |p| ==> EntryId(p[k]) != EntryId(e)
    requires EntryId(e) !in Collect(p).byId
    ensures EntryId(e) in Collect(p + [e]).byId
    ensures Collect(p + [e]).byId[EntryId(e)] == SessionFor(p + [e], |p|)
  {
    CollectLast(p, e);
    AddEntrySame(Collect(p), e);
    LoggedOfAbsent(p, EntryId(e));
  }

  /** The map holds, under each row's id, that row's session with every row of the same
      week and day, in input order. */
  lemma {:induction false} CollectAt(entries: seq<HistoryEntry>, k: nat)
    requires k < |entries|
    ensures EntryId(entries[k]) in Collect(entries).byId
    ensures Collect(entries).byId[EntryId(entries[k])] == SessionFor(entries, k)
  {
    var p := entries[..|entries| - 1];
    var e := entries[|entries| - 1];
    assert entries == p + [e];
    var id := EntryId(entries[k]);
    if EntryId(e) != id {
      assert entries[k] == p[k];
      CollectAt(p, k);
      StepOther(p, e, k);
    } else {
      CollectKeys(p);
      DistinctIdsMembers(p);
      if id in Collect(p).byId {
        var k' :| 0 <= k' < |p| && EntryId(p[k']) == id;
        CollectAt(p, k');
        StepJoin(p, e, k');
      } else {
        StepOpen(p, e);
      }
      SessionForSameId(entries, k, |p|);
    }
  }

  /** The sets held by the sessions of `order` in `m`. */
  function SumLogged(order: seq<string>, m: map<string, WorkoutHistoryItem>): nat
    requires forall id :: id in order ==> id in m
  {
    if order == [] then 0 else SumLogged(order[..|order| - 1], m) + |m[order[|order| - 1]].loggedSets|
  }

  lemma {:induction false} SumLoggedUpdate(order: seq<string>, m: map<string, WorkoutHistoryItem>, id: string, s: WorkoutHistoryItem)
    requires forall id' :: id' in order ==> id' in m
    requires forall a, b :: 0 <= a < b < |order| ==> order[a] != order[b]
    ensures id in order ==> SumLogged(order, m[id := s]) + |m[id].loggedSets| == SumLogged(order, m) + |s.loggedSets|
    ensures id !in order ==> SumLogged(order, m[id := s]) == SumLogged(order, m)
  {
    if order != [] {
      var p := order[..|order| - 1];
      assert forall a, b :: 0 <= a < b < |p| ==> p[a] != p[b];
      assert id == order[|order| - 1] ==> id !in p;
      SumLoggedUpdate(p, m, id, s);
    }
  }

  /** One row adds one set to the sessions the order lists. */
  lemma CollectSizeStep(s: Sessions, e: HistoryEntry)
    requires forall id :: id in s.byId <==> id in s.order
    requires forall a, b :: 0 <= a < b < |s.order| ==> s.order[a] != s.order[b]
    ensures forall id :: id in AddEntry(s, e).order ==> id in AddEntry(s, e).byId
    ensures SumLogged(AddEntry(s, e).order, AddEntry(s, e).byId) == SumLogged(s.order, s.byId) + 1
  {
    var id := EntryId(e);
    AddEntrySame(s, e);
    var m' := AddEntry(s, e).byId;
    SumLoggedUpdate(s.order, s.byId, id, m'[id]);
    if id !in s.byId {
      assert (s.order + [id])[..|s.order|] == s.order;
    }
  }

  /** Each row adds exactly one set. */
  lemma {:induction false} CollectSize(entries: seq<HistoryEntry>)
    ensures forall id :: id in DistinctIds(entries) ==> id in Collect(entries).byId
    ensures SumLogged(DistinctIds(entries), Collect(entries).byId) == |entries|
  {
    CollectKeys(entries);
    if entries != [] {
      var p := entries[..|entries| - 1];
      CollectKeys(p);
      CollectSize(p);
      DistinctIdsUnique(p);
      CollectSizeStep(Collect(p), entries[|entries| - 1]);
    }
  }

  /** `Array.from(sessionsMap.values())` */
  function SessionValues(order: seq<string>, m: map<string, WorkoutHistoryItem>): (r: seq<WorkoutHistoryItem>)
    requires forall id :: id in order ==> id in m
    ensures |r| == |order| && forall e :: 0 <= e < |order| ==> r[e] == m[order[e]]
  {
    seq(|order|, e requires 0 <= e < |order| => m[order[e]])
  }

  function TotalLogged(s: seq<WorkoutHistoryItem>): nat {
    if s == [] then 0 else TotalLogged(s[..|s| - 1]) + |s[|s| - 1].loggedSets|
  }

  lemma {:induction false} TotalLoggedConcat(a: seq<WorkoutHistoryItem>, b: seq<WorkoutHistoryItem>)
    ensures TotalLogged(a + b) == TotalLogged(a) + TotalLogged(b)
  {
    if b != [] {
      assert (a + b)[..|a + b| - 1] == a + b[..|b| - 1];
      TotalLoggedConcat(a, b[..|b| - 1]);
    } else {
      assert a + b == a;
    }
  }

  lemma {:induction false} SumLoggedIsTotal(order: seq<string>, m: map<string, WorkoutHistoryItem>)
    requires forall id :: id in order ==> id in m
    ensures TotalLogged(SessionValues(order, m)) == SumLogged(order, m)
  {
    if order != [] {
      var p := order[..|order| - 1];
      SumLoggedIsTotal(p, m);
      assert SessionValues(order, m)[..|order| - 1] == SessionValues(p, m);
    }
  }

  // ================================================================ the sort

  /** The comparator of ProgressDisplay.tsx:51-54 answers negative: `a` goes first. */
  predicate Precedes(a: WorkoutHistoryItem, b: WorkoutHistoryItem) {
    a.week > b.week || (a.week == b.week && a.day > b.day)
  }

  predicate Descending(s: seq<WorkoutHistoryItem>) {
    forall i, j :: 0 <= i < j < |s| ==> !Precedes(s[j], s[i])
  }

  predicate StrictlyDescending(s: seq<WorkoutHistoryItem>) {
    forall i, j :: 0 <= i < j < |s| ==> Precedes(s[i], s[j])
  }

  predicate DistinctWeekDays(s: seq<WorkoutHistoryItem>) {
    forall i, j :: 0 <= i < j < |s| ==> s[i].week != s[j].week || s[i].day != s[j].day
  }

  /** `x` placed before the first element it does not follow, which keeps equal elements
      in their input order. */
  function InsertDesc(x: WorkoutHistoryItem, s: seq<WorkoutHistoryItem>): seq<WorkoutHistoryItem> {
    if s == [] || !Precedes(s[0], x) then [x] + s else [s[0]] + InsertDesc(x, s[1..])
  }

  /** The stable sort `Array.prototype.sort` performs with that comparator. */
  function SortDesc(s: seq<WorkoutHistoryItem>): seq<WorkoutHistoryItem> {
    if s == [] then [] else InsertDesc(s[0], SortDesc(s[1..]))
  }

  lemma TotalLoggedCons(x: WorkoutHistoryItem, s: seq<WorkoutHistoryItem>)
    ensures TotalLogged([x] + s) == |x.loggedSets| + TotalLogged(s)
  {
    TotalLoggedConcat([x], s);
    assert [x][..0] == [];
  }

  /** Nothing after the head of an ordered list goes before it. */
  lemma HeadFirst(s: seq<WorkoutHistoryItem>)
    requires s != [] && Descending(s)
    ensures Descending(s[1..])
    ensures forall y :: y in s[1..] ==> !Precedes(y, s[0])
  {
    var t := s[1..];
    forall y | y in t ensures !Precedes(y, s[0]) {
      var m :| 0 <= m < |t| && t[m] == y;
      assert s[m + 1] == y;
    }
  }

  lemma HeadFirstStrict(s: seq<WorkoutHistoryItem>)
    requires s != [] && StrictlyDescending(s)
    ensures StrictlyDescending(s[1..])
    ensures forall y :: y in s[1..] ==> Precedes(s[0], y)
  {
    var t := s[1..];
    forall y | y in t ensures Precedes(s[0], y) {
      var m :| 0 <= m < |t| && t[m] == y;
      assert s[m + 1] == y;
    }
  }

  lemma ConsDescending(x: WorkoutHistoryItem, s: seq<WorkoutHistoryItem>)
    requires Descending(s)
    requires forall y :: y in s ==> !Precedes(y, x)
    ensures Descending([x] + s)
  {
    var r := [x] + s;
    forall i, j | 0 <= i < j < |r| ensures !Precedes(r[j], r[i]) {
      assert r[j] == s[j - 1];
      if i == 0 {
        assert r[j] in s;
      } else {
        assert r[i] == s[i - 1];
      }
    }
  }

  lemma ConsStrict(x: WorkoutHistoryItem, s: seq<WorkoutHistoryItem>)
    requires StrictlyDescending(s)
    requires forall y :: y in s ==> Precedes(x, y)
    ensures StrictlyDescending([x] + s)
  {
    var r := [x] + s;
    forall i, j | 0 <= i < j < |r| ensures Precedes(r[i], r[j]) {
      assert r[j] == s[j - 1];
      if i == 0 {
        assert r[j] in s;
      } else {
        assert r[i] == s[i - 1];
      }
    }
  }

  /** Insertion adds exactly `x`. */
  lemma {:induction false} InsertDescElements(x: WorkoutHistoryItem, s: seq<WorkoutHistoryItem>)
    ensures multiset(InsertDesc(x, s)) == multiset(s) + multiset{x}
    ensures forall y :: y in InsertDesc(x, s) <==> y == x || y in s
  {
    if s != [] && Precedes(s[0], x) {
      InsertDescElements(x, s[1..]);
      assert s == [s[0]] + s[1..];
    }
  }

  lemma {:induction false} InsertDescTotal(x: WorkoutHistoryItem, s: seq<WorkoutHistoryItem>)
    ensures TotalLogged(InsertDesc(x, s)) == TotalLogged(s) + |x.loggedSets|
  {
    if s == [] || !Precedes(s[0], x) {
      TotalLoggedCons(x, s);
    } else {
      InsertDescTotal(x, s[1..]);
      TotalLoggedCons(s[0], InsertDesc(x, s[1..]));
      TotalLoggedCons(s[0], s[1..]);
      assert s == [s[0]] + s[1..];
    }
  }

  lemma {:induction false} InsertDescSorted(x: WorkoutHistoryItem, s: seq<WorkoutHistoryItem>)
    requires Descending(s)
    ensures Descending(InsertDesc(x, s))
    ensures multiset(InsertDesc(x, s)) == multiset(s) + multiset{x}
  {
    InsertDescElements(x, s);
    if s == [] || !Precedes(s[0], x) {
      if s != [] {
        HeadFirst(s);
        assert s == [s[0]] + s[1..];
      }
      ConsDescending(x, s);
    } else {
      var t := s[1..];
      HeadFirst(s);
      InsertDescSorted(x, t);
      InsertDescElements(x, t);
      ConsDescending(s[0], InsertDesc(x, t));
    }
  }

  lemma {:induction false} SortDescElements(s: seq<WorkoutHistoryItem>)
    ensures multiset(SortDesc(s)) == multiset(s)
  {
    if s != [] {
      SortDescElements(s[1..]);
      InsertDescElements(s[0], SortDesc(s[1..]));
      assert s == [s[0]] + s[1..];
    }
  }

  lemma {:induction false} SortDescTotal(s: seq<WorkoutHistoryItem>)
    ensures TotalLogged(SortDesc(s)) == TotalLogged(s)
  {
    if s != [] {
      SortDescTotal(s[1..]);
      InsertDescTotal(s[0], SortDesc(s[1..]));
      TotalLoggedCons(s[0], s[1..]);
      assert s == [s[0]] + s[1..];
    }
  }

  lemma {:induction false} SortDescSorted(s: seq<WorkoutHistoryItem>)
    ensures Descending(SortDesc(s))
    ensures multiset(SortDesc(s)) == multiset(s)
  {
    if s != [] {
      SortDescSorted(s[1..]);
      InsertDescSorted(s[0], SortDesc(s[1..]));
    }
    SortDescElements(s);
  }

  /** The sort keeps exactly the sessions it is given. */
  lemma SortDescSameElements(s: seq<WorkoutHistoryItem>)
    ensures |SortDesc(s)| == |s|
    ensures forall x :: x in SortDesc(s) <==> x in s
  {
    var r := SortDesc(s);
    SortDescElements(s);
    forall x ensures x in r <==> x in s {
      assert x in r <==> x in multiset(r);
      assert x in s <==> x in multiset(s);
    }
    assert |r| == |multiset(r)| == |s|;
  }

  /** The sort keeps the sessions, so sessions with distinct (week, day) come out
      strictly newest first. */
  lemma {:induction false} SortDescStrict(s: seq<WorkoutHistoryItem>)
    requires DistinctWeekDays(s)
    ensures StrictlyDescending(SortDesc(s))
  {
    if s != [] {
      var t := s[1..];
      assert DistinctWeekDays(t) by {
        forall i, j | 0 <= i < j < |t| ensures t[i].week != t[j].week || t[i].day != t[j].day {
          assert t[i] == s[i + 1] && t[j] == s[j + 1];
        }
      }
      SortDescStrict(t);
      SortDescSameElements(t);
      var r := SortDesc(t);
      forall y | y in r ensures y.week != s[0].week || y.day != s[0].day {
        var m :| 0 <= m < |t| && t[m] == y;
        assert t[m] == s[m + 1];
      }
      InsertStrict(s[0], r);
    }
  }

  lemma {:induction false} InsertStrict(x: WorkoutHistoryItem, s: seq<WorkoutHistoryItem>)
    requires StrictlyDescending(s)
    requires forall y :: y in s ==> y.week != x.week || y.day != x.day
    ensures StrictlyDescending(InsertDesc(x, s))
  {
    if s == [] || !Precedes(s[0], x) {
      if s != [] {
        HeadFirstStrict(s);
        assert s[0] in s;
        assert s == [s[0]] + s[1..];
      }
      ConsStrict(x, s);
    } else {
      var t := s[1..];
      HeadFirstStrict(s);
      assert forall y :: y in t ==> y in s;
      InsertStrict(x, t);
      InsertDescElements(x, t);
      ConsStrict(s[0], InsertDesc(x, t));
    }
  }

  // ================================================================ groupHistoryBySession

  /** `Array.from(sessionsMap.values())` once every row has been added. */
  function Grouped(entries: seq<HistoryEntry>): seq<WorkoutHistoryItem> {
    CollectKeys(entries);
    SessionValues(Collect(entries).order, Collect(entries).byId)
  }

  /** The `e`-th listed session is the session of some row, stored under its own id. */
  lemma GroupedAt(entries: seq<HistoryEntry>, e: nat)
    requires e < |Grouped(entries)|
    ensures SessionOfSomeRow(entries, Grouped(entries)[e])
    ensures Grouped(entries)[e].id == Collect(entries).order[e]
    ensures Collect(entries).order[e] == SessionId(Grouped(entries)[e].week, Grouped(entries)[e].day)
  {
    var c := Collect(entries);
    CollectKeys(entries);
    DistinctIdsMembers(entries);
    assert c.order[e] in DistinctIds(entries);
    var k :| 0 <= k < |entries| && EntryId(entries[k]) == c.order[e];
    CollectAt(entries, k);
  }

  lemma GroupedDistinct(entries: seq<HistoryEntry>)
    ensures DistinctWeekDays(Grouped(entries))
  {
    var g := Grouped(entries);
    CollectKeys(entries);
    DistinctIdsUnique(entries);
    forall a, b | 0 <= a < b < |g| ensures g[a].week != g[b].week || g[a].day != g[b].day {
      GroupedAt(entries, a);
      GroupedAt(entries, b);
    }
  }

  lemma GroupedCovers(entries: seq<HistoryEntry>)
    ensures forall k :: 0 <= k < |entries| ==> SessionFor(entries, k) in Grouped(entries)
  {
    var c := Collect(entries);
    var g := Grouped(entries);
    CollectKeys(entries);
    DistinctIdsMembers(entries);
    forall k | 0 <= k < |entries| ensures SessionFor(entries, k) in g {
      CollectAt(entries, k);
      assert EntryId(entries[k]) in DistinctIds(entries);
      var e :| 0 <= e < |c.order| && c.order[e] == EntryId(entries[k]);
      assert g[e] == SessionFor(entries, k);
    }
  }

  /** One session per distinct (week, day), each the session `SessionFor` describes, and
      every row counted once. */
  lemma GroupedSessions(entries: seq<HistoryEntry>)
    ensures |Grouped(entries)| == |DistinctIds(entries)|
    ensures DistinctWeekDays(Grouped(entries))
    ensures forall i :: 0 <= i < |Grouped(entries)| ==> SessionOfSomeRow(entries, Grouped(entries)[i])
    ensures forall k :: 0 <= k < |entries| ==> SessionFor(entries, k) in Grouped(entries)
    ensures TotalLogged(Grouped(entries)) == |entries|
  {
    var c := Collect(entries);
    CollectKeys(entries);
    forall i | 0 <= i < |Grouped(entries)|
      ensures SessionOfSomeRow(entries, Grouped(entries)[i])
    {
      GroupedAt(entries, i);
    }
    GroupedDistinct(entries);
    GroupedCovers(entries);
    CollectSize(entries);
    SumLoggedIsTotal(c.order, c.byId);
  }

  /** What groupHistoryBySession returns: the grouped sessions, newest first. */
  lemma SortedSessions(entries: seq<HistoryEntry>)
    ensures |SortDesc(Grouped(entries))| == |DistinctIds(entries)|
    ensures StrictlyDescending(SortDesc(Grouped(entries)))
    ensures forall i :: 0 <= i < |SortDesc(Grouped(entries))| ==> SessionOfSomeRow(entries, SortDesc(Grouped(entries))[i])
    ensures forall k :: 0 <= k < |entries| ==> SessionFor(entries, k) in SortDesc(Grouped(entries))
    ensures TotalLogged(SortDesc(Grouped(entries))) == |entries|
  {
    var g := Grouped(entries);
    var r := SortDesc(g);
    GroupedSessions(entries);
    SortDescTotal(g);
    SortDescStrict(g);
    SortDescSameElements(g);
    forall i | 0 <= i < |r| ensures SessionOfSomeRow(entries, r[i]) {
      assert r[i] in g;
      var j :| 0 <= j < |g| && g[j] == r[i];
    }
  }

  lemma NoHistory()
    ensures DistinctIds([]) == []
  {
    assert Ids([]) == [];
  }

  /** The `forEach` after one more row. */
  lemma CollectNext(entries: seq<HistoryEntry>, i: nat)
    requires i < |entries|
    ensures Collect(entries[..i + 1]) == AddEntry(Collect(entries[..i]), entries[i])
  {
    assert entries[..i + 1][..i] == entries[..i];
  }

  /** groupHistoryBySession (ProgressDisplay.tsx:18-57). */
  method GroupHistoryBySession(flatHistory: seq<HistoryEntry>) returns (sessions: seq<WorkoutHistoryItem>)
    ensures flatHistory == [] ==> sessions == []
    ensures |sessions| == |DistinctIds(flatHistory)|
    ensures StrictlyDescending(sessions)
    ensures forall i :: 0 <= i < |sessions| ==> SessionOfSomeRow(flatHistory, sessions[i])
    ensures forall k :: 0 <= k < |flatHistory| ==> SessionFor(flatHistory, k) in sessions
    ensures TotalLogged(sessions) == |flatHistory|
  {
    if |flatHistory| == 0 {
      NoHistory();
      return [];
    }
    var order: seq<string> := [];
    var sessionsMap: map<string, WorkoutHistoryItem> := map[];
    for i := 0 to |flatHistory|
      invariant Sessions(order, sessionsMap) == Collect(flatHistory[..i])
    {
      var entry := flatHistory[i];
      ghost var s0 := Sessions(order, sessionsMap);
      var sessionId := SessionId(entry.week, entry.day);
      if sessionId !in sessionsMap {
        sessionsMap := sessionsMap[sessionId := NewSession(entry.week, entry.day)];
        order := order + [sessionId];
      }
      var session := sessionsMap[sessionId];
      sessionsMap := sessionsMap[sessionId := session.(loggedSets := session.loggedSets + [ToLoggedSet(entry)])];
      assert Sessions(order, sessionsMap) == AddEntry(s0, entry);
      CollectNext(flatHistory, i);
    }
    assert flatHistory[..|flatHistory|] == flatHistory;
    CollectKeys(flatHistory);
    var groupedSessions := SessionValues(order, sessionsMap);
    assert groupedSessions == Grouped(flatHistory);
    sessions := SortDesc(groupedSessions);
    SortedSessions(flatHistory);
  }

  // ================================================================ runs of one exercise

  /** A set continues the run of the set before it: same exercise name and same tool by
      strict equality (ProgressDisplay.tsx:110). */
  predicate SameRun(prev: LoggedSetInfo, cur: LoggedSetInfo) {
    StrictEquals(cur.exerciseName, prev.exerciseName) && StrictEquals(cur.tool, prev.tool)
  }

  function Flatten(groups: seq<seq<LoggedSetInfo>>): seq<LoggedSetInfo> {
    if groups == [] then [] else Flatten(groups[..|groups| - 1]) + groups[|groups| - 1]
  }

  /** The groups the `reduce` has built after the first `n` sets: a set that does not
      continue the run before it opens a group, any other joins the last group. */
  function RunsUpTo(sets: seq<LoggedSetInfo>, n: nat): (r: seq<seq<LoggedSetInfo>>)
    requires n <= |sets|
    ensures |r| > 0 <==> n > 0
  {
    if n == 0 then []
    else Extended(RunsUpTo(sets, n - 1), n == 1 || !SameRun(sets[n - 2], sets[n - 1]), sets[n - 1])
  }

  /** The groups after one more set `cur`: a new group when `opens`, else `cur` joins the
      last group. */
  function Extended(g: seq<seq<LoggedSetInfo>>, opens: bool, cur: LoggedSetInfo): (r: seq<seq<LoggedSetInfo>>)
    requires opens || g != []
    ensures |r| > 0
  {
    if opens then g + [[cur]] else g[..|g| - 1] + [g[|g| - 1] + [cur]]
  }

  /** The groups the `reduce` returns. */
  function Runs(sets: seq<LoggedSetInfo>): (r: seq<seq<LoggedSetInfo>>)
    ensures |r| > 0 <==> sets != []
  {
    RunsUpTo(sets, |sets|)
  }

  predicate NonEmptyGroups(groups: seq<seq<LoggedSetInfo>>) {
    forall g :: 0 <= g < |groups| ==> |groups[g]| > 0
  }

  predicate RunsWithin(groups: seq<seq<LoggedSetInfo>>) {
    forall g, k :: 0 <= g < |groups| && 0 < k < |groups[g]| ==> SameRun(groups[g][k - 1], groups[g][k])
  }

  predicate BrokenBetween(groups: seq<seq<LoggedSetInfo>>)
    requires NonEmptyGroups(groups)
  {
    forall g :: 0 < g < |groups| ==> !SameRun(groups[g - 1][|groups[g - 1]| - 1], groups[g][0])
  }

  predicate MaximalRuns(groups: seq<seq<LoggedSetInfo>>) {
    NonEmptyGroups(groups) && RunsWithin(groups) && BrokenBetween(groups)
  }

  /** A set that breaks the run opens a group of its own. */
  lemma OpenRun(g: seq<seq<LoggedSetInfo>>, cur: LoggedSetInfo)
    requires MaximalRuns(g)
    requires g != [] ==> !SameRun(g[|g| - 1][|g[|g| - 1]| - 1], cur)
    ensures MaximalRuns(g + [[cur]])
    ensures Flatten(g + [[cur]]) == Flatten(g) + [cur]
  {
    var r := g + [[cur]];
    assert r[..|g|] == g;
    assert RunsWithin(r) by {
      forall i, k | 0 <= i < |r| && 0 < k < |r[i]| ensures SameRun(r[i][k - 1], r[i][k]) {
        assert r[i] == g[i];
      }
    }
    assert BrokenBetween(r) by {
      forall i | 0 < i < |r| ensures !SameRun(r[i - 1][|r[i - 1]| - 1], r[i][0]) {
        assert r[i - 1] == g[i - 1];
        if i < |g| {
          assert r[i] == g[i];
        }
      }
    }
  }

  lemma JoinWithin(g: seq<seq<LoggedSetInfo>>, cur: LoggedSetInfo)
    requires RunsWithin(g) && g != [] && |g[|g| - 1]| > 0
    requires SameRun(g[|g| - 1][|g[|g| - 1]| - 1], cur)
    ensures RunsWithin(g[..|g| - 1] + [g[|g| - 1] + [cur]])
  {
    var n := |g| - 1;
    var r := g[..n] + [g[n] + [cur]];
    forall i, k | 0 <= i < |r| && 0 < k < |r[i]| ensures SameRun(r[i][k - 1], r[i][k]) {
      if i < n {
        assert r[i] == g[i];
      } else if k < |g[n]| {
        assert r[i][k - 1] == g[n][k - 1] && r[i][k] == g[n][k];
      }
    }
  }

  lemma JoinBroken(g: seq<seq<LoggedSetInfo>>, cur: LoggedSetInfo)
    requires NonEmptyGroups(g) && BrokenBetween(g) && g != []
    ensures NonEmptyGroups(g[..|g| - 1] + [g[|g| - 1] + [cur]])
    ensures BrokenBetween(g[..|g| - 1] + [g[|g| - 1] + [cur]])
  {
    var n := |g| - 1;
    var r := g[..n] + [g[n] + [cur]];
    forall i | 0 < i < |r| ensures !SameRun(r[i - 1][|r[i - 1]| - 1], r[i][0]) {
      assert r[i - 1] == g[i - 1] && r[i][0] == g[i][0];
    }
  }

  lemma JoinFlatten(g: seq<seq<LoggedSetInfo>>, cur: LoggedSetInfo)
    requires g != []
    ensures Flatten(g[..|g| - 1] + [g[|g| - 1] + [cur]]) == Flatten(g) + [cur]
  {
    var n := |g| - 1;
    var r := g[..n] + [g[n] + [cur]];
    assert r[..n] == g[..n];
  }

  /** A set that continues the run joins the last group. */
  lemma JoinRun(g: seq<seq<LoggedSetInfo>>, cur: LoggedSetInfo)
    requires MaximalRuns(g) && g != []
    requires SameRun(g[|g| - 1][|g[|g| - 1]| - 1], cur)
    ensures MaximalRuns(g[..|g| - 1] + [g[|g| - 1] + [cur]])
    ensures Flatten(g[..|g| - 1] + [g[|g| - 1] + [cur]]) == Flatten(g) + [cur]
  {
    JoinWithin(g, cur);
    JoinBroken(g, cur);
    JoinFlatten(g, cur);
  }

  lemma SplitLast<T>(s: seq<T>)
    requires s != []
    ensures s == s[..|s| - 1] + [s[|s| - 1]]
  {
  }

  /** A set opens a group exactly when it does not continue the last group's last set;
      then the groups stay maximal runs and concatenate to one set more. */
  lemma ExtendGroups(g: seq<seq<LoggedSetInfo>>, opens: bool, cur: LoggedSetInfo)
    requires MaximalRuns(g)
    requires opens || g != []
    requires g != [] ==> (opens <==> !SameRun(g[|g| - 1][|g[|g| - 1]| - 1], cur))
    ensures Flatten(Extended(g, opens, cur)) == Flatten(g) + [cur]
    ensures MaximalRuns(Extended(g, opens, cur))
  {
    if opens {
      OpenRun(g, cur);
    } else {
      JoinRun(g, cur);
    }
  }

  /** The last group ends with the last set so far. */
  lemma RunsUpToLast(sets: seq<LoggedSetInfo>, n: nat)
    requires 0 < n <= |sets|
    ensures var r := RunsUpTo(sets, n); |r[|r| - 1]| > 0 && r[|r| - 1][|r[|r| - 1]| - 1] == sets[n - 1]
  {
  }

  /** One more set keeps the groups maximal runs that concatenate to the sets so far. */
  lemma RunsUpToNext(sets: seq<LoggedSetInfo>, n: nat)
    requires n < |sets|
    requires Flatten(RunsUpTo(sets, n)) == sets[..n] && MaximalRuns(RunsUpTo(sets, n))
    ensures Flatten(RunsUpTo(sets, n + 1)) == sets[..n + 1]
    ensures MaximalRuns(RunsUpTo(sets, n + 1))
  {
    if n > 0 {
      RunsUpToLast(sets, n);
    }
    ExtendGroups(RunsUpTo(sets, n), n == 0 || !SameRun(sets[n - 1], sets[n]), sets[n]);
    assert sets[..n + 1] == sets[..n] + [sets[n]];
  }

  lemma {:induction false} RunsUpToMaximal(sets: seq<LoggedSetInfo>, n: nat)
    requires n <= |sets|
    ensures Flatten(RunsUpTo(sets, n)) == sets[..n]
    ensures MaximalRuns(RunsUpTo(sets, n))
  {
    if n > 0 {
      RunsUpToMaximal(sets, n - 1);
      RunsUpToNext(sets, n - 1);
    }
  }

  /** The groups are maximal runs, and concatenating them gives back the sets. */
  lemma RunsAreMaximal(sets: seq<LoggedSetInfo>)
    ensures Flatten(Runs(sets)) == sets
    ensures MaximalRuns(Runs(sets))
  {
    RunsUpToMaximal(sets, |sets|);
    assert sets[..|sets|] == sets;
  }

  /** Pushing an empty group and then appending to the last group is opening a group. */
  lemma PushThenAppend(g: seq<seq<LoggedSetInfo>>, opens: bool, cur: LoggedSetInfo)
    requires opens || g != []
    ensures var h := if opens then g + [[]] else g;
      h[..|h| - 1] + [h[|h| - 1] + [cur]] == Extended(g, opens, cur)
  {
    if opens {
      assert (g + [[]])[..|g|] == g;
      assert [] + [cur] == [cur];
    }
  }

  /** The `reduce` of ProgressDisplay.tsx:109-129, with each rendered element standing for
      the set it renders. */
  method GroupRuns(sets: seq<LoggedSetInfo>) returns (groups: seq<seq<LoggedSetInfo>>)
    ensures groups == Runs(sets)
    ensures Flatten(groups) == sets
    ensures MaximalRuns(groups)
  {
    groups := [];
    for idx := 0 to |sets|
      invariant groups == RunsUpTo(sets, idx)
    {
      var cur := sets[idx];
      ghost var before := groups;
      var opens := idx == 0 || !SameRun(sets[idx - 1], cur);
      if opens {
        groups := groups + [[]];
      }
      var last := groups[|groups| - 1];
      groups := groups[..|groups| - 1] + [last + [cur]];
      PushThenAppend(before, opens, cur);
    }
    RunsAreMaximal(sets);
  }
}
