/**
 Reading the newest signal per type, for one subject and for many in one query.

 A query answers with the matching rows ordered by observed_at descending; rows with equal
 timestamps come in any order, so an answer is described by a predicate, not a function.
 */
module SignalQueries {
  import opened Common
  import opened SignalStore
  import opened StableSort

  predicate Selected(row: Signal, subjectType: string, ids: set<string>) {
    row.subjectType == subjectType && row.subjectId in ids
  }

  ghost predicate NewestFirst(s: seq<Signal>) {
    forall i, j :: 0 <= i < j < |s| ==> s[i].observedAt >= s[j].observedAt
  }

  ghost predicate IsAnswer(rows: seq<Signal>, subjectType: string, ids: set<string>, answer: seq<Signal>) {
    && NewestFirst(answer)
    && forall row :: row in answer <==> row in rows && Selected(row, subjectType, ids)
  }

  function Time(row: Signal): real { row.observedAt as real }

  function Where(rows: seq<Signal>, subjectType: string, ids: set<string>): seq<Signal> {
    if rows == [] then []
    else
      var n := |rows| - 1;
      Where(rows[..n], subjectType, ids) + (if Selected(rows[n], subjectType, ids) then [rows[n]] else [])
  }

  lemma {:induction false} WhereMembers(rows: seq<Signal>, subjectType: string, ids: set<string>, row: Signal)
    ensures row in Where(rows, subjectType, ids) <==> row in rows && Selected(row, subjectType, ids)
  {
    if rows != [] {
      var n := |rows| - 1;
      WhereMembers(rows[..n], subjectType, ids, row);
      assert rows == rows[..n] + [rows[n]];
    }
  }

  /** SELECT .. WHERE .. ORDER BY observed_at DESC; callers rely on the contract alone. */
  method Query(rows: seq<Signal>, subjectType: string, ids: set<string>) returns (answer: seq<Signal>)
    ensures IsAnswer(rows, subjectType, ids, answer)
    ensures multiset(answer) == multiset(Where(rows, subjectType, ids))
  {
    answer := [];
    for i := 0 to |rows|
      invariant Descending(answer, Time)
      invariant multiset(answer) == multiset(Where(rows[..i], subjectType, ids))
    {
      assert rows[..i + 1][..i] == rows[..i];
      if Selected(rows[i], subjectType, ids) {
        InsertDescends(rows[i], answer, Time);
        InsertKeeps(rows[i], answer, Time);
        answer := Insert(rows[i], answer, Time);
      }
    }
    assert rows[..|rows|] == rows;
    forall row ensures row in answer <==> row in rows && Selected(row, subjectType, ids) {
      WhereMembers(rows, subjectType, ids, row);
      assert row in answer <==> row in multiset(answer);
    }
  }

  // ---------------------------------------------------------------------------
  // First row per type
  // ---------------------------------------------------------------------------

  /** The signal of a type in a list, the last one if there are several. */
  function ByType(list: seq<Signal>, signalType: SignalType): Option<Signal> {
    if list == [] then None
    else if list[|list| - 1].signalType == signalType then Some(list[|list| - 1])
    else ByType(list[..|list| - 1], signalType)
  }

  predicate HasType(list: seq<Signal>, signalType: SignalType) { ByType(list, signalType).Some? }

  lemma {:induction false} ByTypeFinds(list: seq<Signal>, signalType: SignalType)
    ensures var found := ByType(list, signalType);
            && (found.Some? ==> found.value in list && found.value.signalType == signalType)
            && (found == None ==> forall i :: 0 <= i < |list| ==> list[i].signalType != signalType)
  {
    if list != [] && list[|list| - 1].signalType != signalType {
      ByTypeFinds(list[..|list| - 1], signalType);
    }
  }

  lemma ByTypeSnoc(list: seq<Signal>, row: Signal, signalType: SignalType)
    ensures ByType(list + [row], signalType)
         == if row.signalType == signalType then Some(row) else ByType(list, signalType)
  {
    assert (list + [row])[..|list|] == list;
  }

  /** Keep the first row of every type. */
  function FirstPerType(s: seq<Signal>): seq<Signal> {
    if s == [] then []
    else
      var n := |s| - 1;
      FirstPerType(s[..n]) + (if HasType(s[..n], s[n].signalType) then [] else [s[n]])
  }

  lemma {:induction false} FirstPerTypeTypes(s: seq<Signal>, signalType: SignalType)
    ensures HasType(FirstPerType(s), signalType) <==> HasType(s, signalType)
  {
    if s != [] {
      var n := |s| - 1;
      FirstPerTypeTypes(s[..n], signalType);
      ByTypeSnoc(FirstPerType(s[..n]), s[n], signalType);
      assert FirstPerType(s[..n]) + [] == FirstPerType(s[..n]);
    }
  }

  ghost predicate DistinctTypes(s: seq<Signal>) {
    forall i, j :: 0 <= i < j < |s| ==> s[i].signalType != s[j].signalType
  }

  /** row is a newest row of its type among s. */
  ghost predicate NewestIn(s: seq<Signal>, row: Signal) {
    row in s && forall i :: 0 <= i < |s| && s[i].signalType == row.signalType ==> s[i].observedAt <= row.observedAt
  }

  /** kept is a selection of newest rows of s, one per type, newest first. */
  ghost predicate KeepsNewest(s: seq<Signal>, kept: seq<Signal>) {
    && NewestFirst(kept) && DistinctTypes(kept)
    && forall i :: 0 <= i < |kept| ==> NewestIn(s, kept[i])
  }

  lemma OlderRowChangesNothing(s: seq<Signal>, row: Signal, kept: Signal)
    requires NewestFirst(s + [row]) && NewestIn(s, kept)
    ensures NewestIn(s + [row], kept) && kept.observedAt >= row.observedAt
  {
    var k :| 0 <= k < |s| && s[k] == kept;
    assert (s + [row])[k] == kept && (s + [row])[|s|] == row;
    forall i | 0 <= i < |s + [row]| && (s + [row])[i].signalType == kept.signalType
      ensures (s + [row])[i].observedAt <= kept.observedAt
    {
      if i < |s| { assert s[i] == (s + [row])[i]; }
    }
  }

  lemma FirstOfItsType(s: seq<Signal>, row: Signal, kept: seq<Signal>)
    requires KeepsNewest(s, kept) && NewestFirst(s + [row])
    requires ByType(s, row.signalType) == None && ByType(kept, row.signalType) == None
    ensures KeepsNewest(s + [row], kept + [row])
  {
    ByTypeFinds(s, row.signalType);
    ByTypeFinds(kept, row.signalType);
    forall i | 0 <= i < |kept| ensures NewestIn(s + [row], kept[i]) && kept[i].observedAt >= row.observedAt {
      OlderRowChangesNothing(s, row, kept[i]);
    }
    assert NewestIn(s + [row], row) by {
      assert (s + [row])[|s|] == row;
    }
  }

  lemma {:induction false} FirstPerTypeKeeps(s: seq<Signal>)
    requires NewestFirst(s)
    ensures KeepsNewest(s, FirstPerType(s))
  {
    if s != [] {
      var n := |s| - 1;
      var front, row := FirstPerType(s[..n]), s[n];
      assert s == s[..n] + [row];
      FirstPerTypeKeeps(s[..n]);
      FirstPerTypeTypes(s[..n], row.signalType);
      if HasType(s[..n], row.signalType) {
        assert front + [] == front;
        forall i | 0 <= i < |front| ensures NewestIn(s, front[i]) {
          OlderRowChangesNothing(s[..n], row, front[i]);
        }
      } else {
        FirstOfItsType(s[..n], row, front);
      }
    }
  }

  /** list holds, newest first, exactly one newest row for every type the subject has. */
  ghost predicate IsLatest(rows: seq<Signal>, subjectType: string, id: string, list: seq<Signal>) {
    && NewestFirst(list) && DistinctTypes(list)
    && (forall i :: 0 <= i < |list| ==> IsNewest(rows, subjectType, id, list[i]))
    && (forall k :: 0 <= k < |rows| && Selected(rows[k], subjectType, {id}) ==> HasType(list, rows[k].signalType))
  }

  /** row is a newest row of its type stored for the subject. */
  ghost predicate IsNewest(rows: seq<Signal>, subjectType: string, id: string, row: Signal) {
    && row in rows && Selected(row, subjectType, {id})
    && forall k :: 0 <= k < |rows| && Selected(rows[k], subjectType, {id}) && rows[k].signalType == row.signalType
         ==> rows[k].observedAt <= row.observedAt
  }

  lemma AnswerGivesLatest(rows: seq<Signal>, subjectType: string, id: string, answer: seq<Signal>)
    requires IsAnswer(rows, subjectType, {id}, answer)
    ensures IsLatest(rows, subjectType, id, FirstPerType(answer))
  {
    var list := FirstPerType(answer);
    FirstPerTypeKeeps(answer);
    forall i | 0 <= i < |list| ensures IsNewest(rows, subjectType, id, list[i]) {
      assert NewestIn(answer, list[i]);
      forall k | 0 <= k < |rows| && Selected(rows[k], subjectType, {id}) && rows[k].signalType == list[i].signalType
        ensures rows[k].observedAt <= list[i].observedAt
      {
        assert rows[k] in answer;
      }
    }
    forall k | 0 <= k < |rows| && Selected(rows[k], subjectType, {id}) ensures HasType(list, rows[k].signalType) {
      assert rows[k] in answer;
      FirstPerTypeTypes(answer, rows[k].signalType);
      ByTypeFinds(answer, rows[k].signalType);
    }
  }

  // ---------------------------------------------------------------------------
  // Every such list can be read
  // ---------------------------------------------------------------------------

  /** Behind every row that is as new, so also behind the row that was kept for its type. */
  function InsertBehind(row: Signal, s: seq<Signal>): seq<Signal> {
    if s == [] then [row]
    else
      var n := |s| - 1;
      if row.observedAt <= s[n].observedAt then s + [row] else InsertBehind(row, s[..n]) + [s[n]]
  }

  lemma {:induction false} InsertBehindKeeps(row: Signal, s: seq<Signal>)
    ensures multiset(InsertBehind(row, s)) == multiset(s) + multiset{row}
  {
    if s != [] {
      var n := |s| - 1;
      assert s == s[..n] + [s[n]];
      if row.observedAt > s[n].observedAt {
        InsertBehindKeeps(row, s[..n]);
      }
    }
  }

  lemma {:induction false} InsertBehindOrders(row: Signal, s: seq<Signal>)
    requires NewestFirst(s)
    ensures NewestFirst(InsertBehind(row, s))
  {
    if s != [] && row.observedAt > s[|s| - 1].observedAt {
      var n := |s| - 1;
      var front := InsertBehind(row, s[..n]);
      InsertBehindOrders(row, s[..n]);
      InsertBehindKeeps(row, s[..n]);
      assert NoneNewer(s[..n], s[n]);
      NoneNewerIn(row, s[..n], front, s[n]);
      AppendOrdered(front, s[n]);
    }
  }

  ghost predicate NoneNewer(s: seq<Signal>, row: Signal) {
    forall i :: 0 <= i < |s| ==> s[i].observedAt >= row.observedAt
  }

  lemma NoneNewerIn(row: Signal, s: seq<Signal>, grown: seq<Signal>, last: Signal)
    requires NoneNewer(s, last) && row.observedAt >= last.observedAt && multiset(grown) == multiset(s) + multiset{row}
    ensures NoneNewer(grown, last)
  {
    forall i | 0 <= i < |grown| ensures grown[i].observedAt >= last.observedAt {
      assert grown[i] in multiset(grown);
      assert grown[i] == row || grown[i] in s;
    }
  }

  lemma AppendOrdered(s: seq<Signal>, row: Signal)
    requires NewestFirst(s) && NoneNewer(s, row)
    ensures NewestFirst(s + [row])
  {
  }

  /** A row behind one of its own type does not show. */
  lemma {:induction false} InsertBehindUnseen(row: Signal, s: seq<Signal>, i: nat)
    requires i < |s| && s[i].signalType == row.signalType && s[i].observedAt >= row.observedAt
    ensures FirstPerType(InsertBehind(row, s)) == FirstPerType(s)
  {
    var n := |s| - 1;
    var last := s[n];
    if row.observedAt <= last.observedAt {
      ByTypeFinds(s, row.signalType);
      assert (s + [row])[..|s|] == s;
      assert FirstPerType(s) + [] == FirstPerType(s);
    } else {
      var front := InsertBehind(row, s[..n]);
      InsertBehindUnseen(row, s[..n], i);
      assert (front + [last])[..|front|] == front;
      FirstPerTypeTypes(front, last.signalType);
      FirstPerTypeTypes(s[..n], last.signalType);
      hide InsertBehind;
    }
  }

  /** The list, with the other matching rows among the first n behind it. */
  function Refilled(rows: seq<Signal>, n: nat, subjectType: string, id: string, list: seq<Signal>): seq<Signal>
    requires n <= |rows|
  {
    if n == 0 then list
    else
      var front, row := Refilled(rows, n - 1, subjectType, id, list), rows[n - 1];
      if Selected(row, subjectType, {id}) && row !in list then InsertBehind(row, front) else front
  }

  lemma {:induction false} FirstOfDistinct(list: seq<Signal>)
    requires DistinctTypes(list)
    ensures FirstPerType(list) == list
  {
    if list != [] {
      var n := |list| - 1;
      FirstOfDistinct(list[..n]);
      ByTypeFinds(list[..n], list[n].signalType);
      assert list == list[..n] + [list[n]];
    }
  }

  ghost predicate ReadsAs(answer: seq<Signal>, list: seq<Signal>) {
    NewestFirst(answer) && FirstPerType(answer) == list && forall row :: row in list ==> row in answer
  }

  lemma {:induction false} RefilledReadsList(rows: seq<Signal>, n: nat, subjectType: string, id: string,
                                             list: seq<Signal>)
    requires n <= |rows| && IsLatest(rows, subjectType, id, list)
    ensures ReadsAs(Refilled(rows, n, subjectType, id, list), list)
  {
    if n == 0 {
      FirstOfDistinct(list);
    } else {
      RefilledReadsList(rows, n - 1, subjectType, id, list);
      var row := rows[n - 1];
      if Selected(row, subjectType, {id}) && row !in list {
        ListCovers(rows, subjectType, id, list, row);
        hide ReadsAs, IsLatest, InsertBehind;
        var j :| 0 <= j < |list| && list[j].signalType == row.signalType && list[j].observedAt >= row.observedAt;
        StillReads(Refilled(rows, n - 1, subjectType, id, list), list, row, j);
      }
    }
  }

  lemma StillReads(front: seq<Signal>, list: seq<Signal>, row: Signal, j: nat)
    requires ReadsAs(front, list)
    requires j < |list| && list[j].signalType == row.signalType && list[j].observedAt >= row.observedAt
    ensures ReadsAs(InsertBehind(row, front), list)
  {
    assert list[j] in front;
    var i :| 0 <= i < |front| && front[i] == list[j];
    InsertBehindOrders(row, front);
    InsertBehindKeeps(row, front);
    InsertBehindUnseen(row, front, i);
    hide InsertBehind, NewestFirst, FirstPerType;
    forall kept | kept in list ensures kept in InsertBehind(row, front) {
      assert kept in multiset(front);
      assert kept in multiset(InsertBehind(row, front));
    }
  }

  lemma ListCovers(rows: seq<Signal>, subjectType: string, id: string, list: seq<Signal>, row: Signal)
    requires IsLatest(rows, subjectType, id, list) && row in rows && Selected(row, subjectType, {id})
    ensures exists j :: 0 <= j < |list| && list[j].signalType == row.signalType && list[j].observedAt >= row.observedAt
  {
    ByTypeFinds(list, row.signalType);
    var j :| 0 <= j < |list| && list[j] == ByType(list, row.signalType).value;
    assert IsNewest(rows, subjectType, id, list[j]);
  }

  /** How often a row occurs in the refilled list. */
  lemma {:induction false} RefilledCounts(rows: seq<Signal>, n: nat, subjectType: string, id: string,
                                          list: seq<Signal>, x: Signal)
    requires n <= |rows|
    ensures multiset(Refilled(rows, n, subjectType, id, list))[x] ==
            if x in list then multiset(list)[x] else multiset(Where(rows[..n], subjectType, {id}))[x]
  {
    hide InsertBehind, Selected;
    if n > 0 {
      RefilledCounts(rows, n - 1, subjectType, id, list, x);
      CountBehind(rows[n - 1], Refilled(rows, n - 1, subjectType, id, list), x);
      WhereNext(rows, n, subjectType, {id}, x);
      hide Where;
    }
  }

  lemma CountBehind(row: Signal, s: seq<Signal>, x: Signal)
    ensures multiset(InsertBehind(row, s))[x] == multiset(s)[x] + (if x == row then 1 else 0)
  {
    InsertBehindKeeps(row, s);
  }

  lemma WhereNext(rows: seq<Signal>, n: nat, subjectType: string, ids: set<string>, x: Signal)
    requires 0 < n <= |rows|
    ensures multiset(Where(rows[..n], subjectType, ids))[x] ==
            multiset(Where(rows[..n - 1], subjectType, ids))[x]
            + (if Selected(rows[n - 1], subjectType, ids) && x == rows[n - 1] then 1 else 0)
  {
    assert rows[..n][..n - 1] == rows[..n - 1];
  }

  lemma {:induction false} WhereCounts(rows: seq<Signal>, subjectType: string, ids: set<string>, x: Signal)
    ensures multiset(Where(rows, subjectType, ids))[x] == if Selected(x, subjectType, ids) then multiset(rows)[x] else 0
  {
    if rows != [] {
      var n := |rows| - 1;
      assert rows == rows[..n] + [rows[n]];
      WhereCounts(rows[..n], subjectType, ids, x);
    }
  }

  /**
   On a table with one row per key every such list is what the query's answer gives in some order of
   the ties; the answer holds each matching row once.
   */
  lemma {:induction false} EveryLatestIsRead(rows: seq<Signal>, subjectType: string, id: string, list: seq<Signal>)
    returns (answer: seq<Signal>)
    requires Unique(rows) && IsLatest(rows, subjectType, id, list)
    ensures IsAnswer(rows, subjectType, {id}, answer) && FirstPerType(answer) == list
    ensures multiset(answer) == multiset(Where(rows, subjectType, {id}))
  {
    answer := Refilled(rows, |rows|, subjectType, id, list);
    RefilledReadsList(rows, |rows|, subjectType, id, list);
    assert rows[..|rows|] == rows;
    forall x ensures multiset(answer)[x] == multiset(Where(rows, subjectType, {id}))[x] {
      RefilledCounts(rows, |rows|, subjectType, id, list, x);
      if x in list {
        OnceEach(rows, x);
        OnceEach(list, x);
        WhereCounts(rows, subjectType, {id}, x);
      }
    }
    assert multiset(answer) == multiset(Where(rows, subjectType, {id}));
    forall row ensures row in answer <==> row in rows && Selected(row, subjectType, {id}) {
      WhereMembers(rows, subjectType, {id}, row);
      assert row in answer <==> row in multiset(answer);
    }
  }

  /** _latest_signals_for. */
  method LatestSignalsFor(rows: seq<Signal>, subjectType: string, id: string) returns (deduped: seq<Signal>)
    ensures IsLatest(rows, subjectType, id, deduped)
  {
    hide IsAnswer, IsLatest;
    var answer := Query(rows, subjectType, {id});
    var seen: set<SignalType> := {};
    deduped := [];
    for i := 0 to |answer|
      invariant forall t :: t in seen <==> HasType(answer[..i], t)
      invariant deduped == FirstPerType(answer[..i])
    {
      var row := answer[i];
      assert answer[..i + 1][..i] == answer[..i] && answer[..i + 1] == answer[..i] + [row];
      forall t ensures HasType(answer[..i + 1], t) <==> t == row.signalType || HasType(answer[..i], t) {
        ByTypeSnoc(answer[..i], row, t);
      }
      if row.signalType !in seen {
        seen := seen + {row.signalType};
        deduped := deduped + [row];
      }
    }
    assert answer[..|answer|] == answer;
    AnswerGivesLatest(rows, subjectType, id, answer);
  }

  function OfSubject(s: seq<Signal>, id: string): seq<Signal> {
    if s == [] then []
    else
      var n := |s| - 1;
      OfSubject(s[..n], id) + (if s[n].subjectId == id then [s[n]] else [])
  }

  lemma {:induction false} OfSubjectKeeps(s: seq<Signal>, id: string)
    requires NewestFirst(s)
    ensures NewestFirst(OfSubject(s, id))
    ensures forall row :: row in OfSubject(s, id) <==> row in s && row.subjectId == id
  {
    if s != [] {
      var n := |s| - 1;
      assert s == s[..n] + [s[n]];
      OfSubjectKeeps(s[..n], id);
      var front := OfSubject(s[..n], id);
      forall i | 0 <= i < |front| ensures front[i].observedAt >= s[n].observedAt {
        assert front[i] in s[..n];
      }
    }
  }

  /** One subject's slice of a bulk answer is an answer to that subject's own query. */
  lemma {:induction false} SliceOfBulkAnswer(rows: seq<Signal>, subjectType: string, ids: set<string>,
                                             answer: seq<Signal>, id: string)
    requires IsAnswer(rows, subjectType, ids, answer) && id in ids
    ensures IsAnswer(rows, subjectType, {id}, OfSubject(answer, id))
  {
    OfSubjectKeeps(answer, id);
  }

  function Truthy(ids: seq<string>): set<string> { set id | id in ids && id != "" }

  function GetOrEmpty(m: map<string, seq<Signal>>, id: string): seq<Signal> {
    if id in m then m[id] else []
  }

  lemma NoBuckets(id: string)
    ensures FirstPerType(OfSubject([], id)) == []
  {
  }

  lemma BucketStep(s: seq<Signal>, row: Signal, id: string)
    ensures FirstPerType(OfSubject(s + [row], id)) ==
            var bucket := FirstPerType(OfSubject(s, id));
            if row.subjectId != id || HasType(bucket, row.signalType) then bucket else bucket + [row]
  {
    var mine := OfSubject(s, id);
    assert (s + [row])[..|s|] == s;
    assert mine + [] == mine && (mine + [row])[..|mine|] == mine;
    FirstPerTypeTypes(mine, row.signalType);
  }

  /** _latest_signals_bulk: one pass over one answer, bucketed by subject. */
  method LatestSignalsBulk(rows: seq<Signal>, subjectType: string, ids: seq<string>)
    returns (bySubject: map<string, seq<Signal>>)
    ensures forall id :: id in Truthy(ids) ==> IsLatest(rows, subjectType, id, GetOrEmpty(bySubject, id))
    ensures forall id :: id in bySubject ==> id in Truthy(ids) && bySubject[id] != []
  {
    hide IsLatest, NewestFirst, FirstPerType, OfSubject, HasType;
    forall id ensures FirstPerType(OfSubject([], id)) == [] { NoBuckets(id); }
    var wanted := Truthy(ids);
    bySubject := map[];
    var answer: seq<Signal> := [];
    if wanted != {} {
      answer := Query(rows, subjectType, wanted);
    }
    for i := 0 to |answer|
      invariant forall id :: id in bySubject ==> id in wanted && bySubject[id] != []
      invariant forall id :: GetOrEmpty(bySubject, id) == FirstPerType(OfSubject(answer[..i], id))
    {
      var row := answer[i];
      assert row in answer;
      assert answer[..i + 1] == answer[..i] + [row];
      forall id ensures FirstPerType(OfSubject(answer[..i + 1], id)) ==
                        var bucket := FirstPerType(OfSubject(answer[..i], id));
                        if row.subjectId != id || HasType(bucket, row.signalType) then bucket else bucket + [row] {
        BucketStep(answer[..i], row, id);
      }
      ghost var before := bySubject;
      var perType := GetOrEmpty(bySubject, row.subjectId);
      if !HasType(perType, row.signalType) {
        bySubject := bySubject[row.subjectId := perType + [row]];
      }
      forall id ensures GetOrEmpty(bySubject, id) == FirstPerType(OfSubject(answer[..i + 1], id)) {
        assert GetOrEmpty(before, id) == FirstPerType(OfSubject(answer[..i], id));
      }
    }
    assert answer[..|answer|] == answer;
    forall id | id in wanted ensures IsLatest(rows, subjectType, id, GetOrEmpty(bySubject, id)) {
      SliceOfBulkAnswer(rows, subjectType, wanted, answer, id);
      AnswerGivesLatest(rows, subjectType, id, OfSubject(answer, id));
    }
  }

  // ---------------------------------------------------------------------------
  // With one row per day the newest row of a type is unique
  // ---------------------------------------------------------------------------

  lemma NewestUnique(rows: seq<Signal>, subjectType: string, id: string, a: Signal, b: Signal)
    requires Unique(rows) && IsNewest(rows, subjectType, id, a) && IsNewest(rows, subjectType, id, b)
    requires a.signalType == b.signalType
    ensures a == b
  {
    var i :| 0 <= i < |rows| && rows[i] == a;
    var j :| 0 <= j < |rows| && rows[j] == b;
    assert KeyOf(rows[i]) == KeyOf(rows[j]);
  }

  /** Two readings of the same subject hold the same row for every type, however ties came. */
  lemma {:induction false} LatestSameByType(rows: seq<Signal>, subjectType: string, id: string, a: seq<Signal>,
                                            b: seq<Signal>, signalType: SignalType)
    requires Unique(rows) && IsLatest(rows, subjectType, id, a) && IsLatest(rows, subjectType, id, b)
    ensures ByType(a, signalType) == ByType(b, signalType)
  {
    var x, y := ByType(a, signalType), ByType(b, signalType);
    ByTypeFinds(a, signalType);
    ByTypeFinds(b, signalType);
    if y.Some? {
      LatestCovers(rows, subjectType, id, a, y.value);
    }
    if x.Some? {
      LatestCovers(rows, subjectType, id, b, x.value);
      NewestUnique(rows, subjectType, id, x.value, y.value);
    }
  }

  lemma LatestCovers(rows: seq<Signal>, subjectType: string, id: string, list: seq<Signal>, row: Signal)
    requires IsLatest(rows, subjectType, id, list) && row in rows && Selected(row, subjectType, {id})
    ensures HasType(list, row.signalType)
  {
  }
}
