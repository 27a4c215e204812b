/** Keyset pagination over the audit log: backend/internal/auditview/service.go. */
module Pagination {
  import opened Wrappers

  // A UUID, ordered as PostgreSQL orders it; 0 is uuid.Nil.
  type Id = nat

  // A NULL environment reads as "", and the characters of text are its bytes. Times are
  // nanoseconds since Go's zero time; `stamp` is the length of this one written in RFC 3339.
  datatype Entry = Entry(id: Id, actor: Option<Id>, project: Option<Id>, action: string, environment: string,
      createdAt: int, stamp: nat)

  // A decoded page cursor: absent, not decodable, or the key and filter it was made for.
  // `length` is that of its text.
  datatype Cursor = NoCursor | Garbled(length: nat)
    | After(createdAt: int, id: Id, project: Id, action: string, environment: string, length: nat)

  datatype Filter = Filter(action: string, environment: string, from: int, to: int, cursor: Cursor, limit: int)

  datatype Result = Page(entries: seq<Entry>, next: Cursor) | Denied | Invalid

  const DAY := 24 * 60 * 60 * 1_000_000_000

  predicate Clean(s: string) { forall i :: 0 <= i < |s| ==> s[i] != '\r' && s[i] != '\n' && s[i] != '\0' }

  predicate Short(c: Cursor) { c == NoCursor || c.length <= 1024 }

  predicate ValidFilter(f: Filter) {
    && 1 <= f.limit <= 100 && |f.action| <= 100 && |f.environment| <= 50 && Short(f.cursor)
    && Clean(f.action + f.environment)
    && f.from != 0 && f.to != 0 && f.from < f.to <= f.from + 31 * DAY
  }

  // ---------------------------------------------------------------- the listing order

  // ORDER BY created_at DESC, id DESC.
  predicate Above(a: Entry, b: Entry) { a.createdAt > b.createdAt || (a.createdAt == b.createdAt && a.id > b.id) }

  // id is the primary key.
  predicate Keyed(t: set<Entry>) { forall a, b :: a in t && b in t && a.id == b.id ==> a == b }

  predicate IsTop(t: set<Entry>, m: Entry) { m in t && forall e :: e in t && e != m ==> Above(m, e) }

  lemma {:induction false} TopExists(t: set<Entry>)
    requires t != {} && Keyed(t)
    ensures exists m :: IsTop(t, m)
    decreases t
  {
    var x: Entry :| x in t;
    if t == {x} {
      assert IsTop(t, x);
    } else {
      TopExists(t - {x});
      var m: Entry :| IsTop(t - {x}, m);
      assert x.id != m.id;
      if Above(x, m) {
        forall e | e in t && e != x ensures Above(x, e) {
          if e != m { assert Above(m, e); }
        }
        assert IsTop(t, x);
      } else {
        assert IsTop(t, m);
      }
    }
  }

  function Top(t: set<Entry>): (m: Entry)
    requires t != {} && Keyed(t)
    ensures IsTop(t, m)
  {
    TopExists(t);
    var m: Entry :| IsTop(t, m);
    m
  }

  function Sorted(t: set<Entry>): (r: seq<Entry>)
    requires Keyed(t)
    ensures |r| == |t|
  {
    if t == {} then [] else [Top(t)] + Sorted(t - {Top(t)})
  }

  predicate Matches(project: Id, f: Filter, e: Entry) {
    && e.project == Some(project) && f.from <= e.createdAt < f.to
    && f.action in {"", e.action} && f.environment in {"", e.environment}
  }

  predicate Below(c: Cursor, e: Entry) {
    c.After? ==> e.createdAt < c.createdAt || (e.createdAt == c.createdAt && e.id < c.id)
  }

  function Selection(t: set<Entry>, project: Id, f: Filter, c: Cursor): set<Entry> {
    set e | e in t && Matches(project, f, e) && Below(c, e)
  }

  function Take<T>(s: seq<T>, n: nat): seq<T> { if n < |s| then s[..n] else s }

  // ---------------------------------------------------------------- the text of a cursor

  // What encoding/json writes for one byte of a string.
  function CharLength(c: char): nat {
    if c in {'"', '\\', '\U{8}', '\U{C}', '\n', '\r', '\t'} then 2
    else if c < ' ' || c in {'<', '>', '&'} then 6
    else 1
  }

  // U+2028 and U+2029 in UTF-8, written as \u2028 and \u2029.
  predicate LineSeparator(s: string) { s == "\U{E2}\U{80}\U{A8}" || s == "\U{E2}\U{80}\U{A9}" }

  function TextLength(s: string): nat {
    if s == [] then 0
    else if |s| >= 3 && LineSeparator(s[..3]) then 6 + TextLength(s[3..])
    else CharLength(s[0]) + TextLength(s[1..])
  }

  // The names, quotes and two identifiers take 130 bytes.
  function JsonLength(f: Filter, e: Entry): nat { 130 + e.stamp + TextLength(f.action) + TextLength(f.environment) }

  // base64.RawURLEncoding.EncodedLen.
  function Base64Length(n: nat): nat { n / 3 * 4 + (n % 3 * 8 + 5) / 6 }

  // ---------------------------------------------------------------- one page

  predicate AcceptsCursor(project: Id, f: Filter, c: Cursor) {
    c.NoCursor? || (c.After? && c.id != 0 && c.project == project && c.action == f.action
        && c.environment == f.environment)
  }

  function CursorAt(project: Id, f: Filter, e: Entry): Cursor {
    After(e.createdAt, e.id, project, f.action, f.environment, Base64Length(JsonLength(f, e)))
  }

  function Search(t: set<Entry>, project: Id, f: Filter, admitted: bool): (r: Result)
    requires Keyed(t)
  {
    if !ValidFilter(f) then Invalid
    else if !admitted then Denied
    else if !AcceptsCursor(project, f, f.cursor) then Invalid
    else
      var all := Sorted(Selection(t, project, f, f.cursor));
      if |all| <= f.limit then Page(all, NoCursor)
      else Page(all[..f.limit], CursorAt(project, f, all[f.limit - 1]))
  }

  class Service {
    var log: set<Entry>

    constructor (log: set<Entry>)
      ensures this.log == log
    {
      this.log := log;
    }

    // The first `max` rows of the SELECT.
    method Query(project: Id, f: Filter, max: nat) returns (entries: Option<seq<Entry>>)
      requires Keyed(log)
      ensures entries == if AcceptsCursor(project, f, f.cursor)
                         then Some(Take(Sorted(Selection(log, project, f, f.cursor)), max)) else None
    {
      if f.cursor != NoCursor {
        if f.cursor.Garbled? {
          return None;
        }
        var c := f.cursor;
        if c.id == 0 || c.project != project || c.action != f.action || c.environment != f.environment {
          return None;
        }
      }
      var rows := Fetch(Selection(log, project, f, f.cursor), max);
      return Some(rows);
    }

    // ORDER BY ... LIMIT, row by row.
    method Fetch(selected: set<Entry>, max: nat) returns (rows: seq<Entry>)
      requires Keyed(selected)
      ensures rows == Take(Sorted(selected), max)
    {
      var left := selected;
      rows := [];
      while left != {} && |rows| < max
        invariant left <= selected && |rows| <= max
        invariant Sorted(selected) == rows + Sorted(left)
        decreases left
      {
        var e := Top(left);
        assert rows + Sorted(left) == rows + [e] + Sorted(left - {e});
        rows := rows + [e];
        left := left - {e};
      }
    }

    method SearchPage(project: Id, f: Filter, admitted: bool) returns (r: Result)
      requires Keyed(log)
      ensures r == Search(log, project, f, admitted)
    {
      if !ValidFilter(f) {
        return Invalid;
      }
      if !admitted {
        return Denied;
      }
      var found := Query(project, f, f.limit + 1);
      if found.None? {
        return Invalid;
      }
      var entries := found.value;
      if |entries| > f.limit {
        var page := entries[..f.limit];
        return Page(page, CursorAt(project, f, page[|page| - 1]));
      }
      return Page(entries, NoCursor);
    }
  }

  // ---------------------------------------------------------------- what Sorted means

  ghost predicate Descending(s: seq<Entry>) { forall i, j :: 0 <= i < j < |s| ==> Above(s[i], s[j]) }

  lemma {:induction false} SortedHolds(t: set<Entry>, e: Entry)
    requires Keyed(t)
    ensures e in Sorted(t) <==> e in t
    decreases t
  {
    if t != {} { SortedHolds(t - {Top(t)}, e); }
  }

  lemma {:induction false} SortedDescends(t: set<Entry>)
    requires Keyed(t)
    ensures Descending(Sorted(t))
    decreases t
  {
    if t != {} {
      var rest := t - {Top(t)};
      SortedDescends(rest);
      forall j | 0 <= j < |Sorted(rest)| ensures Above(Top(t), Sorted(rest)[j]) {
        SortedHolds(rest, Sorted(rest)[j]);
      }
    }
  }

  lemma TopIsNotBelow(t: set<Entry>, m: Entry, last: Entry, rest: set<Entry>)
    requires IsTop(t, m) && last in t - {m} && rest == set e | e in t && Above(last, e)
    ensures rest == set e | e in t - {m} && Above(last, e)
  {
    assert Above(m, last);
  }

  // ---------------------------------------------------------------- a page in words

  predicate Stands(t: set<Entry>, project: Id, f: Filter, e: Entry) {
    && e in t && e.project == Some(project) && f.from <= e.createdAt < f.to
    && (f.action == "" || e.action == f.action) && (f.environment == "" || e.environment == f.environment)
    && (f.cursor.After? ==>
          || e.createdAt < f.cursor.createdAt
          || (e.createdAt == f.cursor.createdAt && e.id < f.cursor.id))
  }

  // What is refused before, and what after, the caller is admitted.
  lemma RefusalsInWords(t: set<Entry>, project: Id, f: Filter, admitted: bool)
    requires Keyed(t)
    ensures var valid := && 1 <= f.limit <= 100 && |f.action| <= 100 && |f.environment| <= 50
                         && (f.cursor == NoCursor || f.cursor.length <= 1024)
                         && (forall c :: c in f.action + f.environment ==> c !in {'\r', '\n', '\0'})
                         && f.from != 0 && f.to != 0 && f.from < f.to <= f.from + 2_678_400_000_000_000;
            var fits := || f.cursor.NoCursor?
                        || (&& f.cursor.After? && f.cursor.id != 0 && f.cursor.project == project
                            && f.cursor.action == f.action && f.cursor.environment == f.environment);
            && (Search(t, project, f, admitted).Page? <==> valid && admitted && fits)
            && (Search(t, project, f, admitted).Denied? <==> valid && !admitted)
  {
    CleanInWords(f.action + f.environment);
  }

  lemma CleanInWords(s: string)
    ensures Clean(s) <==> forall c :: c in s ==> c !in {'\r', '\n', '\0'}
  {
    if !Clean(s) {
      var i :| 0 <= i < |s| && !(s[i] != '\r' && s[i] != '\n' && s[i] != '\0');
      assert s[i] in s;
    }
  }

  // A page is the newest rows that stand, newest first. It has a cursor, made of its last
  // row and the filter, exactly when rows are left, and then it is full.
  lemma PageInWords(t: set<Entry>, project: Id, f: Filter, admitted: bool)
    requires Keyed(t) && Search(t, project, f, admitted).Page?
    ensures var Page(rows, next) := Search(t, project, f, admitted);
            && |rows| <= f.limit
            && (forall e :: e in rows ==> Stands(t, project, f, e))
            && (forall i, j :: 0 <= i < j < |rows| ==>
                  || rows[i].createdAt > rows[j].createdAt
                  || (rows[i].createdAt == rows[j].createdAt && rows[i].id > rows[j].id))
            && (next == NoCursor <==> forall e :: Stands(t, project, f, e) ==> e in rows)
            && (next != NoCursor ==>
                  && |rows| == f.limit
                  && var last := rows[f.limit - 1];
                  && next == After(last.createdAt, last.id, project, f.action, f.environment, next.length)
                  && forall e :: Stands(t, project, f, e) && e !in rows ==>
                       last.createdAt > e.createdAt || (last.createdAt == e.createdAt && last.id > e.id))
  {
    var chosen := Selection(t, project, f, f.cursor);
    var all := Sorted(chosen);
    SortedDescends(chosen);
    forall e ensures e in all <==> Stands(t, project, f, e) { SortedHolds(chosen, e); }
    PageOfSorted(all, f.limit);
  }

  // Cutting a listing.
  lemma PageOfSorted(all: seq<Entry>, limit: nat)
    requires Descending(all) && limit > 0
    ensures |all| > limit ==> all[limit] in all && all[limit] !in all[..limit]
    ensures |all| > limit ==> forall e :: e in all && e !in all[..limit] ==> Above(all[limit - 1], e)
    ensures forall e :: e in Take(all, limit) ==> e in all
  {
    if |all| > limit {
      forall e | e in all && e !in all[..limit] ensures Above(all[limit - 1], e) {
        InTail(all, limit, e);
        var k :| 0 <= k < |all[limit..]| && all[limit..][k] == e;
        assert Above(all[limit - 1], all[limit + k]);
      }
      forall k | 0 <= k < limit ensures all[..limit][k] != all[limit] { assert Above(all[k], all[limit]); }
    }
  }

  // What lies below the k-th row is the rest of the list.
  lemma {:induction false} SortedBelow(t: set<Entry>, k: nat, rest: set<Entry>)
    requires Keyed(t) && 0 < k <= |Sorted(t)|
    requires rest == set e | e in t && Above(Sorted(t)[k - 1], e)
    ensures Keyed(rest) && Sorted(rest) == Sorted(t)[k..]
    decreases k
  {
    var m := Top(t);
    if k == 1 {
      assert rest == t - {m};
    } else {
      var last := Sorted(t)[k - 1];
      assert last == Sorted(t - {m})[k - 2];
      SortedHolds(t - {m}, last);
      TopIsNotBelow(t, m, last, rest);
      SortedBelow(t - {m}, k - 1, rest);
    }
  }

  // ---------------------------------------------------------------- following the cursors

  ghost predicate LogOk(t: set<Entry>) { Keyed(t) && forall e :: e in t ==> e.id != 0 }

  ghost predicate Logs(logs: seq<set<Entry>>) { forall i :: 0 <= i < |logs| ==> LogOk(logs[i]) }

  // The caller repeats its filter with the cursor of the page before; the log it meets
  // may have changed in any way in between.
  function Follow(logs: seq<set<Entry>>, project: Id, f: Filter): (r: (seq<Entry>, bool))
    requires Logs(logs)
    decreases logs
  {
    if logs == [] then ([], false)
    else
      match Search(logs[0], project, f, true)
      case Page(entries, next) =>
        if next == NoCursor then (entries, true)
        else
          var (more, done) := Follow(logs[1..], project, f.(cursor := next));
          (entries + more, done)
      case _ => ([], false)
  }

  ghost predicate Ready(logs: seq<set<Entry>>, project: Id, f: Filter) {
    Logs(logs) && ValidFilter(f) && AcceptsCursor(project, f, f.cursor)
  }

  // The rows of the log now under the cursor.
  ghost function Here(t: set<Entry>, project: Id, f: Filter): seq<Entry>
    requires Keyed(t)
  {
    Sorted(Selection(t, project, f, f.cursor))
  }

  lemma HereHolds(t: set<Entry>, project: Id, f: Filter, e: Entry)
    requires Keyed(t)
    ensures e in Here(t, project, f) <==> e in t && Matches(project, f, e) && Below(f.cursor, e)
  {
    SortedHolds(Selection(t, project, f, f.cursor), e);
  }

  lemma CursorCutsAt(project: Id, f: Filter, last: Entry, e: Entry)
    requires Below(f.cursor, last)
    ensures Below(CursorAt(project, f, last), e) <==> Below(f.cursor, e) && Above(last, e)
  {}

  lemma NextSelection(t: set<Entry>, project: Id, f: Filter, last: Entry, rest: set<Entry>)
    requires Below(f.cursor, last) && rest == set e | e in Selection(t, project, f, f.cursor) && Above(last, e)
    ensures var next := f.(cursor := CursorAt(project, f, last)); Selection(t, project, next, next.cursor) == rest
  {
    var next := f.(cursor := CursorAt(project, f, last));
    forall e ensures e in Selection(t, project, next, next.cursor) <==> e in rest {
      CursorCutsAt(project, f, last, e);
      assert Matches(project, next, e) <==> Matches(project, f, e);
    }
  }

  // What lies below the last row of a full page is the rest of the listing.
  lemma NextPageGoesOn(t: set<Entry>, project: Id, f: Filter, last: Entry)
    requires Keyed(t) && 0 < f.limit <= |Here(t, project, f)| && last == Here(t, project, f)[f.limit - 1]
    ensures Here(t, project, f.(cursor := CursorAt(project, f, last))) == Here(t, project, f)[f.limit..]
  {
    var before := Selection(t, project, f, f.cursor);
    SortedHolds(before, last);
    var rest := set e | e in before && Above(last, e);
    NextSelection(t, project, f, last, rest);
    SortedBelow(before, f.limit, rest);
  }

  // The cursor made for this row is one the next request accepts.
  predicate Fits(f: Filter, e: Entry) { Short(CursorAt(0, f, e)) }

  lemma Base64Fits(n: nat)
    ensures Base64Length(n) <= 1024 <==> n <= 768
  {
    var (q, r) := (n / 3, n % 3);
    assert n == 3 * q + r;
    assert r == 0 || r == 1 || r == 2;
  }

  // Which filters get usable cursors: what counts is the text after escaping.
  lemma FitsIff(f: Filter, e: Entry)
    ensures Fits(f, e) <==> e.stamp + TextLength(f.action) + TextLength(f.environment) <= 638
  {
    Base64Fits(JsonLength(f, e));
  }

  lemma {:induction false} TextIsAtMostSixfold(s: string)
    ensures TextLength(s) <= 6 * |s|
    decreases |s|
  {
    if s == [] {
    } else if |s| >= 3 && LineSeparator(s[..3]) {
      TextIsAtMostSixfold(s[3..]);
    } else {
      TextIsAtMostSixfold(s[1..]);
    }
  }

  // PostgreSQL's times take at most 32 characters, so short enough text always fits.
  lemma ShortTextFits(f: Filter, e: Entry)
    requires e.stamp <= 32 && |f.action| + |f.environment| <= 101
    ensures Fits(f, e)
  {
    FitsIff(f, e);
    TextIsAtMostSixfold(f.action);
    TextIsAtMostSixfold(f.environment);
  }

  // The filter of the next request.
  ghost function NextFilter(t: set<Entry>, project: Id, f: Filter): Filter
    requires Keyed(t) && 0 < f.limit <= |Here(t, project, f)|
  {
    f.(cursor := CursorAt(project, f, Here(t, project, f)[f.limit - 1]))
  }

  lemma SearchTakes(t: set<Entry>, project: Id, f: Filter)
    requires Keyed(t) && ValidFilter(f) && AcceptsCursor(project, f, f.cursor)
    ensures var all := Here(t, project, f);
            Search(t, project, f, true)
            == if |all| <= f.limit then Page(all, NoCursor) else Page(all[..f.limit], NextFilter(t, project, f).cursor)
  {}

  lemma NextFilterIsReady(logs: seq<set<Entry>>, project: Id, f: Filter)
    requires logs != [] && Ready(logs, project, f) && f.limit < |Here(logs[0], project, f)|
    ensures Logs(logs[1..])
    ensures Ready(logs[1..], project, NextFilter(logs[0], project, f))
            <==> Fits(f, Here(logs[0], project, f)[f.limit - 1])
  {
    HereHolds(logs[0], project, f, Here(logs[0], project, f)[f.limit - 1]);
  }

  lemma {:induction false} FollowStep(logs: seq<set<Entry>>, project: Id, f: Filter)
    requires logs != [] && Ready(logs, project, f)
    ensures var all := Here(logs[0], project, f);
            if |all| <= f.limit then Follow(logs, project, f) == (all, true)
            else
              var g := NextFilter(logs[0], project, f);
              && Logs(logs[1..])
              && (Ready(logs[1..], project, g) <==> Fits(f, all[f.limit - 1]))
              && (!Fits(f, all[f.limit - 1]) ==> Follow(logs[1..], project, g) == ([], false))
              && Here(logs[0], project, g) == all[f.limit..]
              && Follow(logs, project, f)
                  == (all[..f.limit] + Follow(logs[1..], project, g).0, Follow(logs[1..], project, g).1)
  {
    var all := Here(logs[0], project, f);
    if |all| > f.limit {
      NextFilterIsReady(logs, project, f);
      NextPageGoesOn(logs[0], project, f, all[f.limit - 1]);
    }
    SearchTakes(logs[0], project, f);
  }

  ghost predicate InSome(logs: seq<set<Entry>>, e: Entry) { exists t :: t in logs && e in t }

  lemma InLaterIsInSome(logs: seq<set<Entry>>, e: Entry)
    requires logs != [] && (e in logs[0] || InSome(logs[1..], e))
    ensures InSome(logs, e)
  {
    if e in logs[0] {
      assert logs[0] in logs;
    } else {
      var t: set<Entry> :| t in logs[1..] && e in t;
      assert t in logs;
    }
  }

  lemma BelowNext(t: set<Entry>, project: Id, f: Filter, e: Entry)
    requires Keyed(t) && 0 < f.limit <= |Here(t, project, f)| && Below(NextFilter(t, project, f).cursor, e)
    ensures Below(f.cursor, e)
  {
    HereHolds(t, project, f, Here(t, project, f)[f.limit - 1]);
  }

  // Every row listed was in the log, matching, when its page was read.
  lemma {:induction false} FollowListsOnlyMatches(logs: seq<set<Entry>>, project: Id, f: Filter, e: Entry)
    requires Ready(logs, project, f) && e in Follow(logs, project, f).0
    ensures Below(f.cursor, e) && Matches(project, f, e) && InSome(logs, e)
    decreases logs
  {
    FollowStep(logs, project, f);
    HereHolds(logs[0], project, f, e);
    if e !in Here(logs[0], project, f) {
      FollowListsOnlyMatches(logs[1..], project, NextFilter(logs[0], project, f), e);
      BelowNext(logs[0], project, f, e);
    }
    InLaterIsInSome(logs, e);
  }

  lemma DescendingJoin(all: seq<Entry>, n: nat, rest: seq<Entry>, c: Cursor)
    requires 0 < n <= |all| && Descending(all) && Descending(rest)
    requires c.After? && c.createdAt == all[n - 1].createdAt && c.id == all[n - 1].id
    requires forall j :: 0 <= j < |rest| ==> Below(c, rest[j])
    ensures Descending(all[..n] + rest)
  {
    forall i, j | 0 <= i < n && 0 <= j < |rest| ensures Above(all[i], rest[j]) {
      assert i < n - 1 ==> Above(all[i], all[n - 1]);
    }
  }

  lemma FollowStaysBelow(logs: seq<set<Entry>>, project: Id, f: Filter)
    requires Ready(logs, project, f)
    ensures var rows := Follow(logs, project, f).0; forall j :: 0 <= j < |rows| ==> Below(f.cursor, rows[j])
  {
    var rows := Follow(logs, project, f).0;
    forall j | 0 <= j < |rows| ensures Below(f.cursor, rows[j]) {
      FollowListsOnlyMatches(logs, project, f, rows[j]);
    }
  }

  // Whatever happens to the log, rows come in listing order, so none comes twice.
  lemma {:induction false} FollowNeverRepeats(logs: seq<set<Entry>>, project: Id, f: Filter)
    requires Ready(logs, project, f)
    ensures Descending(Follow(logs, project, f).0)
    decreases logs
  {
    if logs != [] {
      FollowStep(logs, project, f);
      SortedDescends(Selection(logs[0], project, f, f.cursor));
      var all := Here(logs[0], project, f);
      if |all| > f.limit {
        var g := NextFilter(logs[0], project, f);
        if Fits(f, all[f.limit - 1]) {
          FollowNeverRepeats(logs[1..], project, g);
          FollowStaysBelow(logs[1..], project, g);
        }
        DescendingJoin(all, f.limit, Follow(logs[1..], project, g).0, g.cursor);
      }
    }
  }

  // A row that is there and matches throughout is listed, once the caller has no cursor left.
  lemma {:induction false} FollowMissesNothing(logs: seq<set<Entry>>, project: Id, f: Filter, e: Entry)
    requires Ready(logs, project, f) && Follow(logs, project, f).1
    requires (forall t :: t in logs ==> e in t) && Matches(project, f, e) && Below(f.cursor, e)
    ensures e in Follow(logs, project, f).0
    decreases logs
  {
    FollowStep(logs, project, f);
    var all := Here(logs[0], project, f);
    assert logs[0] in logs;
    HereHolds(logs[0], project, f, e);
    if |all| > f.limit && e !in all[..f.limit] {
      var g := NextFilter(logs[0], project, f);
      InTail(all, f.limit, e);
      HereHolds(logs[0], project, g, e);
      FollowMissesNothing(logs[1..], project, g, e);
    }
  }

  lemma InTail(all: seq<Entry>, n: nat, e: Entry)
    requires n <= |all| && e in all && e !in all[..n]
    ensures e in all[n..]
  {
    assert all == all[..n] + all[n..];
  }

  // Nothing changed below the cursor each page hands on; above it anything may.
  ghost predicate Quiet(logs: seq<set<Entry>>, project: Id, f: Filter)
    requires Logs(logs) && f.limit > 0
    decreases logs
  {
    |logs| > 1 && |Here(logs[0], project, f)| > f.limit ==>
      var g := NextFilter(logs[0], project, f);
      Here(logs[1], project, g) == Here(logs[0], project, g) && Logs(logs[1..]) && Quiet(logs[1..], project, g)
  }

  // Each cursor handed on along this listing fits.
  ghost predicate CursorsFit(f: Filter, rows: seq<Entry>)
    requires f.limit > 0
    decreases |rows|
  {
    |rows| > f.limit ==> Fits(f, rows[f.limit - 1]) && CursorsFit(f, rows[f.limit..])
  }

  // Following the cursors gave all of `rows` and came to an end, exactly if the cursors fit.
  ghost predicate ListsExactly(followed: (seq<Entry>, bool), f: Filter, rows: seq<Entry>)
    requires f.limit > 0
  {
    followed == (rows, true) <==> CursorsFit(f, rows)
  }

  lemma {:induction false} SameTextFits(f: Filter, g: Filter, rows: seq<Entry>)
    requires f.limit == g.limit > 0 && f.action == g.action && f.environment == g.environment
    ensures CursorsFit(f, rows) <==> CursorsFit(g, rows)
    decreases |rows|
  {
    if |rows| > f.limit { SameTextFits(f, g, rows[f.limit..]); }
  }

  lemma {:induction false} ShortTextAlwaysFits(f: Filter, rows: seq<Entry>)
    requires f.limit > 0 && |f.action| + |f.environment| <= 101
    requires forall i :: 0 <= i < |rows| ==> rows[i].stamp <= 32
    ensures CursorsFit(f, rows)
    decreases |rows|
  {
    if |rows| > f.limit {
      ShortTextFits(f, rows[f.limit - 1]);
      ShortTextAlwaysFits(f, rows[f.limit..]);
    }
  }

  lemma OnePageLess(pages: nat, limit: nat, rows: nat)
    requires limit < rows <= pages * limit
    ensures pages > 1 && rows - limit <= (pages - 1) * limit
  {}

  lemma QuietGoesOn(logs: seq<set<Entry>>, project: Id, f: Filter, all: seq<Entry>, g: Filter)
    requires Ready(logs, project, f) && Quiet(logs, project, f) && logs != [] && all == Here(logs[0], project, f)
    requires f.limit < |all| && Fits(f, all[f.limit - 1]) && g == NextFilter(logs[0], project, f) && |logs| > 1
    ensures Ready(logs[1..], project, g) && Quiet(logs[1..], project, g)
    ensures Here(logs[1..][0], project, g) == all[f.limit..]
    ensures var rest := Follow(logs[1..], project, g); Follow(logs, project, f) == (all[..f.limit] + rest.0, rest.1)
  {
    FollowStep(logs, project, f);
  }

  lemma TakeAndRest(all: seq<Entry>, n: nat)
    requires n <= |all|
    ensures all[..n] + all[n..] == all
  {}

  // So many pages of this size hold so many rows.
  predicate Enough(pages: nat, limit: nat, rows: nat) {
    rows <= limit || (pages > 1 && Enough(pages - 1, limit, rows - limit))
  }

  lemma EnoughIsLeft(logs: seq<set<Entry>>, limit: nat, all: seq<Entry>)
    requires |logs| > 1 && limit < |all| && Enough(|logs| - 1, limit, |all| - limit)
    ensures Enough(|logs[1..]|, limit, |all[limit..]|)
  {}

  lemma EnoughAfterAPage(pages: nat, limit: nat, rows: nat)
    requires limit < rows && Enough(pages, limit, rows)
    ensures pages > 1 && Enough(pages - 1, limit, rows - limit)
  {}

  lemma {:induction false} EnoughPages(pages: nat, limit: nat, rows: nat)
    requires pages > 0 && rows <= pages * limit
    ensures Enough(pages, limit, rows)
    decreases pages
  {
    if rows > limit {
      OnePageLess(pages, limit, rows);
      EnoughPages(pages - 1, limit, rows - limit);
    }
  }

  lemma {:induction false} QuietPagesListEverything(logs: seq<set<Entry>>, project: Id, f: Filter)
    requires Ready(logs, project, f) && Quiet(logs, project, f) && logs != []
    requires Enough(|logs|, f.limit, |Here(logs[0], project, f)|)
    ensures ListsExactly(Follow(logs, project, f), f, Here(logs[0], project, f))
    decreases logs
  {
    var all := Here(logs[0], project, f);
    if |all| > f.limit && Fits(f, all[f.limit - 1]) {
      var g := NextFilter(logs[0], project, f);
      EnoughAfterAPage(|logs|, f.limit, |all|);
      EnoughIsLeft(logs, f.limit, all);
      QuietGoesOn(logs, project, f, all, g);
      QuietPagesListEverything(logs[1..], project, g);
      var rest := Follow(logs[1..], project, g);
      RestDecides(f, g, all, rest);
      assert Follow(logs, project, f) == (all[..f.limit] + rest.0, rest.1);
    } else {
      LastPageDecides(logs, project, f, all);
    }
  }

  // Then the pages are exactly the first log's listing, as many as it takes, if and only if
  // every cursor handed on fits; one that does not is refused, and the listing breaks off.
  lemma QuietFollowIsTheListing(logs: seq<set<Entry>>, project: Id, f: Filter)
    requires Ready(logs, project, f) && Quiet(logs, project, f) && logs != []
    requires |Here(logs[0], project, f)| <= |logs| * f.limit
    ensures ListsExactly(Follow(logs, project, f), f, Here(logs[0], project, f))
  {
    EnoughPages(|logs|, f.limit, |Here(logs[0], project, f)|);
    QuietPagesListEverything(logs, project, f);
  }

  lemma LastPageDecides(logs: seq<set<Entry>>, project: Id, f: Filter, all: seq<Entry>)
    requires Ready(logs, project, f) && logs != [] && all == Here(logs[0], project, f)
    requires |all| > f.limit ==> !Fits(f, all[f.limit - 1])
    ensures ListsExactly(Follow(logs, project, f), f, all)
  {
    FollowStep(logs, project, f);
  }

  lemma RestDecides(f: Filter, g: Filter, all: seq<Entry>, rest: (seq<Entry>, bool))
    requires f.limit == g.limit > 0 && f.action == g.action && f.environment == g.environment
    requires f.limit < |all| && Fits(f, all[f.limit - 1])
    requires ListsExactly(rest, g, all[f.limit..])
    ensures ListsExactly((all[..f.limit] + rest.0, rest.1), f, all)
  {
    TakeAndRest(all, f.limit);
    SameTextFits(f, g, all[f.limit..]);
    if all[..f.limit] + rest.0 == all { assert rest.0 == (all[..f.limit] + rest.0)[f.limit..]; }
  }

  // Rows written above the cursor between two pages leave what is below it as it was.
  lemma RowsAboveTheCursorAreUnseen(t: set<Entry>, grown: set<Entry>, project: Id, f: Filter)
    requires Keyed(grown) && t <= grown && forall e :: e in grown - t ==> !Below(f.cursor, e)
    ensures Here(grown, project, f) == Here(t, project, f)
  {
    assert Selection(grown, project, f, f.cursor) == Selection(t, project, f, f.cursor);
  }

  // Between two pages the log only gains rows, all above the cursor handed on.
  ghost predicate GrowsAbove(logs: seq<set<Entry>>, project: Id, f: Filter)
    requires Logs(logs) && f.limit > 0
    decreases logs
  {
    |logs| > 1 && |Here(logs[0], project, f)| > f.limit ==>
      var g := NextFilter(logs[0], project, f);
      && logs[0] <= logs[1] && (forall e :: e in logs[1] - logs[0] ==> !Below(g.cursor, e))
      && Logs(logs[1..]) && GrowsAbove(logs[1..], project, g)
  }

  lemma {:induction false} GrowingAboveIsQuiet(logs: seq<set<Entry>>, project: Id, f: Filter)
    requires Logs(logs) && f.limit > 0 && GrowsAbove(logs, project, f)
    ensures Quiet(logs, project, f)
    decreases logs
  {
    if |logs| > 1 && |Here(logs[0], project, f)| > f.limit {
      var g := NextFilter(logs[0], project, f);
      RowsAboveTheCursorAreUnseen(logs[0], logs[1], project, g);
      GrowingAboveIsQuiet(logs[1..], project, g);
    }
  }

  // Entries appended above the cursor while a caller pages cause no duplicate and no
  // omission: it gets exactly the listing it started from, in as many pages as that takes,
  // if and only if the cursors fit.
  lemma AppendsLeaveTheListing(logs: seq<set<Entry>>, project: Id, f: Filter)
    requires Ready(logs, project, f) && GrowsAbove(logs, project, f) && logs != []
    requires |Here(logs[0], project, f)| <= |logs| * f.limit
    ensures ListsExactly(Follow(logs, project, f), f, Here(logs[0], project, f))
  {
    GrowingAboveIsQuiet(logs, project, f);
    QuietFollowIsTheListing(logs, project, f);
  }

  // ---------------------------------------------------------------- a filter that cannot go on

  predicate OnlyBrackets(s: string) { forall i :: 0 <= i < |s| ==> s[i] == '<' }

  lemma {:induction false} BracketsTakeSix(s: string)
    requires OnlyBrackets(s)
    ensures TextLength(s) == 6 * |s| && Clean(s)
    decreases |s|
  {
    if s != [] {
      BracketsTakeSix(s[1..]);
      assert |s| >= 3 ==> s[..3][0] == '<';
    }
  }

  lemma TwoRowsSorted(a: Entry, b: Entry)
    requires Above(a, b) && a.id != b.id
    ensures Keyed({a, b}) && Sorted({a, b}) == [a, b]
  {
    var t := {a, b};
    assert Top(t) == a by { assert IsTop(t, Top(t)); }
    assert t - {a} == {b};
    assert Top({b}) == b by { assert IsTop({b}, Top({b})); }
    assert {b} - {b} == {};
    assert Sorted({b}) == [b];
  }

  lemma SecondRowIsNeverListed(project: Id, f: Filter, a: Entry, b: Entry, later: set<Entry>)
    requires Above(a, b) && a.id != b.id && ValidFilter(f) && f.limit == 1 && f.cursor == NoCursor
    requires Matches(project, f, a) && Matches(project, f, b) && !Fits(f, a) && Keyed(later)
    ensures Keyed({a, b}) && Search({a, b}, project, f, true) == Page([a], CursorAt(project, f, a))
    ensures Search(later, project, f.(cursor := CursorAt(project, f, a)), true) == Invalid
  {
    TwoRowsSorted(a, b);
    assert Selection({a, b}, project, f, NoCursor) == {a, b};
    assert [a, b][..1] == [a];
  }

  // An action and an environment of '<' alone: of two rows only the first is ever listed,
  // since the cursor handed on with it is refused in any log.
  lemma CursorOfLongTextIsRefused(later: set<Entry>, action: string, environment: string)
    returns (f: Filter, a: Entry, b: Entry)
    requires |action| == 100 && |environment| == 50 && OnlyBrackets(action) && OnlyBrackets(environment)
    requires Keyed(later)
    ensures f == Filter(action, environment, 1, 100, NoCursor, 1)
    ensures a == Entry(2, None, Some(7), action, environment, 20, 20) && b == a.(id := 1, createdAt := 10)
    ensures ValidFilter(f) && Keyed({a, b}) && Search({a, b}, 7, f, true) == Page([a], CursorAt(7, f, a))
    ensures Search(later, 7, f.(cursor := CursorAt(7, f, a)), true) == Invalid
  {
    f := Filter(action, environment, 1, 100, NoCursor, 1);
    a := Entry(2, None, Some(7), action, environment, 20, 20);
    b := a.(id := 1, createdAt := 10);
    BracketsTakeSix(action);
    BracketsTakeSix(environment);
    FitsIff(f, a);
    SecondRowIsNeverListed(7, f, a, b, later);
  }
}
