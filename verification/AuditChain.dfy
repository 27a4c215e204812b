/**
 The tamper-evident journal of backend/internal/repository/audit_repo.go: rows that
 link to their predecessor by a keyed hash, a stored head, a verifier that follows
 the links, and a prune that drops the oldest rows and re-anchors the rest.
 */
module AuditChain {
  import opened Wrappers
  import opened Framing

  type Id = nat

  // `hash` is hex HMAC-SHA256 under the configured key; `canon` is canonicalizeJSON.
  datatype Crypto = Crypto(hash: Bytes -> Bytes, canon: Bytes -> Bytes)

  datatype Row = Row(
    user: Bytes, project: Bytes, action: Bytes, environment: Bytes, details: Bytes, ip: Bytes,
    prev: Option<Bytes>, entry: Option<Bytes>, createdAt: int)

  type Table = map<Id, Row>

  // A NULL text column reads as the empty string.
  function Text(o: Option<Bytes>): Bytes { if o.None? then [] else o.value }

  // The hashed content of a row; neither its id nor its creation time is in it.
  function Content(c: Crypto, r: Row): seq<Bytes> {
    [r.user, r.project, r.action, r.environment, c.canon(r.details), r.ip]
  }

  function EntryHash(c: Crypto, prev: Bytes, r: Row): Bytes { c.hash(Encode([prev] + Content(c, r))) }

  lemma EncodeMore(x: Bytes, rest: seq<Bytes>)
    ensures Encode([x] + rest) == Frame(x) + Encode(rest)
  {
    assert ([x] + rest)[1..] == rest;
  }

  // The bytes under the hash: the link and the six columns in this order, each behind its
  // length, the details in canonical form.
  lemma HashedBytes(c: Crypto, prev: Bytes, r: Row)
    ensures EntryHash(c, prev, r)
         == c.hash(Frame(prev) + (Frame(r.user) + (Frame(r.project) + (Frame(r.action) + (Frame(r.environment)
                   + (Frame(c.canon(r.details)) + Frame(r.ip)))))))
  {
    var (u, p, a, e, d, i) := (r.user, r.project, r.action, r.environment, c.canon(r.details), r.ip);
    EncodeMore(prev, Content(c, r));
    assert Content(c, r) == [u] + ([p] + ([a] + ([e] + ([d] + ([i] + [])))));
    EncodeMore(u, [p] + ([a] + ([e] + ([d] + ([i] + [])))));
    EncodeMore(p, [a] + ([e] + ([d] + ([i] + []))));
    EncodeMore(a, [e] + ([d] + ([i] + [])));
    EncodeMore(e, [d] + ([i] + []));
    EncodeMore(d, [i] + []);
    EncodeMore(i, []);
    assert Frame(i) + [] == Frame(i);
  }

  // Hex output is never empty, and stored columns are Go byte slices.
  ghost predicate NeverEmpty(c: Crypto) { forall x :: c.hash(x) != [] && Sized(c.hash(x)) }

  ghost predicate RowSized(c: Crypto, r: Row) {
    (forall i :: 0 <= i < 6 ==> Sized(Content(c, r)[i])) && Sized(Text(r.prev))
  }

  // What a stored row's hash is computed from.
  function Preimage(c: Crypto, r: Row): Bytes { Encode([Text(r.prev)] + Content(c, r)) }

  // A row of `t` and a row of `u` whose hashed bytes differ and whose hashes do not.
  ghost predicate CollideAt(c: Crypto, t: Table, x: Id, u: Table, y: Id) {
    && Chained(t, x) && Chained(u, y)
    && Preimage(c, t[x]) != Preimage(c, u[y]) && c.hash(Preimage(c, t[x])) == c.hash(Preimage(c, u[y]))
  }

  ghost predicate Collide(c: Crypto, t: Table, u: Table) { exists x, y :: CollideAt(c, t, x, u, y) }

  // ---------------------------------------------------------------- chains

  predicate Chained(t: Table, id: Id) { id in t && t[id].entry.Some? }

  // The hash that the i-th row of a chain must link to, and the one its end leaves.
  function LinkAt(t: Table, order: seq<Id>, i: nat): Bytes
    requires i <= |order| && (i > 0 ==> order[i - 1] in t)
  {
    if i == 0 then [] else Text(t[order[i - 1]].entry)
  }

  function Tip(t: Table, order: seq<Id>): Bytes
    requires order != [] ==> order[|order| - 1] in t
  {
    LinkAt(t, order, |order|)
  }

  function PrevAt(t: Table, order: seq<Id>, i: nat): Bytes
    requires i < |order| && order[i] in t
  {
    Text(t[order[i]].prev)
  }

  ghost predicate AllChained(t: Table, order: seq<Id>) { forall i :: 0 <= i < |order| ==> Chained(t, order[i]) }

  // The i-th row carries its predecessor's hash and its own hash.
  ghost predicate RowLinks(c: Crypto, t: Table, order: seq<Id>, i: nat)
    requires i < |order| && AllChained(t, order)
  {
    && PrevAt(t, order, i) == LinkAt(t, order, i)
    && Text(t[order[i]].entry) == EntryHash(c, PrevAt(t, order, i), t[order[i]])
  }

  ghost predicate Linked(c: Crypto, t: Table, order: seq<Id>) {
    AllChained(t, order) && forall i :: 0 <= i < |order| ==> RowLinks(c, t, order, i)
  }

  ghost predicate NoFork(t: Table, order: seq<Id>)
    requires AllChained(t, order)
  {
    forall i, j :: 0 <= i < j < |order| ==> PrevAt(t, order, i) != PrevAt(t, order, j)
  }

  ghost predicate Covers(t: Table, order: seq<Id>) { forall id :: Chained(t, id) ==> id in order }

  // The chained rows form one chain from "" in this order.
  ghost predicate OneChain(c: Crypto, t: Table, order: seq<Id>) {
    Linked(c, t, order) && NoFork(t, order) && Covers(t, order)
  }

  ghost predicate Intact(c: Crypto, t: Table, head: Bytes) {
    exists order :: OneChain(c, t, order) && Tip(t, order) == head
  }

  ghost function Contents(c: Crypto, t: Table, order: seq<Id>): seq<seq<Bytes>>
    requires AllChained(t, order)
  {
    seq(|order|, i requires 0 <= i < |order| => Content(c, t[order[i]]))
  }

  // ---------------------------------------------------------------- tamper evidence

  lemma PrefixIsLinked(c: Crypto, t: Table, order: seq<Id>, n: nat)
    requires Linked(c, t, order) && n <= |order|
    ensures Linked(c, t, order[..n]) && Tip(t, order[..n]) == LinkAt(t, order, n)
  {
    forall i | 0 <= i < n ensures RowLinks(c, t, order[..n], i) {
      assert RowLinks(c, t, order, i);
    }
  }

  // Equal hashes mean equal links and contents, or a collision.
  lemma SameHash(c: Crypto, t: Table, x: Id, u: Table, y: Id)
    requires Chained(t, x) && Chained(u, y) && RowSized(c, t[x]) && RowSized(c, u[y])
    requires EntryHash(c, Text(t[x].prev), t[x]) == EntryHash(c, Text(u[y].prev), u[y])
    ensures (Text(t[x].prev) == Text(u[y].prev) && Content(c, t[x]) == Content(c, u[y])) || CollideAt(c, t, x, u, y)
  {
    var (p, q, r, s) := (Text(t[x].prev), Text(u[y].prev), Content(c, t[x]), Content(c, u[y]));
    var (a, b) := ([p] + r, [q] + s);
    if Encode(a) == Encode(b) {
      assert forall i :: 1 <= i < 7 ==> a[i] == r[i - 1] && b[i] == s[i - 1];
      EncodingIsInjective(a, b);
      assert a[0] == p && b[0] == q && a[1..] == r && b[1..] == s;
    }
  }

  lemma TipIsHash(c: Crypto, t: Table, order: seq<Id>)
    requires NeverEmpty(c) && Linked(c, t, order) && order != []
    ensures var n := |order| - 1;
            Tip(t, order) == EntryHash(c, PrevAt(t, order, n), t[order[n]]) != []
            && Linked(c, t, order[..n]) && Tip(t, order[..n]) == PrevAt(t, order, n)
  {
    var n := |order| - 1;
    assert RowLinks(c, t, order, n);
    PrefixIsLinked(c, t, order, n);
  }

  ghost predicate AllSized(c: Crypto, t: Table, order: seq<Id>)
    requires AllChained(t, order)
  {
    forall i :: 0 <= i < |order| ==> RowSized(c, t[order[i]])
  }

  // Two linked tables with one key and one tip hold the same contents in the same
  // order, or two of their rows are a collision of the hash.
  lemma {:induction false} SameTipSameContents(c: Crypto, t: Table, a: seq<Id>, u: Table, b: seq<Id>)
    requires NeverEmpty(c) && Linked(c, t, a) && Linked(c, u, b)
    requires AllSized(c, t, a) && AllSized(c, u, b)
    requires Tip(t, a) == Tip(u, b)
    ensures Contents(c, t, a) == Contents(c, u, b) || Collide(c, t, u)
    decreases |a|
  {
    if a != [] { TipIsHash(c, t, a); }
    if b != [] { TipIsHash(c, u, b); }
    if a != [] && b != [] {
      var (m, n) := (|a| - 1, |b| - 1);
      SameHash(c, t, a[m], u, b[n]);
      if !Collide(c, t, u) {
        SameTipSameContents(c, t, a[..m], u, b[..n]);
        ContentsSplit(c, t, a);
        ContentsSplit(c, u, b);
      }
    }
  }

  lemma SameContentsSameColumns(c: Crypto, t: Table, a: seq<Id>, u: Table, b: seq<Id>)
    requires AllChained(t, a) && AllChained(u, b) && Contents(c, t, a) == Contents(c, u, b)
    ensures |a| == |b|
    ensures forall i :: 0 <= i < |a| ==>
              var (x, y) := (t[a[i]], u[b[i]]);
              && x.user == y.user && x.project == y.project && x.action == y.action
              && x.environment == y.environment && c.canon(x.details) == c.canon(y.details) && x.ip == y.ip
  {
    assert |Contents(c, t, a)| == |a| && |Contents(c, u, b)| == |b|;
    forall i | 0 <= i < |a|
      ensures var (x, y) := (t[a[i]], u[b[i]]);
              && x.user == y.user && x.project == y.project && x.action == y.action
              && x.environment == y.environment && c.canon(x.details) == c.canon(y.details) && x.ip == y.ip
    {
      var (x, y) := (Contents(c, t, a)[i], Contents(c, u, b)[i]);
      assert x == Content(c, t[a[i]]) && y == Content(c, u[b[i]]);
      assert x[0] == y[0] && x[1] == y[1] && x[2] == y[2] && x[3] == y[3] && x[4] == y[4] && x[5] == y[5];
    }
  }

  // So no edit, removal, insertion or reordering of hashed fields passes with the same
  // key and head: two accepted tables agree row by row and column by column.
  lemma AcceptedTablesAgree(c: Crypto, t: Table, u: Table, head: Bytes) returns (a: seq<Id>, b: seq<Id>)
    requires NeverEmpty(c) && Intact(c, t, head) && Intact(c, u, head)
    requires (forall x :: Chained(t, x) ==> RowSized(c, t[x])) && (forall x :: Chained(u, x) ==> RowSized(c, u[x]))
    ensures OneChain(c, t, a) && OneChain(c, u, b)
    ensures || Collide(c, t, u)
            || (&& |a| == |b|
                && forall i :: 0 <= i < |a| ==>
                     var (x, y) := (t[a[i]], u[b[i]]);
                     && x.user == y.user && x.project == y.project && x.action == y.action
                     && x.environment == y.environment && c.canon(x.details) == c.canon(y.details) && x.ip == y.ip)
  {
    a :| OneChain(c, t, a) && Tip(t, a) == head;
    b :| OneChain(c, u, b) && Tip(u, b) == head;
    OneChainIsSized(c, t, a);
    OneChainIsSized(c, u, b);
    SameTipSameContents(c, t, a, u, b);
    if !Collide(c, t, u) { SameContentsSameColumns(c, t, a, u, b); }
  }

  lemma OneChainIsSized(c: Crypto, t: Table, order: seq<Id>)
    requires OneChain(c, t, order) && forall x :: Chained(t, x) ==> RowSized(c, t[x])
    ensures AllSized(c, t, order)
  {
    forall i | 0 <= i < |order| ensures RowSized(c, t[order[i]]) { assert Chained(t, order[i]); }
  }

  lemma ContentsSplit(c: Crypto, t: Table, order: seq<Id>)
    requires order != [] && AllChained(t, order)
    ensures var n := |order| - 1;
            Contents(c, t, order) == Contents(c, t, order[..n]) + [Content(c, t[order[n]])]
  {
  }

  lemma LinkIsHash(c: Crypto, t: Table, order: seq<Id>, i: nat)
    requires NeverEmpty(c) && Linked(c, t, order) && 0 < i < |order|
    ensures PrevAt(t, order, i) == EntryHash(c, PrevAt(t, order, i - 1), t[order[i - 1]]) != []
  {
    assert RowLinks(c, t, order, i) && RowLinks(c, t, order, i - 1);
  }

  // Forks need a collision: links never repeat along a linked chain.
  lemma {:induction false} LinksDoNotRepeat(c: Crypto, t: Table, order: seq<Id>, i: nat, j: nat)
    requires NeverEmpty(c) && Linked(c, t, order) && i < j < |order| && AllSized(c, t, order)
    ensures PrevAt(t, order, i) != PrevAt(t, order, j) || Collide(c, t, t)
    decreases i
  {
    LinkIsHash(c, t, order, j);
    if i > 0 {
      LinkIsHash(c, t, order, i);
      LinksDoNotRepeat(c, t, order, i - 1, j - 1);
      if PrevAt(t, order, i) == PrevAt(t, order, j) {
        SameHash(c, t, order[i - 1], t, order[j - 1]);
      }
    } else {
      assert RowLinks(c, t, order, 0);
    }
  }

  lemma LinkedHasNoFork(c: Crypto, t: Table, order: seq<Id>)
    requires NeverEmpty(c) && Linked(c, t, order) && AllSized(c, t, order)
    ensures NoFork(t, order) || Collide(c, t, t)
  {
    if !Collide(c, t, t) {
      forall i, j | 0 <= i < j < |order| ensures PrevAt(t, order, i) != PrevAt(t, order, j) {
        LinksDoNotRepeat(c, t, order, i, j);
      }
    }
  }

  // ---------------------------------------------------------------- following the links

  // byPrev maps each link to the one chained row that carries it.
  ghost predicate Indexed(t: Table, byPrev: map<Bytes, Id>) {
    && (forall p :: p in byPrev ==> Chained(t, byPrev[p]) && Text(t[byPrev[p]].prev) == p)
    && (forall id :: Chained(t, id) ==> Text(t[id].prev) in byPrev && byPrev[Text(t[id].prev)] == id)
  }

  lemma ChainRowsAreDistinct(t: Table, order: seq<Id>, i: nat, j: nat)
    requires AllChained(t, order) && NoFork(t, order) && i < j < |order|
    ensures order[i] != order[j]
  {
    assert PrevAt(t, order, i) != PrevAt(t, order, j);
  }

  lemma NextOfChain(c: Crypto, t: Table, index: map<Bytes, Id>, order: seq<Id>, n: nat)
    requires Indexed(t, index) && Linked(c, t, order) && NoFork(t, order) && n < |order|
    ensures LinkAt(t, order, n) in index && index[LinkAt(t, order, n)] == order[n] && order[n] !in order[..n]
  {
    assert RowLinks(c, t, order, n) && Chained(t, order[n]);
    forall i | 0 <= i < n ensures order[i] != order[n] { ChainRowsAreDistinct(t, order, i, n); }
  }

  // The walk so far is the beginning of any chain there is.
  lemma {:induction false} WalkIsForced(
        c: Crypto, t: Table, index: map<Bytes, Id>, walk: seq<Id>, order: seq<Id>, n: nat)
    requires Indexed(t, index) && Linked(c, t, walk) && NoFork(t, walk) && OneChain(c, t, order) && n <= |walk|
    ensures n <= |order| && walk[..n] == order[..n]
    decreases n
  {
    if n > 0 {
      var m := n - 1;
      WalkIsForced(c, t, index, walk, order, m);
      NextOfChain(c, t, index, walk, m);
      assert Chained(t, walk[m]) && walk[m] in order;
      var k :| 0 <= k < |order| && order[k] == walk[m];
      assert walk[m] !in order[..m] && m <= k;
      NextOfChain(c, t, index, order, m);
      assert m > 0 ==> walk[..m][m - 1] == order[..m][m - 1];
      assert LinkAt(t, walk, m) == LinkAt(t, order, m);
      assert walk[..n] == walk[..m] + [walk[m]] && order[..n] == order[..m] + [order[m]];
    }
  }

  lemma RowsOfAChainLinkApart(c: Crypto, t: Table, order: seq<Id>, id: Id, other: Id)
    requires OneChain(c, t, order) && Chained(t, id) && Chained(t, other) && id != other
    ensures Text(t[id].prev) != Text(t[other].prev)
  {
    assert id in order && other in order;
    var i :| 0 <= i < |order| && order[i] == id;
    var j :| 0 <= j < |order| && order[j] == other;
    assert PrevAt(t, order, i) == Text(t[id].prev) && PrevAt(t, order, j) == Text(t[other].prev);
    assert i < j || j < i;
  }

  // A chain never repeats a link, hashes every row right and reaches every row.
  lemma ChainHasNoFork(c: Crypto, t: Table, id: Id, other: Id)
    requires Chained(t, id) && Chained(t, other) && id != other
    ensures forall order :: OneChain(c, t, order) ==> Text(t[id].prev) != Text(t[other].prev)
  {
    forall order | OneChain(c, t, order) ensures Text(t[id].prev) != Text(t[other].prev) {
      RowsOfAChainLinkApart(c, t, order, id, other);
    }
  }

  lemma ChainHashesEveryRow(c: Crypto, t: Table, id: Id)
    requires Chained(t, id)
    ensures forall order :: OneChain(c, t, order) ==> EntryHash(c, Text(t[id].prev), t[id]) == t[id].entry.value
  {
    forall order | OneChain(c, t, order) ensures EntryHash(c, Text(t[id].prev), t[id]) == t[id].entry.value {
      assert id in order;
      var i :| 0 <= i < |order| && order[i] == id;
      assert RowLinks(c, t, order, i);
    }
  }

  // A row of a chain whose columns are overwritten breaks it, or makes a collision.
  lemma OverwrittenColumnsAreReported(c: Crypto, t: Table, order: seq<Id>, id: Id, row: Row)
    requires OneChain(c, t, order) && Chained(t, id) && row.prev == t[id].prev && row.entry == t[id].entry
    requires RowSized(c, t[id]) && RowSized(c, row)
    ensures var (x, u) := (t[id], t[id := row]);
            || (forall other :: !OneChain(c, u, other)) || CollideAt(c, t, id, u, id)
            || (&& row.user == x.user && row.project == x.project && row.action == x.action
                && row.environment == x.environment && c.canon(row.details) == c.canon(x.details) && row.ip == x.ip)
  {
    var u := t[id := row];
    if other :| OneChain(c, u, other) {
      ChainHashesEveryRow(c, t, id);
      ChainHashesEveryRow(c, u, id);
      SameHash(c, t, id, u, id);
      var (x, y) := (Content(c, t[id]), Content(c, row));
      if x == y { assert x[0] == y[0] && x[1] == y[1] && x[2] == y[2] && x[3] == y[3] && x[4] == y[4] && x[5] == y[5]; }
    }
  }

  // A walk that cannot go on is the whole of any chain there is.
  lemma StuckWalkIsWhole(c: Crypto, t: Table, index: map<Bytes, Id>, walk: seq<Id>, order: seq<Id>)
    requires Indexed(t, index) && Linked(c, t, walk) && NoFork(t, walk) && OneChain(c, t, order)
    requires Tip(t, walk) in index ==> index[Tip(t, walk)] in walk
    ensures walk == order
  {
    var n := |walk|;
    WalkIsForced(c, t, index, walk, order, n);
    assert walk == walk[..n] && LinkAt(t, order, n) == Tip(t, walk);
    if n < |order| {
      NextOfChain(c, t, index, order, n);
    }
  }

  datatype Walk = Followed(order: seq<Id>) | Forked(id: Id) | Mismatch(id: Id) | Unreachable(id: Id)

  datatype Reading = Unique(byPrev: map<Bytes, Id>) | Duplicate(id: Id)

  // The reading loop: rows come in no particular order; a second row with one link ends it.
  method ReadLinks(c: Crypto, t: Table) returns (r: Reading)
    ensures r.Unique? ==> Indexed(t, r.byPrev)
    ensures r.Duplicate? ==> Chained(t, r.id) && forall order :: !OneChain(c, t, order)
  {
    var unread := set id | id in t && t[id].entry.Some?;
    var byPrev: map<Bytes, Id> := map[];
    while unread != {}
      invariant forall id :: id in unread ==> id in t && t[id].entry.Some?
      invariant forall p :: p in byPrev ==>
          Chained(t, byPrev[p]) && Text(t[byPrev[p]].prev) == p && byPrev[p] !in unread
      invariant forall id :: Chained(t, id) && id !in unread ==>
          Text(t[id].prev) in byPrev && byPrev[Text(t[id].prev)] == id
      decreases |unread|
    {
      var id: Id :| id in unread;
      var prev := Text(t[id].prev);
      if prev in byPrev {
        ChainHasNoFork(c, t, id, byPrev[prev]);
        return Duplicate(id);
      }
      byPrev := byPrev[prev := id];
      unread := unread - {id};
    }
    return Unique(byPrev);
  }

  ghost predicate Linking(c: Crypto, t: Table, index: map<Bytes, Id>, byPrev: map<Bytes, Id>, order: seq<Id>) {
    && Linked(c, t, order) && NoFork(t, order)
    && byPrev.Keys <= index.Keys && (forall p :: p in byPrev ==> byPrev[p] == index[p])
    && (forall p :: p in index && p !in byPrev ==> index[p] in order)
    && (forall i :: 0 <= i < |order| ==> PrevAt(t, order, i) !in byPrev)
  }

  lemma LinkingExtends(c: Crypto, t: Table, index: map<Bytes, Id>, byPrev: map<Bytes, Id>, order: seq<Id>, id: Id)
    requires Indexed(t, index) && Linking(c, t, index, byPrev, order)
    requires Tip(t, order) in byPrev && byPrev[Tip(t, order)] == id
    requires EntryHash(c, Tip(t, order), t[id]) == Text(t[id].entry)
    ensures Linking(c, t, index, byPrev - {Tip(t, order)}, order + [id]) && Tip(t, order + [id]) == Text(t[id].entry)
  {
    var longer := order + [id];
    assert Chained(t, id) && Text(t[id].prev) == Tip(t, order);
    forall i | 0 <= i < |longer| ensures RowLinks(c, t, longer, i) {
      if i < |order| { assert RowLinks(c, t, order, i) && LinkAt(t, longer, i) == LinkAt(t, order, i); }
    }
    forall i, j | 0 <= i < j < |longer| ensures PrevAt(t, longer, i) != PrevAt(t, longer, j) {
      assert PrevAt(t, longer, i) == PrevAt(t, order, i);
      if j < |order| { assert PrevAt(t, longer, j) == PrevAt(t, order, j); }
    }
    forall i | 0 <= i < |longer| ensures PrevAt(t, longer, i) !in byPrev - {Tip(t, order)} {
      if i < |order| { assert PrevAt(t, longer, i) == PrevAt(t, order, i); }
    }
  }

  // The reading and link-following loops that VerifyChain and pruneChained share. They
  // succeed exactly when the chained rows form one chain, and return that chain.
  method FollowLinks(c: Crypto, t: Table) returns (w: Walk)
    ensures w.Followed? ==> OneChain(c, t, w.order)
    ensures !w.Followed? ==> Chained(t, w.id) && forall order :: !OneChain(c, t, order)
  {
    var reading := ReadLinks(c, t);
    if reading.Duplicate? {
      return Forked(reading.id);
    }
    var byPrev := reading.byPrev;
    ghost var index := byPrev;
    var total := |byPrev|;
    var seen := 0;
    var cur: Bytes := [];
    var order: seq<Id> := [];
    while cur in byPrev
      invariant Linking(c, t, index, byPrev, order) && cur == Tip(t, order)
      invariant seen == |order| && seen + |byPrev.Keys| == total
      decreases |byPrev.Keys|
    {
      var id := byPrev[cur];
      if EntryHash(c, cur, t[id]) != t[id].entry.value {
        ChainHashesEveryRow(c, t, id);
        return Mismatch(id);
      }
      LinkingExtends(c, t, index, byPrev, order, id);
      assert byPrev.Keys == (byPrev - {cur}).Keys + {cur};
      order := order + [id];
      byPrev := byPrev - {cur};
      cur := t[id].entry.value;
      seen := seen + 1;
    }
    if seen != total {
      assert byPrev.Keys != {};
      var p: Bytes :| p in byPrev;
      forall i | 0 <= i < |order| ensures order[i] != index[p] {
        assert PrevAt(t, order, i) != p && Text(t[index[p]].prev) == p;
      }
      forall other | OneChain(c, t, other) ensures order == other {
        StuckWalkIsWhole(c, t, index, order, other);
      }
      return Unreachable(byPrev[p]);
    }
    assert |byPrev.Keys| == 0;
    forall id | Chained(t, id) ensures id in order {
      assert index[Text(t[id].prev)] == id;
    }
    return Followed(order);
  }

  // ---------------------------------------------------------------- append and prune

  datatype Journal = Journal(rows: Table, head: Bytes)

  function Append(c: Crypto, j: Journal, id: Id, r: Row): Journal {
    var row := r.(prev := Some(j.head), entry := Some(EntryHash(c, j.head, r)));
    Journal(j.rows[id := row], row.entry.value)
  }

  // Rewrites the links and hashes of `ids` as a chain from "".
  function Reanchor(c: Crypto, t: Table, ids: seq<Id>): (Table, Bytes)
    requires forall i :: 0 <= i < |ids| ==> ids[i] in t
    ensures Reanchor(c, t, ids).0.Keys == t.Keys
    decreases |ids|
  {
    if ids == [] then (t, [])
    else
      var n := |ids| - 1;
      var (u, prev) := Reanchor(c, t, ids[..n]);
      var entry := EntryHash(c, prev, u[ids[n]]);
      (u[ids[n] := u[ids[n]].(prev := Some(prev), entry := Some(entry))], entry)
  }

  function Without(t: Table, ids: seq<Id>): Table { map id | id in t && id !in ids :: t[id] }

  ghost predicate Distinct(order: seq<Id>) { forall i, k :: 0 <= i < k < |order| ==> order[i] != order[k] }

  ghost function Prune(c: Crypto, j: Journal, order: seq<Id>, n: nat): Journal
    requires n <= |order| && forall i :: 0 <= i < |order| ==> order[i] in j.rows
    requires Distinct(order)
  {
    if n == 0 then j
    else
      var (t, tip) := Reanchor(c, Without(j.rows, order[..n]), order[n..]);
      Journal(t, tip)
  }

  // The length of the leading run of rows older than the cutoff.
  ghost predicate LeadingOld(t: Table, order: seq<Id>, cutoff: int, n: nat) {
    && n <= |order| && (forall i :: 0 <= i < |order| ==> order[i] in t)
    && (forall i :: 0 <= i < n ==> t[order[i]].createdAt < cutoff)
    && (n < |order| ==> t[order[n]].createdAt >= cutoff)
  }

  datatype Verdict = Verified | Broken(id: Id) | HeadMismatch | NoKey
  datatype PruneResult = Pruned(count: nat) | PruneError

  class AuditRepository {
    var journal: Journal
    const crypto: Crypto
    const keyed: bool

    constructor (crypto: Crypto, keyed: bool, initial: Journal)
      ensures this.crypto == crypto && this.keyed == keyed && journal == initial
    {
      this.crypto := crypto;
      this.keyed := keyed;
      journal := initial;
    }

    // A fresh row id is the caller's; without a key the row stays outside the chain.
    method CreateTx(id: Id, r: Row)
      requires id !in journal.rows
      modifies this
      ensures journal == if keyed then Append(crypto, old(journal), id, r)
                         else old(journal).(rows := old(journal).rows[id := r.(prev := None, entry := None)])
    {
      if !keyed {
        journal := journal.(rows := journal.rows[id := r.(prev := None, entry := None)]);
        return;
      }
      var prev := journal.head;
      var entry := EntryHash(crypto, prev, r);
      journal := journal.(rows := journal.rows[id := r.(prev := Some(prev), entry := Some(entry))]);
      journal := journal.(head := entry);
    }

    // Accepts exactly the tables whose chained rows form one chain ending at the head.
    method VerifyChain() returns (v: Verdict)
      ensures v.NoKey? <==> !keyed
      ensures keyed ==> (v.Verified? <==> Intact(crypto, journal.rows, journal.head))
      ensures v.Broken? ==> Chained(journal.rows, v.id) && forall order :: !OneChain(crypto, journal.rows, order)
      ensures v.HeadMismatch? ==>
          exists order :: OneChain(crypto, journal.rows, order) && Tip(journal.rows, order) != journal.head
    {
      if !keyed {
        return NoKey;
      }
      var w := FollowLinks(crypto, journal.rows);
      match w {
        case Followed(order) =>
          if Tip(journal.rows, order) != journal.head {
            forall other | OneChain(crypto, journal.rows, other) ensures other == order {
              ChainIsUnique(crypto, journal.rows, order, other);
            }
            return HeadMismatch;
          }
          return Verified;
        case Forked(id) => return Broken(id);
        case Mismatch(id) => return Broken(id);
        case Unreachable(id) => return Broken(id);
      }
    }

    // Fails, changing nothing, exactly when the chained rows are not one chain; the
    // stored head is not consulted.
    method PruneChained(cutoff: int) returns (result: PruneResult, ghost chain: seq<Id>)
      modifies this
      ensures result.PruneError? <==> !exists order :: OneChain(crypto, old(journal).rows, order)
      ensures result.PruneError? ==> journal == old(journal)
      ensures result.Pruned? ==>
                && OneChain(crypto, old(journal).rows, chain)
                && LeadingOld(old(journal).rows, chain, cutoff, result.count)
                && Distinct(chain)
                && journal == Prune(crypto, old(journal), chain, result.count)
    {
      var w := FollowLinks(crypto, journal.rows);
      if !w.Followed? {
        return PruneError, [];
      }
      var order := w.order;
      chain := order;
      RowsAreDistinct(journal.rows, order);
      var deleteCount := 0;
      while deleteCount < |order| && journal.rows[order[deleteCount]].createdAt < cutoff
        invariant 0 <= deleteCount <= |order|
        invariant forall i :: 0 <= i < deleteCount ==> journal.rows[order[i]].createdAt < cutoff
      {
        deleteCount := deleteCount + 1;
      }
      if deleteCount == 0 {
        return Pruned(0), chain;
      }
      var rows := DeleteRows(journal.rows, order[..deleteCount]);
      var tip;
      rows, tip := ReanchorRows(crypto, rows, order[deleteCount..]);
      journal := Journal(rows, tip);
      return Pruned(deleteCount), chain;
    }
  }

  lemma RowsAreDistinct(t: Table, order: seq<Id>)
    requires AllChained(t, order) && NoFork(t, order)
    ensures Distinct(order)
  {
    forall i, k | 0 <= i < k < |order| ensures order[i] != order[k] { ChainRowsAreDistinct(t, order, i, k); }
  }

  method DeleteRows(t: Table, ids: seq<Id>) returns (rows: Table)
    ensures rows == Without(t, ids)
  {
    rows := t;
    var d := 0;
    while d < |ids|
      invariant 0 <= d <= |ids|
      invariant rows == Without(t, ids[..d])
    {
      rows := rows - {ids[d]};
      assert ids[..d + 1] == ids[..d] + [ids[d]];
      d := d + 1;
    }
    assert ids[..d] == ids;
  }

  method ReanchorRows(c: Crypto, t: Table, ids: seq<Id>) returns (rows: Table, prev: Bytes)
    requires forall i :: 0 <= i < |ids| ==> ids[i] in t
    ensures (rows, prev) == Reanchor(c, t, ids)
  {
    rows, prev := t, [];
    var i := 0;
    while i < |ids|
      invariant 0 <= i <= |ids|
      invariant (rows, prev) == Reanchor(c, t, ids[..i])
    {
      var row := rows[ids[i]];
      var entry := EntryHash(c, prev, row);
      rows := rows[ids[i] := row.(prev := Some(prev), entry := Some(entry))];
      assert ids[..i + 1][..i] == ids[..i] && ids[..i + 1][i] == ids[i];
      prev := entry;
      i := i + 1;
    }
    assert ids[..i] == ids;
  }

  ghost predicate Carries(t: Table, id: Id, p: Bytes) { Chained(t, id) && Text(t[id].prev) == p }

  ghost function Carrier(t: Table, p: Bytes): (id: Id)
    requires exists id :: Carries(t, id, p)
    ensures Carries(t, id, p)
  {
    var id :| Carries(t, id, p);
    id
  }

  lemma ChainIsUnique(c: Crypto, t: Table, a: seq<Id>, b: seq<Id>)
    requires OneChain(c, t, a) && OneChain(c, t, b)
    ensures a == b
  {
    var carriers := set id | id in t && Chained(t, id);
    var links := set id | id in carriers :: Text(t[id].prev);
    forall p | p in links ensures exists id :: Carries(t, id, p) {
      var id :| id in carriers && Text(t[id].prev) == p;
      assert Carries(t, id, p);
    }
    var index := map p | p in links :: Carrier(t, p);
    forall id | Chained(t, id) ensures Text(t[id].prev) in index && index[Text(t[id].prev)] == id {
      assert id in carriers && Text(t[id].prev) in links;
      if index[Text(t[id].prev)] != id {
        RowsOfAChainLinkApart(c, t, a, id, index[Text(t[id].prev)]);
      }
    }
    WalkIsForced(c, t, index, a, b, |a|);
    WalkIsForced(c, t, index, b, a, |b|);
    assert a == a[..|a|] && b == b[..|b|];
  }

  // ---------------------------------------------------------------- the journal as a log

  // What the journal is for: what happened and when, oldest first.
  datatype LogEntry = LogEntry(
    user: Bytes, project: Bytes, action: Bytes, environment: Bytes, details: Bytes, ip: Bytes, at: int)

  ghost function LogOf(t: Table, order: seq<Id>): seq<LogEntry>
    requires AllChained(t, order)
  {
    seq(|order|, i requires 0 <= i < |order| =>
          var r := t[order[i]]; LogEntry(r.user, r.project, r.action, r.environment, r.details, r.ip, r.createdAt))
  }

  // The journal verifies, and read along its chain it is this log.
  ghost predicate Holds(c: Crypto, j: Journal, order: seq<Id>, log: seq<LogEntry>) {
    && OneChain(c, j.rows, order) && AllSized(c, j.rows, order)
    && Tip(j.rows, order) == j.head && Sized(j.head) && LogOf(j.rows, order) == log
  }

  function Lead(log: seq<LogEntry>, cutoff: int): (n: nat)
    ensures n <= |log|
  {
    if log == [] || log[0].at >= cutoff then 0 else 1 + Lead(log[1..], cutoff)
  }

  lemma {:induction false} LeadIsLeadingRun(log: seq<LogEntry>, cutoff: int, n: nat)
    requires n <= |log| && (forall i :: 0 <= i < n ==> log[i].at < cutoff) && (n < |log| ==> log[n].at >= cutoff)
    ensures Lead(log, cutoff) == n
    decreases n
  {
    if n > 0 {
      assert log[0].at < cutoff;
      LeadIsLeadingRun(log[1..], cutoff, n - 1);
    }
  }

  // Appending extends the chain and the log by one entry.
  lemma AppendExtends(c: Crypto, j: Journal, order: seq<Id>, log: seq<LogEntry>, id: Id, r: Row)
    requires NeverEmpty(c) && Holds(c, j, order, log) && id !in j.rows
    requires forall i :: 0 <= i < 6 ==> Sized(Content(c, r)[i])
    ensures var n := Append(c, j, id, r).rows;
        var e := LogEntry(r.user, r.project, r.action, r.environment, r.details, r.ip, r.createdAt);
        Collide(c, n, n) || Holds(c, Append(c, j, id, r), order + [id], log + [e])
  {
    var n := Append(c, j, id, r);
    var longer := order + [id];
    var row := n.rows[id];
    assert Content(c, row) == Content(c, r) && RowSized(c, row);
    forall i | 0 <= i < |longer| ensures Chained(n.rows, longer[i]) && RowSized(c, n.rows[longer[i]]) {
      if i < |order| { assert Chained(j.rows, order[i]) && RowSized(c, j.rows[order[i]]); }
    }
    forall i | 0 <= i < |longer| ensures RowLinks(c, n.rows, longer, i) {
      if i < |order| {
        assert RowLinks(c, j.rows, order, i) && Chained(j.rows, order[i]);
        assert i > 0 ==> Chained(j.rows, order[i - 1]);
      } else {
        assert i > 0 ==> Chained(j.rows, order[i - 1]);
        assert LinkAt(n.rows, longer, i) == Tip(j.rows, order);
      }
    }
    LinkedHasNoFork(c, n.rows, longer);
    var e := LogEntry(r.user, r.project, r.action, r.environment, r.details, r.ip, r.createdAt);
    assert LogOf(n.rows, longer) == log + [e];
    forall x | Chained(n.rows, x) ensures x in longer {
      if x != id { assert Chained(j.rows, x) && x in order; }
    }
  }

  // Re-anchoring changes only the links and hashes of the given rows.
  lemma {:induction false} ReanchorKeepsContent(c: Crypto, t: Table, ids: seq<Id>)
    requires AllChained(t, ids)
    ensures var u := Reanchor(c, t, ids).0;
            && (forall x :: x in t && x !in ids ==> u[x] == t[x])
            && (forall x :: x in t ==>
                u[x] == t[x].(prev := u[x].prev, entry := u[x].entry) && u[x].entry.Some? == t[x].entry.Some?)
    decreases |ids|
  {
    if ids != [] {
      var n := |ids| - 1;
      forall i | 0 <= i < n ensures Chained(t, ids[..n][i]) { assert Chained(t, ids[i]); }
      ReanchorKeepsContent(c, t, ids[..n]);
      assert Chained(t, ids[n]);
    }
  }

  lemma {:induction false} ReanchorLinks(c: Crypto, t: Table, ids: seq<Id>)
    requires AllChained(t, ids) && Distinct(ids)
    ensures var (u, tip) := Reanchor(c, t, ids);
            Linked(c, u, ids) && Tip(u, ids) == tip
    decreases |ids|
  {
    if ids != [] {
      var n := |ids| - 1;
      var init := ids[..n];
      forall i | 0 <= i < n ensures Chained(t, init[i]) { assert Chained(t, ids[i]); }
      ReanchorLinks(c, t, init);
      var (v, prev) := Reanchor(c, t, init);
      var row := v[ids[n]].(prev := Some(prev), entry := Some(EntryHash(c, prev, v[ids[n]])));
      forall i | 0 <= i < n ensures init[i] != ids[n] { assert ids[i] != ids[n]; }
      ExtendLinked(c, v, init, ids[n], prev, row);
      assert init + [ids[n]] == ids;
    }
  }

  // Writing one more row behind a linked run links it too.
  lemma ExtendLinked(c: Crypto, v: Table, init: seq<Id>, id: Id, prev: Bytes, row: Row)
    requires Linked(c, v, init) && Tip(v, init) == prev && id !in init && id in v
    requires row.prev == Some(prev) && row.entry == Some(EntryHash(c, prev, v[id]))
    requires row == v[id].(prev := row.prev, entry := row.entry)
    ensures Linked(c, v[id := row], init + [id]) && Tip(v[id := row], init + [id]) == row.entry.value
  {
    var (u, ids) := (v[id := row], init + [id]);
    forall i | 0 <= i < |ids| ensures Chained(u, ids[i]) { assert i < |init| ==> Chained(v, init[i]); }
    forall i | 0 <= i < |init| ensures RowLinks(c, u, ids, i) {
      assert RowLinks(c, v, init, i) && init[i] in init;
      assert i > 0 ==> init[i - 1] in init;
    }
    assert LinkAt(u, ids, |init|) == prev by { assert init != [] ==> init[|init| - 1] in init; }
    assert Content(c, row) == Content(c, v[id]);
    assert RowLinks(c, u, ids, |init|);
  }

  lemma {:induction false} ReanchorIsSized(c: Crypto, t: Table, ids: seq<Id>)
    requires NeverEmpty(c) && AllChained(t, ids) && AllSized(c, t, ids) && Distinct(ids)
    ensures Sized(Reanchor(c, t, ids).1)
    ensures AllChained(Reanchor(c, t, ids).0, ids) && AllSized(c, Reanchor(c, t, ids).0, ids)
  {
    ReanchorLinks(c, t, ids);
    ReanchorKeepsContent(c, t, ids);
    var (u, tip) := Reanchor(c, t, ids);
    if ids != [] { TipIsHash(c, u, ids); }
    forall i | 0 <= i < |ids| ensures RowSized(c, u[ids[i]]) {
      assert RowSized(c, t[ids[i]]) && Chained(t, ids[i]) && Content(c, u[ids[i]]) == Content(c, t[ids[i]]);
      assert RowLinks(c, u, ids, i);
      if i > 0 { LinkIsHash(c, u, ids, i); }
    }
  }

  lemma SurvivorsAreOldRows(c: Crypto, t: Table, order: seq<Id>, n: nat)
    requires OneChain(c, t, order) && AllSized(c, t, order) && Distinct(order) && n <= |order|
    ensures var base := Without(t, order[..n]);
            && AllChained(base, order[n..]) && AllSized(c, base, order[n..]) && Distinct(order[n..])
            && (forall i :: 0 <= i < |order[n..]| ==> base[order[n..][i]] == t[order[n + i]])
            && (forall id :: Chained(base, id) ==> id in order[n..])
  {
    var base := Without(t, order[..n]);
    var rest := order[n..];
    forall i | 0 <= i < |rest|
        ensures Chained(base, rest[i]) && RowSized(c, base[rest[i]]) && base[rest[i]] == t[order[n + i]] {
      assert Chained(t, order[n + i]) && RowSized(c, t[order[n + i]]);
    }
    forall k | 0 <= k < n ensures order[k] !in base { assert order[..n][k] == order[k]; }
    forall id | Chained(base, id) ensures id in rest {
      assert Chained(t, id) && id in order;
      var i :| 0 <= i < |order| && order[i] == id;
      assert rest[i - n] == id;
    }
  }

  // A prune leaves a verified journal whose log is what follows the leading old run.
  // That the head matched before is not needed once something has been removed.
  lemma PruneDropsLeadingRun(c: Crypto, j: Journal, order: seq<Id>, log: seq<LogEntry>, n: nat)
    requires NeverEmpty(c) && OneChain(c, j.rows, order) && AllSized(c, j.rows, order) && LogOf(j.rows, order) == log
    requires 0 < n <= |order| && Distinct(order)
    ensures var p := Prune(c, j, order, n); Collide(c, p.rows, p.rows) || Holds(c, p, order[n..], log[n..])
  {
    var base := Without(j.rows, order[..n]);
    var rest := order[n..];
    SurvivorsAreOldRows(c, j.rows, order, n);
    ReanchorLinks(c, base, rest);
    ReanchorIsSized(c, base, rest);
    ReanchorKeepsContent(c, base, rest);
    var (u, tip) := Reanchor(c, base, rest);
    LinkedHasNoFork(c, u, rest);
    SameContentSameLog(c, j.rows, order, n, u);
    forall id | Chained(u, id) ensures id in rest { assert Chained(base, id); }
  }

  lemma SameContentSameLog(c: Crypto, t: Table, order: seq<Id>, n: nat, u: Table)
    requires n <= |order| && AllChained(t, order) && AllChained(u, order[n..])
    requires forall i :: n <= i < |order| ==>
        u[order[n..][i - n]] == t[order[i]].(prev := u[order[n..][i - n]].prev, entry := u[order[n..][i - n]].entry)
    ensures LogOf(u, order[n..]) == LogOf(t, order)[n..]
  {
  }

  // It removes those rows and no others, and rows outside the chain stay as they are.
  lemma PruneRemovesOnlyThose(c: Crypto, j: Journal, order: seq<Id>, n: nat)
    requires NeverEmpty(c) && OneChain(c, j.rows, order) && AllSized(c, j.rows, order)
    requires 0 < n <= |order| && Distinct(order)
    ensures var p := Prune(c, j, order, n).rows;
            && (forall id :: id in p <==> id in j.rows && id !in order[..n])
            && (forall id :: id in j.rows && !Chained(j.rows, id) ==> id in p && p[id] == j.rows[id])
            && (forall id :: id in p ==> p[id] == j.rows[id].(prev := p[id].prev, entry := p[id].entry))
  {
    SurvivorsAreOldRows(c, j.rows, order, n);
    ReanchorKeepsContent(c, Without(j.rows, order[..n]), order[n..]);
    forall id | id in j.rows && !Chained(j.rows, id) ensures id !in order[..n] && id !in order[n..] {
      forall i | 0 <= i < |order| ensures order[i] != id { assert Chained(j.rows, order[i]); }
    }
  }

  // ---------------------------------------------------------------- any mix of appends and prunes

  datatype Op = AppendOp(id: Id, row: Row) | PruneOp(cutoff: int)

  ghost predicate OpOk(c: Crypto, j: Journal, op: Op) {
    op.AppendOp? ==> op.id !in j.rows && forall i :: 0 <= i < 6 ==> Sized(Content(c, op.row)[i])
  }

  // `next` is what the repository's method leaves after `op`.
  ghost predicate OpStep(c: Crypto, j: Journal, op: Op, next: Journal) {
    match op
    case AppendOp(id, row) => next == Append(c, j, id, row)
    case PruneOp(cutoff) =>
      if exists order :: OneChain(c, j.rows, order)
      then exists order, n :: PrunesTo(c, j, cutoff, next, order, n)
      else next == j
  }

  ghost predicate PrunesTo(c: Crypto, j: Journal, cutoff: int, next: Journal, order: seq<Id>, n: nat) {
    OneChain(c, j.rows, order) && LeadingOld(j.rows, order, cutoff, n) && Distinct(order)
        && next == Prune(c, j, order, n)
  }

  function LogStep(log: seq<LogEntry>, op: Op): seq<LogEntry> {
    match op
    case AppendOp(_, r) =>
      log + [LogEntry(r.user, r.project, r.action, r.environment, r.details, r.ip, r.createdAt)]
    case PruneOp(cutoff) => log[Lead(log, cutoff)..]
  }

  function LogRun(log: seq<LogEntry>, ops: seq<Op>): seq<LogEntry>
    decreases |ops|
  {
    if ops == [] then log else LogStep(LogRun(log, ops[..|ops| - 1]), ops[|ops| - 1])
  }

  lemma PruneRefinesLog(c: Crypto, j: Journal, order: seq<Id>, log: seq<LogEntry>, cutoff: int, next: Journal, n: nat)
    requires NeverEmpty(c) && Holds(c, j, order, log) && PrunesTo(c, j, cutoff, next, order, n)
    ensures Collide(c, next.rows, next.rows) || Holds(c, next, order[n..], log[Lead(log, cutoff)..])
  {
    forall i | 0 <= i < n ensures log[i].at < cutoff { assert j.rows[order[i]].createdAt < cutoff; }
    LeadIsLeadingRun(log, cutoff, n);
    if n > 0 {
      PruneDropsLeadingRun(c, j, order, log, n);
    } else {
      assert order[n..] == order && log[n..] == log;
    }
  }

  lemma StepRefinesLog(c: Crypto, j: Journal, order: seq<Id>, log: seq<LogEntry>, op: Op, next: Journal)
    requires NeverEmpty(c) && Holds(c, j, order, log) && OpOk(c, j, op) && OpStep(c, j, op, next)
    ensures Collide(c, next.rows, next.rows) || exists o :: Holds(c, next, o, LogStep(log, op))
  {
    match op
    case AppendOp(id, row) =>
      AppendExtends(c, j, order, log, id, row);
      assert Collide(c, next.rows, next.rows) || Holds(c, next, order + [id], LogStep(log, op));
    case PruneOp(cutoff) =>
      assert OneChain(c, j.rows, order);
      var o, n: nat :| PrunesTo(c, j, cutoff, next, o, n);
      ChainIsUnique(c, j.rows, order, o);
      PruneRefinesLog(c, j, order, log, cutoff, next, n);
      assert Collide(c, next.rows, next.rows) || Holds(c, next, order[n..], LogStep(log, op));
  }

  ghost predicate Reaches(c: Crypto, j: Journal, ops: seq<Op>, last: Journal)
    decreases |ops|
  {
    if ops == [] then last == j
    else
      var n := |ops| - 1;
      exists mid :: Reaches(c, j, ops[..n], mid) && OpOk(c, mid, ops[n]) && OpStep(c, mid, ops[n], last)
  }

  // Somewhere along the run two rows of one journal were a collision of the hash.
  ghost predicate Collided(c: Crypto, j: Journal, ops: seq<Op>) {
    exists k: nat, mid :: k <= |ops| && Reaches(c, j, ops[..k], mid) && Collide(c, mid.rows, mid.rows)
  }

  lemma CollidedStays(c: Crypto, j: Journal, ops: seq<Op>, n: nat)
    requires n <= |ops| && Collided(c, j, ops[..n])
    ensures Collided(c, j, ops)
  {
    var k: nat, mid: Journal :| k <= |ops[..n]| && Reaches(c, j, ops[..n][..k], mid) && Collide(c, mid.rows, mid.rows);
    assert ops[..n][..k] == ops[..k];
  }

  // From a verified journal, every sequence of appends and prunes leaves a journal that
  // VerifyChain accepts and that holds exactly the log those operations describe.
  lemma {:induction false} RunRefinesLog(
        c: Crypto, j: Journal, ops: seq<Op>, last: Journal, order: seq<Id>, log: seq<LogEntry>)
    requires NeverEmpty(c) && Holds(c, j, order, log) && Reaches(c, j, ops, last)
    ensures Collided(c, j, ops) || (exists o :: Holds(c, last, o, LogRun(log, ops)) && OneChain(c, last.rows, o))
    decreases |ops|
  {
    assert ops[..|ops|] == ops;
    if ops == [] {
      assert Holds(c, last, order, LogRun(log, ops));
    } else {
      var n := |ops| - 1;
      var mid: Journal :| Reaches(c, j, ops[..n], mid) && OpOk(c, mid, ops[n]) && OpStep(c, mid, ops[n], last);
      RunRefinesLog(c, j, ops[..n], mid, order, log);
      if Collided(c, j, ops[..n]) {
        CollidedStays(c, j, ops, n);
      } else {
        var o: seq<Id> :| Holds(c, mid, o, LogRun(log, ops[..n]));
        StepRefinesLog(c, mid, o, LogRun(log, ops[..n]), ops[n], last);
      }
    }
  }

  lemma RunStaysIntact(c: Crypto, j: Journal, ops: seq<Op>, last: Journal, order: seq<Id>, log: seq<LogEntry>)
    requires NeverEmpty(c) && Holds(c, j, order, log) && Reaches(c, j, ops, last)
    ensures Collided(c, j, ops) || Intact(c, last.rows, last.head)
  {
    RunRefinesLog(c, j, ops, last, order, log);
  }
}
