/** The Go SDK's secret cache, keyed by credential generation: sdks/go/keepsave.go. */
module SdkCache {
  import opened Wrappers

  type Id = nat

  datatype Creds = Creds(token: string, apiKey: string)

  // A fetched list: what it is of, and the credentials and generation its request read.
  datatype List = List(project: string, environment: string, creds: Creds, at: nat, body: string)

  datatype Entry = Entry(data: List, expiresAt: int)
  type Store = map<string, Entry>

  // ---------------------------------------------------------------- cache keys

  function Decimal(n: nat): (s: string)
    ensures s != [] && forall i :: 0 <= i < |s| ==> '0' <= s[i] <= '9'
    ensures |s| == 1 <==> n < 10
  {
    if n < 10 then ['0' + n as char] else Decimal(n / 10) + ['0' + (n % 10) as char]
  }

  function Scope(project: string, environment: string): string { "secrets:" + project + ":" + environment }

  function Key(project: string, environment: string, generation: nat): string {
    Scope(project, environment) + ":" + Decimal(generation)
  }

  lemma {:induction false} DecimalIsInjective(m: nat, n: nat)
    requires Decimal(m) == Decimal(n)
    ensures m == n
    decreases m
  {
    var (s, t) := (Decimal(m), Decimal(n));
    assert s[|s| - 1] == t[|t| - 1];
    if m >= 10 {
      assert s[..|s| - 1] == Decimal(m / 10) && t[..|t| - 1] == Decimal(n / 10);
      DecimalIsInjective(m / 10, n / 10);
    }
  }

  lemma DecimalHasNoColon(n: nat)
    ensures ':' !in Decimal(n)
  {}

  lemma LaterColonIsInTheRest(a: string, s: string, b: string, t: string)
    requires a + ":" + s == b + ":" + t && |a| < |b|
    ensures ':' in s
  {
    var k := a + ":" + s;
    assert k[|b|] == ':';
    assert k[|b|] == s[|b| - |a| - 1];
  }

  lemma LastColonSeparates(a: string, s: string, b: string, t: string)
    requires a + ":" + s == b + ":" + t && ':' !in s && ':' !in t
    ensures a == b && s == t
  {
    if |a| < |b| { LaterColonIsInTheRest(a, s, b, t); }
    if |b| < |a| { LaterColonIsInTheRest(b, t, a, s); }
    var k := a + ":" + s;
    assert a == k[..|a|] == b;
    assert s == k[|a| + 1..] == t;
  }

  // The last colon separates the generation, so equal keys share it.
  lemma KeyDeterminesGeneration(p: string, e: string, g: nat, q: string, f: string, h: nat)
    requires Key(p, e, g) == Key(q, f, h)
    ensures g == h && Scope(p, e) == Scope(q, f)
  {
    DecimalHasNoColon(g);
    DecimalHasNoColon(h);
    LastColonSeparates(Scope(p, e), Decimal(g), Scope(q, f), Decimal(h));
    DecimalIsInjective(g, h);
  }

  // No identifier is another one followed by a colon and more.
  predicate PrefixFree(ids: set<string>) { forall p, q :: p in ids && q in ids ==> !(p + ":" <= q) }

  ghost predicate Unambiguous(ids: set<string>) {
    forall p, q, e, f :: p in ids && q in ids && Scope(p, e) == Scope(q, f) ==> p == q && e == f
  }

  // Equal scopes of two different projects: one identifier starts with the other and a colon.
  lemma EqualScopes(p: string, e: string, q: string, f: string)
    requires Scope(p, e) == Scope(q, f) && |p| <= |q|
    ensures (p == q && e == f) || p + ":" <= q
  {
    var s := Scope(p, e);
    assert s[8..8 + |p|] == p && s[8 + |p|] == ':' && s[9 + |p|..] == e;
    assert s[8..8 + |q|] == q && s[9 + |q|..] == f;
    if |p| == |q| {
      assert p == q;
    } else {
      assert p + ":" == s[8..9 + |p|] == q[..|p| + 1];
    }
  }

  lemma CollidingScopes(p: string, q: string) returns (x: string)
    requires p + ":" <= q
    ensures Scope(q, "") == Scope(p, x + ":")
  {
    x := q[|p| + 1..];
    assert q == p + ":" + x;
    assert "secrets:" + (p + ":" + x) + ":" == "secrets:" + p + ":" + (x + ":");
  }

  // Cache keys tell the projects of a set and their environments apart exactly when no
  // identifier in it is another one followed by a colon and more.
  lemma ScopesAreUnambiguousIff(ids: set<string>)
    ensures Unambiguous(ids) <==> PrefixFree(ids)
  {
    if PrefixFree(ids) {
      forall p, q, e, f | p in ids && q in ids && Scope(p, e) == Scope(q, f) ensures p == q && e == f {
        if |p| <= |q| { EqualScopes(p, e, q, f); } else { EqualScopes(q, f, p, e); }
      }
    } else {
      var p, q :| p in ids && q in ids && p + ":" <= q;
      var x := CollidingScopes(p, q);
      assert p != q;
    }
  }

  // Identifiers without a colon, such as UUIDs, are of that kind.
  lemma NoColonIsEnough(ids: set<string>)
    requires forall p :: p in ids ==> ':' !in p
    ensures PrefixFree(ids)
  {
    forall p, q | p in ids && q in ids ensures !(p + ":" <= q) {
      assert (p + ":")[|p|] == ':';
    }
  }

  // ---------------------------------------------------------------- the client

  datatype State = State(creds: Creds, generation: nat, store: Store)

  function Cleared(s: State): State { s.(store := map[]) }

  // Every change of credentials starts a new generation in the same critical section.
  function Changed(s: State, creds: Creds): State { s.(creds := creds, generation := s.generation + 1) }

  function SetToken(s: State, token: string): State { Changed(Cleared(s), s.creds.(token := token)) }

  function SetAPIKey(s: State, key: string): State { Changed(Cleared(s), s.creds.(apiKey := key)) }

  // The answer to a confirmed logout that started with `token`.
  function LoggedOut(s: State, token: string): State {
    if s.creds.token == token then SetToken(s, "") else s
  }

  // A 401 to a request made with `sent`.
  function Unauthorized(s: State, human: bool, sent: Creds): State {
    if (human || sent.apiKey == "") && s.creds.token == sent.token then SetToken(s, "") else Cleared(s)
  }

  function CacheGet(store: Store, key: string, now: int): Option<List> {
    if key in store && now <= store[key].expiresAt then Some(store[key].data) else None
  }

  function CacheSet(store: Store, key: string, data: List, now: int, ttl: int): Store {
    if ttl <= 0 then store else store[key := Entry(data, now + ttl)]
  }

  predicate HasPrefix(prefix: string, k: string) { |prefix| <= |k| && k[..|prefix|] == prefix }

  function Invalidated(store: Store, prefix: string): Store { map k | k in store && !HasPrefix(prefix, k) :: store[k] }

  class Client {
    var token: string
    var apiKey: string
    var generation: nat
    var store: Store
    const ttl: int

    constructor (ttl: int)
      ensures View() == State(Creds("", ""), 0, map[]) && this.ttl == ttl
    {
      token, apiKey, generation, store := "", "", 0, map[];
      this.ttl := ttl;
    }

    ghost function View(): State
      reads this
    {
      State(Creds(token, apiKey), generation, store)
    }

    method ChangeToken(value: string)
      modifies this
      ensures View() == SetToken(old(View()), value)
      ensures token == value && apiKey == old(apiKey) && generation == old(generation) + 1 && store == map[]
    {
      store := map[];
      generation := generation + 1;
      token := value;
    }

    method ChangeAPIKey(key: string)
      modifies this
      ensures View() == SetAPIKey(old(View()), key)
      ensures token == old(token) && apiKey == key && generation == old(generation) + 1 && store == map[]
    {
      store := map[];
      generation := generation + 1;
      apiKey := key;
    }

    method FinishLogout(startedToken: string)
      modifies this
      ensures View() == LoggedOut(old(View()), startedToken)
      ensures apiKey == old(apiKey)
      ensures if old(token) == startedToken then token == "" && generation == old(generation) + 1 && store == map[]
              else token == old(token) && generation == old(generation) && store == old(store)
    {
      if token == startedToken {
        store := map[];
        generation := generation + 1;
        token := "";
      }
    }

    method OnUnauthorized(human: bool, sent: Creds)
      modifies this
      ensures View() == Unauthorized(old(View()), human, sent)
      ensures apiKey == old(apiKey) && store == map[]
      ensures if old(token) == sent.token && (human || sent.apiKey == "")
              then token == "" && generation == old(generation) + 1
              else token == old(token) && generation == old(generation)
    {
      store := map[];
      if (human || sent.apiKey == "") && token == sent.token {
        token := "";
        generation := generation + 1;
      }
    }

    method Get(key: string, now: int) returns (data: Option<List>)
      ensures data == CacheGet(store, key, now)
      ensures data.Some? <==> key in store && now <= store[key].expiresAt
      ensures data.Some? ==> data.value == store[key].data
    {
      if key !in store || now > store[key].expiresAt {
        return None;
      }
      return Some(store[key].data);
    }

    method Set(key: string, data: List, now: int)
      modifies this
      ensures View() == old(View()).(store := CacheSet(old(store), key, data, now, ttl))
      ensures store == if ttl > 0 then old(store)[key := Entry(data, now + ttl)] else old(store)
    {
      if ttl <= 0 {
        return;
      }
      store := store[key := Entry(data, now + ttl)];
    }

    method Invalidate(prefix: string)
      modifies this
      ensures View() == old(View()).(store := Invalidated(old(store), prefix))
      ensures forall k :: k in store <==> k in old(store) && !(prefix <= k)
      ensures forall k :: k in store ==> store[k] == old(store)[k]
    {
      var left := store.Keys;
      while left != {}
        invariant left <= old(store).Keys && (token, apiKey, generation) == old((token, apiKey, generation))
        invariant store == map k | k in old(store) && (k in left || !HasPrefix(prefix, k)) :: old(store)[k]
        decreases left
      {
        var k :| k in left;
        if |k| >= |prefix| && k[..|prefix|] == prefix {
          store := store - {k};
        }
        left := left - {k};
      }
    }
  }

  // ---------------------------------------------------------------- concurrent calls

  // Where one call of ListSecrets stands; `start` is the generation when it was made.
  datatype Call =
    | Begun(project: string, environment: string, start: nat)
    | Keyed(project: string, environment: string, start: nat, generation: nat)
    | Missed(project: string, environment: string, start: nat, generation: nat)
    | Sent(project: string, environment: string, start: nat, generation: nat, creds: Creds, at: nat)
    | Fetched(project: string, environment: string, start: nat, generation: nat, list: List)

  datatype Return = Return(project: string, environment: string, start: nat, end: nat, list: List)

  // `history[g]` is what the credentials were at generation g.
  datatype System = System(s: State, history: seq<Creds>, calls: map<Id, Call>, returned: seq<Return>)

  datatype Event =
    // One call, step by step; its lock is released between any two of them.
    | Begin(id: Id, project: string, environment: string)
    | ReadGeneration(id: Id)
    | LookUp(id: Id, now: int)
    | Send(id: Id)
    | Answer(id: Id, body: string)
    | Retry(id: Id)
    | GiveUp(id: Id)
    | Finish(id: Id, now: int)
    // Everything else done with the client. A cache is cleared and credentials are
    // changed in separate steps, since other goroutines may use the cache in between.
    | TokenSet(token: string)
    | APIKeySet(key: string)
    | LogoutConfirmed(token: string)
    | Refused(human: bool, sent: Creds)
    | CacheCleared
    | CacheInvalidated(prefix: string)

  function Became(y: System, s: State): System {
    y.(s := s, history := if s.generation == y.s.generation then y.history else y.history + [s.creds])
  }

  function Returns(y: System, id: Id, c: Call, list: List): System {
    y.(calls := y.calls - {id},
        returned := y.returned + [Return(c.project, c.environment, c.start, y.s.generation, list)])
  }

  function StepCall(y: System, ttl: int, e: Event, c: Call): System
    requires e.ReadGeneration? || e.LookUp? || e.Send? || e.Answer? || e.Retry? || e.GiveUp? || e.Finish?
  {
    match (e, c)
    case (ReadGeneration(id), Begun(p, v, start)) => y.(calls := y.calls[id := Keyed(p, v, start, y.s.generation)])
    case (LookUp(id, now), Keyed(p, v, start, g)) =>
      (match CacheGet(y.s.store, Key(p, v, g), now)
       case Some(list) => Returns(y, id, c, list)
       case None => y.(calls := y.calls[id := Missed(p, v, start, g)]))
    case (Send(id), Missed(p, v, start, g)) =>
        y.(calls := y.calls[id := Sent(p, v, start, g, y.s.creds, y.s.generation)])
    case (Answer(id, body), Sent(p, v, start, g, creds, at)) =>
      y.(calls := y.calls[id := Fetched(p, v, start, g, List(p, v, creds, at, body))])
    case (Retry(id), Sent(p, v, start, g, _, _)) => y.(calls := y.calls[id := Missed(p, v, start, g)])
    case (GiveUp(id), _) => y.(calls := y.calls - {id})
    case (Finish(id, now), Fetched(p, v, start, g, list)) =>
      Returns(y.(s := y.s.(store := CacheSet(y.s.store, Key(p, v, g), list, now, ttl))), id, c, list)
    case _ => y
  }

  function Step(y: System, ttl: int, e: Event): System {
    match e
    case Begin(id, project, environment) =>
      if id in y.calls then y else y.(calls := y.calls[id := Begun(project, environment, y.s.generation)])
    case TokenSet(token) => Became(y, Changed(y.s, y.s.creds.(token := token)))
    case APIKeySet(key) => Became(y, Changed(y.s, y.s.creds.(apiKey := key)))
    case LogoutConfirmed(token) => if y.s.creds.token == token then Became(y, Changed(y.s, y.s.creds.(token := "")))
        else y
    case Refused(human, sent) =>
      if (human || sent.apiKey == "") && y.s.creds.token == sent.token
      then Became(y, Changed(y.s, y.s.creds.(token := ""))) else y
    case CacheCleared => Became(y, Cleared(y.s))
    case CacheInvalidated(prefix) => Became(y, y.s.(store := Invalidated(y.s.store, prefix)))
    case _ => if e.id in y.calls then StepCall(y, ttl, e, y.calls[e.id]) else y
  }

  function Run(y: System, ttl: int, es: seq<Event>): System
    decreases es
  {
    if es == [] then y else Run(Step(y, ttl, es[0]), ttl, es[1..])
  }

  const Start := System(State(Creds("", ""), 0, map[]), [Creds("", "")], map[], [])

  // The client's methods are such steps, run without a pause.
  lemma MethodsAreSteps(y: System, ttl: int, token: string, key: string, human: bool, sent: Creds)
    ensures Run(y, ttl, [CacheCleared, TokenSet(token)]).s == SetToken(y.s, token)
    ensures Run(y, ttl, [CacheCleared, APIKeySet(key)]).s == SetAPIKey(y.s, key)
    ensures Run(y, ttl, [CacheCleared, Refused(human, sent)]).s == Unauthorized(y.s, human, sent)
    ensures LoggedOut(y.s, token)
         == if y.s.creds.token == token then Run(y, ttl, [CacheCleared, LogoutConfirmed(token)]).s else y.s
  {
    TwoSteps(y, ttl, CacheCleared, TokenSet(token));
    TwoSteps(y, ttl, CacheCleared, APIKeySet(key));
    TwoSteps(y, ttl, CacheCleared, Refused(human, sent));
    TwoSteps(y, ttl, CacheCleared, LogoutConfirmed(token));
  }

  lemma TwoSteps(y: System, ttl: int, a: Event, b: Event)
    ensures Run(y, ttl, [a, b]) == Step(Step(y, ttl, a), ttl, b)
  {
    assert [a, b][1..] == [b];
    assert Run(Step(y, ttl, a), ttl, [b]) == Step(Step(y, ttl, a), ttl, b);
  }

  // ---------------------------------------------------------------- the invariant

  // The list was fetched with the credentials of a generation no older than `since`.
  ghost predicate FetchedSince(history: seq<Creds>, list: List, since: nat) {
    since <= list.at < |history| && list.creds == history[list.at]
  }

  ghost predicate EntryOk(history: seq<Creds>, key: string, list: List) {
    exists g :: key == Key(list.project, list.environment, g) && FetchedSince(history, list, g)
  }

  ghost predicate StoreOk(history: seq<Creds>, store: Store) {
    forall k :: k in store ==> EntryOk(history, k, store[k].data)
  }

  ghost predicate CallOk(history: seq<Creds>, c: Call) {
    && c.start < |history|
    && (!c.Begun? ==> c.start <= c.generation < |history|)
    && (c.Sent? ==> c.generation <= c.at < |history| && c.creds == history[c.at])
    && (c.Fetched? ==> FetchedSince(history, c.list, c.generation)
                       && c.list.project == c.project && c.list.environment == c.environment)
  }

  ghost predicate CallsOk(y: System) { forall i :: i in y.calls ==> CallOk(y.history, y.calls[i]) }

  // The list of the scope asked for, fetched with credentials in force during the call.
  ghost predicate ReturnOk(history: seq<Creds>, r: Return) {
    && r.start <= r.list.at <= r.end < |history| && r.list.creds == history[r.list.at]
    && Scope(r.list.project, r.list.environment) == Scope(r.project, r.environment)
  }

  ghost predicate ReturnsOk(y: System) { forall i :: 0 <= i < |y.returned| ==> ReturnOk(y.history, y.returned[i]) }

  ghost predicate Inv(y: System) {
    && |y.history| == y.s.generation + 1 && y.history[y.s.generation] == y.s.creds
    && StoreOk(y.history, y.s.store) && CallsOk(y) && ReturnsOk(y)
  }

  lemma ChangeKeepsInv(y: System, s: State)
    requires Inv(y) && s.store.Keys <= y.s.store.Keys && forall k :: k in s.store ==> s.store[k] == y.s.store[k]
    requires s.generation == y.s.generation + 1 || (s.generation == y.s.generation && s.creds == y.s.creds)
    ensures Inv(Became(y, s))
  {
    var n := Became(y, s);
    forall k | k in n.s.store ensures EntryOk(n.history, k, n.s.store[k].data) {
      var list := y.s.store[k].data;
      assert EntryOk(y.history, k, list);
      var g: nat :| k == Key(list.project, list.environment, g) && FetchedSince(y.history, list, g);
      assert FetchedSince(n.history, list, g);
    }
    forall i | i in n.calls ensures CallOk(n.history, n.calls[i]) {
      assert CallOk(y.history, y.calls[i]);
    }
    forall i | 0 <= i < |n.returned| ensures ReturnOk(n.history, n.returned[i]) {
      assert ReturnOk(y.history, y.returned[i]);
    }
  }

  // What a hit returns was fetched since the call read its generation.
  lemma HitIsCurrent(y: System, c: Call, now: int)
    requires Inv(y) && c.Keyed? && CacheGet(y.s.store, Key(c.project, c.environment, c.generation), now).Some?
    ensures var list := CacheGet(y.s.store, Key(c.project, c.environment, c.generation), now).value;
            && FetchedSince(y.history, list, c.generation)
            && Scope(list.project, list.environment) == Scope(c.project, c.environment)
  {
    var k := Key(c.project, c.environment, c.generation);
    var list := y.s.store[k].data;
    assert EntryOk(y.history, k, list);
    var g: nat :| k == Key(list.project, list.environment, g) && FetchedSince(y.history, list, g);
    KeyDeterminesGeneration(c.project, c.environment, c.generation, list.project, list.environment, g);
  }

  lemma ReturnKeepsInv(y: System, id: Id, c: Call, list: List)
    requires Inv(y) && CallOk(y.history, c) && !c.Begun? && FetchedSince(y.history, list, c.generation)
    requires Scope(list.project, list.environment) == Scope(c.project, c.environment)
    ensures Inv(Returns(y, id, c, list))
  {}

  lemma StoringKeepsInv(y: System, c: Call, now: int, ttl: int)
    requires Inv(y) && CallOk(y.history, c) && c.Fetched?
    ensures Inv(y.(s := y.s.(store :=
        CacheSet(y.s.store, Key(c.project, c.environment, c.generation), c.list, now, ttl))))
  {
    var key := Key(c.project, c.environment, c.generation);
    var store := CacheSet(y.s.store, key, c.list, now, ttl);
    forall k | k in store ensures EntryOk(y.history, k, store[k].data) {
      if k != key || ttl <= 0 { assert EntryOk(y.history, k, y.s.store[k].data); }
    }
  }

  lemma CallKeepsInv(y: System, ttl: int, e: Event, c: Call)
    requires Inv(y) && (e.ReadGeneration? || e.LookUp? || e.Send? || e.Answer? || e.Retry? || e.GiveUp? || e.Finish?)
    requires e.id in y.calls && c == y.calls[e.id]
    ensures Inv(StepCall(y, ttl, e, c))
  {
    assert CallOk(y.history, c);
    if e.LookUp? && c.Keyed? {
      var hit := CacheGet(y.s.store, Key(c.project, c.environment, c.generation), e.now);
      if hit.Some? {
        HitIsCurrent(y, c, e.now);
        ReturnKeepsInv(y, e.id, c, hit.value);
      }
    } else if e.Finish? && c.Fetched? {
      StoringKeepsInv(y, c, e.now, ttl);
      var key := Key(c.project, c.environment, c.generation);
      ReturnKeepsInv(y.(s := y.s.(store := CacheSet(y.s.store, key, c.list, e.now, ttl))), e.id, c, c.list);
    }
  }

  lemma StepKeepsInv(y: System, ttl: int, e: Event)
    requires Inv(y)
    ensures Inv(Step(y, ttl, e))
  {
    match e
    case Begin(_, _, _) =>
    case TokenSet(token) => ChangeKeepsInv(y, Changed(y.s, y.s.creds.(token := token)));
    case APIKeySet(key) => ChangeKeepsInv(y, Changed(y.s, y.s.creds.(apiKey := key)));
    case LogoutConfirmed(_) => ChangeKeepsInv(y, Changed(y.s, y.s.creds.(token := "")));
    case Refused(_, _) => ChangeKeepsInv(y, Changed(y.s, y.s.creds.(token := "")));
    case CacheCleared => ChangeKeepsInv(y, Cleared(y.s));
    case CacheInvalidated(prefix) => ChangeKeepsInv(y, y.s.(store := Invalidated(y.s.store, prefix)));
    case _ => if e.id in y.calls { CallKeepsInv(y, ttl, e, y.calls[e.id]); }
  }

  lemma {:induction false} RunKeepsInv(y: System, ttl: int, es: seq<Event>)
    requires Inv(y)
    ensures Inv(Run(y, ttl, es))
    decreases es
  {
    if es != [] {
      StepKeepsInv(y, ttl, es[0]);
      RunKeepsInv(Step(y, ttl, es[0]), ttl, es[1..]);
    }
  }

  // Every list a call returned, cached or fetched, was fetched with credentials that were
  // in force while the call ran, for the scope the call asked for.
  lemma ListsAreCurrent(ttl: int, es: seq<Event>, i: nat)
    requires i < |Run(Start, ttl, es).returned|
    ensures ReturnOk(Run(Start, ttl, es).history, Run(Start, ttl, es).returned[i])
  {
    RunKeepsInv(Start, ttl, es);
  }

  // ---------------------------------------------------------------- the right project

  ghost predicate AsksOnly(es: seq<Event>, ids: set<string>) {
    forall i :: 0 <= i < |es| && es[i].Begin? ==> es[i].project in ids
  }

  predicate Right(r: Return) { r.list.project == r.project && r.list.environment == r.environment }

  ghost predicate AllRight(y: System) { forall i :: 0 <= i < |y.returned| ==> Right(y.returned[i]) }

  // Everything in the system is about projects that were asked for.
  ghost predicate About(y: System, ids: set<string>) {
    && (forall k :: k in y.s.store ==> y.s.store[k].data.project in ids)
    && (forall i :: i in y.calls ==>
        y.calls[i].project in ids && (y.calls[i].Fetched? ==> y.calls[i].list.project in ids))
    && (forall i :: 0 <= i < |y.returned| ==> y.returned[i].project in ids && y.returned[i].list.project in ids)
  }

  lemma CallKeepsAbout(y: System, ttl: int, e: Event, c: Call, ids: set<string>)
    requires e.ReadGeneration? || e.LookUp? || e.Send? || e.Answer? || e.Retry? || e.GiveUp? || e.Finish?
    requires About(y, ids) && e.id in y.calls && c == y.calls[e.id]
    ensures About(StepCall(y, ttl, e, c), ids)
  {}

  lemma StepKeepsAbout(y: System, ttl: int, e: Event, ids: set<string>)
    requires About(y, ids) && (e.Begin? ==> e.project in ids)
    ensures About(Step(y, ttl, e), ids)
  {
    if e.ReadGeneration? || e.LookUp? || e.Send? || e.Answer? || e.Retry? || e.GiveUp? || e.Finish? {
      if e.id in y.calls { CallKeepsAbout(y, ttl, e, y.calls[e.id], ids); }
    }
  }

  lemma {:induction false} RunKeepsAbout(y: System, ttl: int, es: seq<Event>, ids: set<string>)
    requires About(y, ids) && AsksOnly(es, ids)
    ensures About(Run(y, ttl, es), ids)
    decreases es
  {
    if es != [] {
      StepKeepsAbout(y, ttl, es[0], ids);
      RunKeepsAbout(Step(y, ttl, es[0]), ttl, es[1..], ids);
    }
  }

  lemma PrefixFreeRunsAreRight(ids: set<string>, ttl: int, es: seq<Event>)
    requires PrefixFree(ids) && AsksOnly(es, ids)
    ensures AllRight(Run(Start, ttl, es))
  {
    var y := Run(Start, ttl, es);
    RunKeepsInv(Start, ttl, es);
    RunKeepsAbout(Start, ttl, es, ids);
    ScopesAreUnambiguousIff(ids);
    forall i | 0 <= i < |y.returned| ensures Right(y.returned[i]) {
      assert ReturnOk(y.history, y.returned[i]);
    }
  }

  // Without a lifetime nothing is ever cached.
  lemma {:induction false} UncachedRunsAreRight(y: System, ttl: int, es: seq<Event>)
    requires ttl <= 0 && Inv(y) && y.s.store == map[] && AllRight(y)
    ensures AllRight(Run(y, ttl, es))
    decreases es
  {
    if es != [] {
      StepKeepsInv(y, ttl, es[0]);
      UncachedStep(y, ttl, es[0]);
      UncachedRunsAreRight(Step(y, ttl, es[0]), ttl, es[1..]);
    }
  }

  lemma UncachedStep(y: System, ttl: int, e: Event)
    requires ttl <= 0 && CallsOk(y) && y.s.store == map[] && AllRight(y)
    ensures Step(y, ttl, e).s.store == map[] && AllRight(Step(y, ttl, e))
  {
    if e.Finish? && e.id in y.calls { assert CallOk(y.history, y.calls[e.id]); }
  }

  // One call that misses and fetches, and one that asks the cache.
  function FetchRun(id: Id, p: string, v: string): seq<Event> {
    [Begin(id, p, v), ReadGeneration(id), LookUp(id, 0), Send(id), Answer(id, ""), Finish(id, 0)]
  }

  function HitRun(id: Id, p: string, v: string): seq<Event> { [Begin(id, p, v), ReadGeneration(id), LookUp(id, 0)] }

  lemma {:induction false} RunSplits(y: System, ttl: int, a: seq<Event>, b: seq<Event>)
    ensures Run(y, ttl, a + b) == Run(Run(y, ttl, a), ttl, b)
    decreases a
  {
    if a == [] {
      assert a + b == b;
    } else {
      assert (a + b)[1..] == a[1..] + b;
      RunSplits(Step(y, ttl, a[0]), ttl, a[1..], b);
    }
  }

  lemma RunOne(y: System, ttl: int, e: Event, rest: seq<Event>)
    ensures Run(y, ttl, [e] + rest) == Run(Step(y, ttl, e), ttl, rest)
  {
    assert ([e] + rest)[1..] == rest;
  }

  lemma ThreeSteps(y: System, ttl: int, es: seq<Event>)
    requires |es| == 3
    ensures Run(y, ttl, es) == Step(Step(Step(y, ttl, es[0]), ttl, es[1]), ttl, es[2])
  {
    var (a, b, c) := (es[0], es[1], es[2]);
    assert es == [a] + ([b] + ([c] + []));
    RunOne(y, ttl, a, [b] + ([c] + []));
    RunOne(Step(y, ttl, a), ttl, b, [c] + []);
    RunOne(Step(Step(y, ttl, a), ttl, b), ttl, c, []);
  }

  lemma FetchFillsTheCache(ttl: int, p: string, v: string)
    requires ttl > 0
    ensures var y := Run(Start, ttl, FetchRun(0, p, v));
            && y.calls == map[] && y.s.generation == 0 && Key(p, v, 0) in y.s.store
            && y.s.store[Key(p, v, 0)].data.project == p && y.s.store[Key(p, v, 0)].expiresAt == ttl
  {
    var es := FetchRun(0, p, v);
    var (a, b) := (es[..3], es[3..]);
    assert es == a + b;
    RunSplits(Start, ttl, a, b);
    ThreeSteps(Start, ttl, a);
    var y := Run(Start, ttl, a);
    assert y.calls == map[0 := Missed(p, v, 0, 0)] && y.s == Start.s;
    ThreeSteps(y, ttl, b);
    assert Run(y, ttl, b).calls == map[];
  }

  lemma HitReturns(y: System, ttl: int, p: string, v: string)
    requires y.calls == map[] && Key(p, v, y.s.generation) in y.s.store
    requires y.s.store[Key(p, v, y.s.generation)].expiresAt >= 0
    ensures var n := Run(y, ttl, HitRun(1, p, v));
            n.returned == y.returned + [Return(p, v, y.s.generation, y.s.generation,
                y.s.store[Key(p, v, y.s.generation)].data)]
  {
    ThreeSteps(y, ttl, HitRun(1, p, v));
  }

  // Two calls that make a cache answer with the list of another project.
  lemma CollisionMisleads(ids: set<string>, ttl: int) returns (es: seq<Event>)
    requires ttl > 0 && !PrefixFree(ids)
    ensures AsksOnly(es, ids) && !AllRight(Run(Start, ttl, es))
  {
    var p, q :| p in ids && q in ids && p + ":" <= q;
    var x := CollidingScopes(p, q);
    var (a, b) := (FetchRun(0, q, ""), HitRun(1, p, x + ":"));
    es := a + b;
    RunSplits(Start, ttl, a, b);
    FetchFillsTheCache(ttl, q, "");
    var y := Run(Start, ttl, a);
    assert Key(p, x + ":", 0) == Key(q, "", 0);
    HitReturns(y, ttl, p, x + ":");
    var n := Run(Start, ttl, es);
    assert !Right(n.returned[|n.returned| - 1]);
  }

  // Calls for the projects of a set always get lists of the project and environment they
  // asked for, exactly when nothing is cached or no identifier of the set is another one
  // followed by a colon and more.
  lemma ListsAreRightIff(ids: set<string>, ttl: int)
    ensures (forall es: seq<Event> :: AsksOnly(es, ids) ==> AllRight(Run(Start, ttl, es)))
            <==> (ttl <= 0 || PrefixFree(ids))
  {
    if ttl <= 0 {
      forall es: seq<Event> ensures AllRight(Run(Start, ttl, es)) {
        UncachedRunsAreRight(Start, ttl, es);
      }
    } else if PrefixFree(ids) {
      forall es: seq<Event> | AsksOnly(es, ids) ensures AllRight(Run(Start, ttl, es)) {
        PrefixFreeRunsAreRight(ids, ttl, es);
      }
    } else {
      var es := CollisionMisleads(ids, ttl);
    }
  }
}
