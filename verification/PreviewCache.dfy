/** The link preview cache: two critical sections around an unprotected fetch (linkpreview.go). */
module PreviewCache {
  import opened Common
  import opened Metadata

  /** A parsed URL; rest is everything between host and fragment. */
  datatype Url = Url(scheme: string, host: string, rest: string, fragment: string)

  /** A normalized URL, standing for its own rendering and for the hash of it. */
  type Key = Url

  datatype Entry = Entry(p: Preview, exp: int)

  /** normalizeURL on a trimmed text of this length, with what the URL parser made of it. */
  function Normalize(length: nat, parsed: Option<Url>): Option<Key> {
    if length > 2048 || parsed.None? then None
    else
      var u := parsed.value;
      if (u.scheme != "http" && u.scheme != "https") || u.host == "" then None else Some(u.(fragment := ""))
  }

  /** URLs that differ only in their fragment share an entry, all others do not. */
  lemma NormalizeForgetsFragment(n: nat, a: Url, m: nat, b: Url)
    requires Normalize(n, Some(a)).Some? && Normalize(m, Some(b)).Some?
    ensures Normalize(n, Some(a)) == Normalize(m, Some(b)) <==> a == b.(fragment := a.fragment)
  {
  }

  function Hit(cache: map<Key, Entry>, key: Key, now: int): Option<Preview> {
    if key in cache && now < cache[key].exp then Some(cache[key].p) else None
  }

  /** evictExpiredLocked. */
  function Unexpired(cache: map<Key, Entry>, now: int): map<Key, Entry> {
    map k | k in cache && !(now > cache[k].exp) :: cache[k]
  }

  /** The store section; victim is the entry that the map iteration happens to yield first. */
  function Stored(cache: map<Key, Entry>, maxEnt: nat, key: Key, e: Entry, now: int, victim: Key): map<Key, Entry> {
    var kept := if |cache| >= maxEnt then Unexpired(cache, now) else cache;
    var room := if |cache| >= maxEnt && |kept| >= maxEnt then kept - {victim} else kept;
    room[key := e]
  }

  predicate Useful(p: Preview) {
    p.title != "" || p.description != "" || p.image != ""
  }

  lemma StoredIsBounded(cache: map<Key, Entry>, maxEnt: nat, key: Key, e: Entry, now: int, victim: Key)
    requires |cache| <= maxEnt && maxEnt > 0
    requires |cache| >= maxEnt && |Unexpired(cache, now)| >= maxEnt ==> victim in Unexpired(cache, now)
    ensures |Stored(cache, maxEnt, key, e, now, victim)| <= maxEnt
  {
    var live := Unexpired(cache, now);
    assert live.Keys <= cache.Keys;
    Fewer(live.Keys, cache.Keys);
    if |cache| < maxEnt {
      OneMore(cache, key, e);
    } else if |live| < maxEnt {
      OneMore(live, key, e);
    } else {
      assert (live - {victim}).Keys == live.Keys - {victim};
      OneMore(live - {victim}, key, e);
    }
  }

  lemma OneMore(m: map<Key, Entry>, key: Key, e: Entry)
    ensures |m[key := e]| <= |m| + 1
  {
    assert m[key := e].Keys == m.Keys + {key};
  }

  lemma Fewer(a: set<Key>, b: set<Key>)
    requires a <= b
    ensures |a| <= |b|
  {
    assert b == a + (b - a);
  }

  // ---------- the service object ----------

  class Service {
    var cache: map<Key, Entry>
    const maxEnt: nat
    const ttl: int

    ghost predicate Valid()
      reads this
    {
      |cache| <= maxEnt && maxEnt > 0 && ttl > 0
    }

    /** Times are nanoseconds; the defaults are fifteen minutes and 2000 entries. */
    constructor (ttl: int, maxEntries: int)
      ensures Valid() && cache == map[]
      ensures this.ttl == if ttl <= 0 then 900_000_000_000 else ttl
      ensures this.maxEnt == if maxEntries <= 0 then 2000 else maxEntries
    {
      this.ttl := if ttl <= 0 then 900_000_000_000 else ttl;
      this.maxEnt := if maxEntries <= 0 then 2000 else maxEntries;
      cache := map[];
    }

    method EvictExpired(now: int)
      modifies this`cache
      ensures cache == Unexpired(old(cache), now)
      ensures forall k :: k in cache <==> k in old(cache) && now <= old(cache)[k].exp
      ensures forall k | k in cache :: cache[k] == old(cache)[k]
    {
      var rest := cache.Keys;
      while rest != {}
        invariant rest <= cache.Keys
        invariant forall k | k in cache :: k in old(cache) && cache[k] == old(cache)[k]
        invariant forall k | k in old(cache) && (k in rest || !(now > old(cache)[k].exp)) :: k in cache
        invariant forall k | k in cache && k !in rest :: !(now > cache[k].exp)
        decreases rest
      {
        var k :| k in rest;
        rest := rest - {k};
        if now > cache[k].exp {
          cache := cache - {k};
        }
      }
    }

    /** The store section; the dropped entry is any one of those left. */
    method Store(key: Key, p: Preview, nowEvict: int, nowStore: int) returns (victim: Key)
      requires Valid()
      modifies this`cache
      ensures Valid()
      ensures cache == Stored(old(cache), maxEnt, key, Entry(p, nowStore + ttl), nowEvict, victim)
      ensures |old(cache)| >= maxEnt && |Unexpired(old(cache), nowEvict)| >= maxEnt ==> victim in old(cache)
      ensures key in cache && cache[key] == Entry(p, nowStore + ttl)
      ensures forall k | k in cache && k != key :: k in old(cache) && cache[k] == old(cache)[k]
      ensures forall k | k in old(cache) && k !in cache ::
                |old(cache)| >= maxEnt && (nowEvict > old(cache)[k].exp || k == victim)
    {
      victim := key;
      ghost var start := cache;
      if |cache| >= maxEnt {
        EvictExpired(nowEvict);
        if |cache| >= maxEnt {
          var k :| k in cache;
          victim := k;
          cache := cache - {k};
        }
      }
      StoredIsBounded(start, maxEnt, key, Entry(p, nowStore + ttl), nowEvict, victim);
      cache := cache[key := Entry(p, nowStore + ttl)];
    }

    /**
      One call with nothing else going on. allowed is the answer of the address check, page what the parser
      made of the fetched document if the fetch succeeded, and the clock reads t0, t1, t2 on its three uses.
    */
    method Fetch(length: nat, parsed: Option<Url>, allowed: bool, page: Option<Preview>, render: Url -> string,
                 t0: int, t1: int, t2: int)
      returns (r: Option<Preview>)
      requires Valid()
      modifies this`cache
      ensures Valid()
      ensures r.Some? <==>
                && allowed && length <= 2048 && parsed.Some?
                && (parsed.value.scheme == "http" || parsed.value.scheme == "https") && parsed.value.host != ""
                && var key := parsed.value.(fragment := "");
                   || (key in old(cache) && t0 < old(cache)[key].exp)
                   || (page.Some? && (page.value.title != "" || page.value.description != "" || page.value.image != ""))
      ensures r.None? ==> cache == old(cache)
      ensures r.Some? ==>
                var key := parsed.value.(fragment := "");
                if key in old(cache) && t0 < old(cache)[key].exp then r.value == old(cache)[key].p && cache == old(cache)
                else r.value == page.value.(url := render(key))
                     && key in cache && cache[key] == Entry(r.value, t2 + ttl)
                     && forall k | k in cache && k != key :: k in old(cache) && cache[k] == old(cache)[k]
    {
      var key := Normalize(length, parsed);
      if key.None? || !allowed {
        return None;
      }
      var hit := Hit(cache, key.value, t0);
      if hit.Some? {
        return hit;
      }
      if page.None? {
        return None;
      }
      var p := page.value.(url := render(key.value));
      if p.title == "" && p.description == "" && p.image == "" {
        return None;
      }
      var victim := Store(key.value, p, t1, t2);
      return Some(p);
    }
  }

  // ---------- calls interleaved at the fetch ----------

  /** A call that missed and is fetching, or has returned. */
  datatype Flight = Fetching(key: Key) | Returned

  /** fetched lists the successful fetches with the time of their store, hits the lookups answered from the cache. */
  datatype Fetched = Fetched(key: Key, p: Preview, at: int)

  datatype State = State(cache: map<Key, Entry>, now: int, flights: seq<Flight>, fetched: seq<Fetched>, hits: seq<Fetched>)

  /** Every clock reading moves the clock on by some amount that is not negative. */
  datatype Action =
    | LookUp(length: nat, parsed: Option<Url>, d: nat)
    | Land(i: nat, page: Option<Preview>, d1: nat, d2: nat, victim: Key)

  function LandStep(s: State, maxEnt: nat, ttl: int, i: nat, p: Preview, d1: nat, d2: nat, victim: Key): State
    requires i < |s.flights| && s.flights[i].Fetching?
  {
    var key := s.flights[i].key;
    State(Stored(s.cache, maxEnt, key, Entry(p, s.now + d1 + d2 + ttl), s.now + d1, victim),
          s.now + d1 + d2, s.flights[i := Returned], s.fetched + [Fetched(key, p, s.now + d1 + d2)], s.hits)
  }

  /** The victim must be one of the entries the loop could meet. */
  predicate CanDrop(s: State, maxEnt: nat, now: int, victim: Key) {
    |s.cache| >= maxEnt && |Unexpired(s.cache, now)| >= maxEnt ==> victim in Unexpired(s.cache, now)
  }

  function Apply(s: State, maxEnt: nat, ttl: int, a: Action): State {
    match a
    case LookUp(length, parsed, d) =>
      (match Normalize(length, parsed)
       case None => s
       case Some(key) =>
         var now := s.now + d;
         match Hit(s.cache, key, now)
         case None => s.(now := now, flights := s.flights + [Fetching(key)])
         case Some(p) => s.(now := now, hits := s.hits + [Fetched(key, p, now)]))
    case Land(i, page, d1, d2, victim) =>
      if i >= |s.flights| || !s.flights[i].Fetching? then s
      else if page.None? || !Useful(page.value) then s.(flights := s.flights[i := Returned])
      else if !CanDrop(s, maxEnt, s.now + d1, victim) then s
      else LandStep(s, maxEnt, ttl, i, page.value, d1, d2, victim)
  }

  function Run(maxEnt: nat, ttl: int, start: int, actions: seq<Action>): State {
    if actions == [] then State(map[], start, [], [], [])
    else Apply(Run(maxEnt, ttl, start, actions[..|actions| - 1]), maxEnt, ttl, actions[|actions| - 1])
  }

  /** f is the fetch that put this entry there. */
  predicate Backs(f: Fetched, ttl: int, now: int, key: Key, e: Entry) {
    f.key == key && f.p == e.p && e.exp == f.at + ttl && f.at <= now
  }

  predicate Answers(f: Fetched, ttl: int, h: Fetched) {
    f.key == h.key && f.p == h.p && f.at <= h.at < f.at + ttl
  }

  ghost predicate CacheOk(cache: map<Key, Entry>, fetched: seq<Fetched>, ttl: int, now: int) {
    forall k | k in cache :: exists f :: f in fetched && Backs(f, ttl, now, k, cache[k])
  }

  ghost predicate HitsOk(hits: seq<Fetched>, fetched: seq<Fetched>, ttl: int) {
    forall h | h in hits :: exists f :: f in fetched && Answers(f, ttl, h)
  }

  ghost predicate AllUseful(fetched: seq<Fetched>) {
    forall f | f in fetched :: Useful(f.p)
  }

  lemma CacheStaysOk(cache: map<Key, Entry>, fetched: seq<Fetched>, more: seq<Fetched>, ttl: int, now: int, later: int)
    requires CacheOk(cache, fetched, ttl, now) && now <= later
    ensures CacheOk(cache, fetched + more, ttl, later)
  {
    forall k | k in cache ensures exists f :: f in fetched + more && Backs(f, ttl, later, k, cache[k]) {
      var f :| f in fetched && Backs(f, ttl, now, k, cache[k]);
      assert f in fetched + more && Backs(f, ttl, later, k, cache[k]);
    }
  }

  lemma HitsStayOk(hits: seq<Fetched>, fetched: seq<Fetched>, more: seq<Fetched>, ttl: int)
    requires HitsOk(hits, fetched, ttl)
    ensures HitsOk(hits, fetched + more, ttl)
  {
    forall h | h in hits ensures exists f :: f in fetched + more && Answers(f, ttl, h) {
      var f :| f in fetched && Answers(f, ttl, h);
      assert f in fetched + more;
    }
  }

  /** A hit is answered by the fetch that put the entry there. */
  lemma HitIsAnswered(cache: map<Key, Entry>, fetched: seq<Fetched>, hits: seq<Fetched>, ttl: int, now: int, key: Key, at: int)
    requires CacheOk(cache, fetched, ttl, now) && HitsOk(hits, fetched, ttl) && now <= at && Hit(cache, key, at).Some?
    ensures HitsOk(hits + [Fetched(key, cache[key].p, at)], fetched, ttl)
  {
    var f :| f in fetched && Backs(f, ttl, now, key, cache[key]);
    assert Answers(f, ttl, Fetched(key, cache[key].p, at));
  }

  /** The stored entry is backed by its own fetch, the others by theirs. */
  lemma StoredIsBacked(cache: map<Key, Entry>, fetched: seq<Fetched>, ttl: int, maxEnt: nat, f: Fetched, now: int, victim: Key)
    requires CacheOk(cache, fetched + [f], ttl, f.at)
    ensures CacheOk(Stored(cache, maxEnt, f.key, Entry(f.p, f.at + ttl), now, victim), fetched + [f], ttl, f.at)
  {
    var v := Stored(cache, maxEnt, f.key, Entry(f.p, f.at + ttl), now, victim);
    forall k | k in v ensures exists g :: g in fetched + [f] && Backs(g, ttl, f.at, k, v[k]) {
      if k == f.key {
        assert f in fetched + [f] && Backs(f, ttl, f.at, k, v[k]);
      } else {
        assert k in cache && v[k] == cache[k];
      }
    }
  }

  lemma LandIsBacked(cache: map<Key, Entry>, fetched: seq<Fetched>, ttl: int, maxEnt: nat, f: Fetched, t: int, now: int, victim: Key)
    requires CacheOk(cache, fetched, ttl, t) && t <= f.at
    ensures CacheOk(Stored(cache, maxEnt, f.key, Entry(f.p, f.at + ttl), now, victim), fetched + [f], ttl, f.at)
  {
    CacheStaysOk(cache, fetched, [f], ttl, t, f.at);
    StoredIsBacked(cache, fetched, ttl, maxEnt, f, now, victim);
  }

  lemma LandIsUseful(fetched: seq<Fetched>, f: Fetched)
    requires AllUseful(fetched) && Useful(f.p)
    ensures AllUseful(fetched + [f])
  {
  }

  lemma ApplyBacked(s: State, maxEnt: nat, ttl: int, a: Action)
    requires CacheOk(s.cache, s.fetched, ttl, s.now)
    ensures var v := Apply(s, maxEnt, ttl, a);
            CacheOk(v.cache, v.fetched, ttl, v.now)
  {
    if Lands(s, maxEnt, a) {
      var f := Landing(s, a);
      LandingStep(s, maxEnt, ttl, a);
      LandIsBacked(s.cache, s.fetched, ttl, maxEnt, f, s.now, s.now + a.d1, a.victim);
    } else {
      OtherStep(s, maxEnt, ttl, a);
      CacheStaysOk(s.cache, s.fetched, [], ttl, s.now, Apply(s, maxEnt, ttl, a).now);
      assert s.fetched + [] == s.fetched;
    }
  }

  lemma OtherStep(s: State, maxEnt: nat, ttl: int, a: Action)
    requires !Lands(s, maxEnt, a)
    ensures var v := Apply(s, maxEnt, ttl, a); v.cache == s.cache && v.fetched == s.fetched && s.now <= v.now
  {
  }

  lemma LandingStep(s: State, maxEnt: nat, ttl: int, a: Action)
    requires Lands(s, maxEnt, a)
    ensures var v, f := Apply(s, maxEnt, ttl, a), Landing(s, a);
            && v.cache == Stored(s.cache, maxEnt, f.key, Entry(f.p, f.at + ttl), s.now + a.d1, a.victim)
            && v.fetched == s.fetched + [f] && v.now == f.at && v.hits == s.hits
  {
  }

  predicate Lands(s: State, maxEnt: nat, a: Action) {
    a.Land? && a.i < |s.flights| && s.flights[a.i].Fetching? && a.page.Some? && Useful(a.page.value)
    && CanDrop(s, maxEnt, s.now + a.d1, a.victim)
  }

  function Landing(s: State, a: Action): Fetched
    requires a.Land? && a.page.Some? && a.i < |s.flights| && s.flights[a.i].Fetching?
  {
    Fetched(s.flights[a.i].key, a.page.value, s.now + a.d1 + a.d2)
  }

  lemma ApplyBounded(s: State, maxEnt: nat, ttl: int, a: Action)
    requires |s.cache| <= maxEnt && maxEnt > 0
    ensures |Apply(s, maxEnt, ttl, a).cache| <= maxEnt
  {
    if Lands(s, maxEnt, a) {
      var f := Landing(s, a);
      StoredIsBounded(s.cache, maxEnt, f.key, Entry(f.p, f.at + ttl), s.now + a.d1, a.victim);
    }
  }

  lemma ApplyUseful(s: State, maxEnt: nat, ttl: int, a: Action)
    requires AllUseful(s.fetched)
    ensures AllUseful(Apply(s, maxEnt, ttl, a).fetched)
  {
    if Lands(s, maxEnt, a) {
      LandIsUseful(s.fetched, Landing(s, a));
    }
  }

  lemma ApplyAnswered(s: State, maxEnt: nat, ttl: int, a: Action)
    requires CacheOk(s.cache, s.fetched, ttl, s.now) && HitsOk(s.hits, s.fetched, ttl)
    ensures var v := Apply(s, maxEnt, ttl, a);
            HitsOk(v.hits, v.fetched, ttl)
  {
    if Lands(s, maxEnt, a) {
      HitsStayOk(s.hits, s.fetched, [Landing(s, a)], ttl);
    } else if a.LookUp? {
      var key := Normalize(a.length, a.parsed);
      if key.Some? && Hit(s.cache, key.value, s.now + a.d).Some? {
        HitIsAnswered(s.cache, s.fetched, s.hits, ttl, s.now, key.value, s.now + a.d);
      }
    }
  }

  lemma {:induction false} RunOk(maxEnt: nat, ttl: int, start: int, actions: seq<Action>)
    ensures var s := Run(maxEnt, ttl, start, actions);
            CacheOk(s.cache, s.fetched, ttl, s.now) && HitsOk(s.hits, s.fetched, ttl) && AllUseful(s.fetched)
  {
    if actions != [] {
      RunOk(maxEnt, ttl, start, actions[..|actions| - 1]);
      var s, a := Run(maxEnt, ttl, start, actions[..|actions| - 1]), actions[|actions| - 1];
      ApplyBacked(s, maxEnt, ttl, a);
      ApplyUseful(s, maxEnt, ttl, a);
      ApplyAnswered(s, maxEnt, ttl, a);
    }
  }

  lemma AnswerOf(hits: seq<Fetched>, fetched: seq<Fetched>, ttl: int, n: nat)
    requires HitsOk(hits, fetched, ttl) && AllUseful(fetched) && n < |hits|
    ensures exists f :: f in fetched && f.key == hits[n].key && f.p == hits[n].p && Useful(f.p)
                        && f.at <= hits[n].at < f.at + ttl
  {
    assert hits[n] in hits;
    var f :| f in fetched && Answers(f, ttl, hits[n]);
    assert Useful(f.p);
  }

  /**
    However lookups and stores interleave and whatever entry is dropped, every hit returns the useful result
    of a successful fetch of the same normalized URL, stored less than ttl before.
  */
  lemma HitsAreFreshFetches(maxEnt: nat, ttl: int, start: int, actions: seq<Action>, n: nat)
    requires maxEnt > 0 && n < |Run(maxEnt, ttl, start, actions).hits|
    ensures var s := Run(maxEnt, ttl, start, actions);
            exists f :: f in s.fetched && f.key == s.hits[n].key && f.p == s.hits[n].p && Useful(f.p)
                        && f.at <= s.hits[n].at < f.at + ttl
  {
    RunOk(maxEnt, ttl, start, actions);
    var s := Run(maxEnt, ttl, start, actions);
    AnswerOf(s.hits, s.fetched, ttl, n);
  }

  /** The cache stays within its bound in every reachable state. */
  lemma {:induction false} CacheStaysBounded(maxEnt: nat, ttl: int, start: int, actions: seq<Action>)
    requires maxEnt > 0
    ensures |Run(maxEnt, ttl, start, actions).cache| <= maxEnt
  {
    if actions != [] {
      CacheStaysBounded(maxEnt, ttl, start, actions[..|actions| - 1]);
      ApplyBounded(Run(maxEnt, ttl, start, actions[..|actions| - 1]), maxEnt, ttl, actions[|actions| - 1]);
    }
  }

  // ---------- runs that get somewhere ----------

  lemma RunPlus(maxEnt: nat, ttl: int, start: int, actions: seq<Action>, a: Action)
    ensures Run(maxEnt, ttl, start, actions + [a]) == Apply(Run(maxEnt, ttl, start, actions), maxEnt, ttl, a)
  {
    assert (actions + [a])[..|actions|] == actions;
  }

  /** A lookup is answered from the cache exactly if the page is there and has not expired; else it is fetched. */
  lemma LookUpOutcome(maxEnt: nat, ttl: int, start: int, actions: seq<Action>, length: nat, u: Url, d: nat)
    requires length <= 2048 && (u.scheme == "http" || u.scheme == "https") && u.host != ""
    ensures var s, v := Run(maxEnt, ttl, start, actions), Run(maxEnt, ttl, start, actions + [LookUp(length, Some(u), d)]);
            var key := u.(fragment := "");
            && v.cache == s.cache && v.now == s.now + d && v.fetched == s.fetched
            && if key in s.cache && s.now + d < s.cache[key].exp
               then v.hits == s.hits + [Fetched(key, s.cache[key].p, v.now)] && v.flights == s.flights
               else v.hits == s.hits && v.flights == s.flights + [Fetching(key)]
  {
    RunPlus(maxEnt, ttl, start, actions, LookUp(length, Some(u), d));
  }

  /** Some entry can always be dropped when one has to be. */
  lemma SomeVictim(s: State, maxEnt: nat, now: int) returns (victim: Key)
    requires maxEnt > 0
    ensures CanDrop(s, maxEnt, now, victim)
  {
    victim := Url("", "", "", "");
    if |Unexpired(s.cache, now)| >= maxEnt {
      victim :| victim in Unexpired(s.cache, now);
    }
  }

  lemma LandsAt(maxEnt: nat, ttl: int, start: int, actions: seq<Action>, i: nat, p: Preview) returns (a: Action)
    requires maxEnt > 0 && Useful(p)
    requires i < |Run(maxEnt, ttl, start, actions).flights| && Run(maxEnt, ttl, start, actions).flights[i].Fetching?
    ensures var s, v := Run(maxEnt, ttl, start, actions), Run(maxEnt, ttl, start, actions + [a]);
            var key := s.flights[i].key;
            && key in v.cache && v.cache[key] == Entry(p, v.now + ttl) && v.hits == s.hits
            && v.fetched == s.fetched + [Fetched(key, p, v.now)]
  {
    var s := Run(maxEnt, ttl, start, actions);
    var victim := SomeVictim(s, maxEnt, s.now);
    a := Land(i, Some(p), 0, 0, victim);
    RunPlus(maxEnt, ttl, start, actions, a);
    LandingStep(s, maxEnt, ttl, a);
  }

  /**
    A page that was fetched is served: from every reachable state in which a URL has no live entry, it can be
    looked up and fetched, and whoever asks again less than ttl later is answered with that page.
  */
  lemma FetchedPageIsServed(maxEnt: nat, ttl: int, start: int, actions: seq<Action>, length: nat, u: Url, p: Preview, d: nat)
    returns (more: seq<Action>)
    requires maxEnt > 0 && d < ttl && Useful(p)
    requires length <= 2048 && (u.scheme == "http" || u.scheme == "https") && u.host != ""
    requires var s := Run(maxEnt, ttl, start, actions); Hit(s.cache, u.(fragment := ""), s.now).None?
    ensures actions <= more
    ensures var s, v := Run(maxEnt, ttl, start, actions), Run(maxEnt, ttl, start, more);
            v.hits == s.hits + [Fetched(u.(fragment := ""), p, v.now)]
  {
    LookUpOutcome(maxEnt, ttl, start, actions, length, u, 0);
    var m1 := actions + [LookUp(length, Some(u), 0)];
    var a := LandsAt(maxEnt, ttl, start, m1, |Run(maxEnt, ttl, start, actions).flights|, p);
    LookUpOutcome(maxEnt, ttl, start, m1 + [a], length, u, d);
    more := m1 + [a] + [LookUp(length, Some(u), d)];
  }
}
