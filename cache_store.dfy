/**
 * The origin's CacheStorage as a value: named cache generations, each a map
 * from request URL to the response stored for it.  The names are kept in
 * creation order because `caches.match` searches the generations in that order.
 */
module CacheStore {
  import opened Wrappers
  import opened Http

  /** One cache generation: request URL to stored response. */
  type Generation = map<string, Response>

  predicate Distinct(ns: seq<string>)
  {
    forall i, j :: 0 <= i < j < |ns| ==> ns[i] != ns[j]
  }

  /** A name followed by distinct names none of which is it is a list of distinct names. */
  lemma DistinctCons(h: string, t: seq<string>)
    requires h !in t && Distinct(t)
    ensures Distinct([h] + t)
  {
    forall i, j | 0 <= i < j < |[h] + t| ensures ([h] + t)[i] != ([h] + t)[j] {
      if i > 0 {
        assert ([h] + t)[i] == t[i - 1];
      }
    }
  }

  /** Generation names in creation order, and what each generation holds. */
  datatype Store = Store(names: seq<string>, gens: map<string, Generation>)
  {
    /** Every generation is listed once, and only existing generations are listed. */
    ghost predicate Valid()
    {
      Distinct(names) && forall n :: n in names <==> n in gens
    }
  }

  const Empty: Store := Store([], map[])

  /** What generation `n` holds for `url`, if the generation exists and holds it. */
  function Entry(gens: map<string, Generation>, n: string, url: string): Option<Response>
  {
    if n in gens && url in gens[n] then Some(gens[n][url]) else None
  }

  /** `ns` with every occurrence of `x` removed. */
  function Without(ns: seq<string>, x: string): (r: seq<string>)
    ensures forall n :: n in r <==> n in ns && n != x
  {
    if ns == [] then []
    else if ns[0] == x then Without(ns[1..], x)
    else [ns[0]] + Without(ns[1..], x)
  }

  /** The names of `ns` that occur in `keep`, in their order in `ns`. */
  function Keep(ns: seq<string>, keep: seq<string>): (r: seq<string>)
    ensures forall n :: n in r <==> n in ns && n in keep
  {
    if ns == [] then []
    else if ns[0] in keep then [ns[0]] + Keep(ns[1..], keep)
    else Keep(ns[1..], keep)
  }

  /** The tail of a list of distinct names is distinct and does not hold its head. */
  lemma DistinctTail(ns: seq<string>)
    requires Distinct(ns) && ns != []
    ensures Distinct(ns[1..]) && ns[0] !in ns[1..]
  {
    var t := ns[1..];
    forall k | 0 <= k < |t| ensures t[k] != ns[0] {
      assert t[k] == ns[k + 1];
    }
  }

  /** Removing a name keeps a list of distinct names distinct. */
  lemma {:induction false} WithoutDistinct(ns: seq<string>, x: string)
    requires Distinct(ns)
    ensures Distinct(Without(ns, x))
  {
    if ns != [] {
      DistinctTail(ns);
      WithoutDistinct(ns[1..], x);
      if ns[0] != x {
        DistinctCons(ns[0], Without(ns[1..], x));
      }
    }
  }

  /** Keeping some names keeps a list of distinct names distinct. */
  lemma {:induction false} KeepDistinct(ns: seq<string>, keep: seq<string>)
    requires Distinct(ns)
    ensures Distinct(Keep(ns, keep))
  {
    if ns != [] {
      DistinctTail(ns);
      KeepDistinct(ns[1..], keep);
      if ns[0] in keep {
        DistinctCons(ns[0], Keep(ns[1..], keep));
      }
    }
  }

  /** `caches.open(name)`: the generation exists afterwards, created empty and last when it was absent. */
  function Open(s: Store, name: string): (r: Store)
    requires s.Valid()
    ensures r.Valid() && name in r.gens
    ensures name in s.gens ==> r == s
    ensures name !in s.gens ==> r.names == s.names + [name]
    ensures forall n, u :: Entry(r.gens, n, u) == Entry(s.gens, n, u)
  {
    if name in s.gens then s else Store(s.names + [name], s.gens[name := map[]])
  }

  /** `cache.put(url, resp)` on generation `name`: replaces what it held for `url`. */
  function Put(s: Store, name: string, url: string, resp: Response): (r: Store)
    requires s.Valid() && name in s.gens
    ensures r.Valid() && r.names == s.names && r.gens.Keys == s.gens.Keys
    ensures forall n, u :: Entry(r.gens, n, u) == if n == name && u == url then Some(resp) else Entry(s.gens, n, u)
  {
    Store(s.names, s.gens[name := s.gens[name][url := resp]])
  }

  /** A batch of `cache.put`s on generation `name`; the batch wins over older entries. */
  function PutAll(s: Store, name: string, batch: Generation): (r: Store)
    requires s.Valid() && name in s.gens
    ensures r.Valid() && r.names == s.names && r.gens.Keys == s.gens.Keys
    ensures forall n, u :: Entry(r.gens, n, u) == if n == name && u in batch then Some(batch[u]) else Entry(s.gens, n, u)
  {
    Store(s.names, s.gens[name := s.gens[name] + batch])
  }

  /** `caches.delete(name)`: the generation is gone, from the names and the contents. */
  function Delete(s: Store, name: string): (r: Store)
    requires s.Valid()
    ensures r.Valid() && name !in r.gens && r.gens.Keys == s.gens.Keys - {name}
    ensures forall n, u :: Entry(r.gens, n, u) == if n == name then None else Entry(s.gens, n, u)
  {
    WithoutDistinct(s.names, name);
    Store(Without(s.names, name), s.gens - {name})
  }

  /** The first generation in `names` that holds `url` answers. */
  function MatchIn(names: seq<string>, gens: map<string, Generation>, url: string): (r: Option<Response>)
    ensures r.None? <==> forall n :: n in names ==> Entry(gens, n, url).None?
    ensures r.Some? ==> exists n :: n in names && Entry(gens, n, url) == r
  {
    if names == [] then None
    else if Entry(gens, names[0], url).Some? then Entry(gens, names[0], url)
    else MatchIn(names[1..], gens, url)
  }

  /** `caches.match(url)`: the response of the oldest generation that holds `url`, if any. */
  function Match(s: Store, url: string): Option<Response>
  {
    MatchIn(s.names, s.gens, url)
  }

  /** What remains after every generation whose name is not in `keep` is deleted. */
  function Evict(s: Store, keep: seq<string>): (r: Store)
    requires s.Valid()
    ensures r.Valid() && r.gens.Keys == s.gens.Keys * (set n | n in keep)
    ensures forall n, u :: Entry(r.gens, n, u) == if n in keep then Entry(s.gens, n, u) else None
  {
    KeepDistinct(s.names, keep);
    Store(Keep(s.names, keep), map n | n in s.gens && n in keep :: s.gens[n])
  }

  /** A generation that does not hold `url`, appended last, changes no match. */
  lemma {:induction false} MatchInAppendMiss(names: seq<string>, gens: map<string, Generation>, n: string, url: string)
    requires Entry(gens, n, url).None?
    ensures MatchIn(names + [n], gens, url) == MatchIn(names, gens, url)
  {
    if names != [] {
      assert (names + [n])[1..] == names[1..] + [n];
      MatchInAppendMiss(names[1..], gens, n, url);
    }
  }

  /** Generations that agree on `url` give the same match. */
  lemma {:induction false} MatchInAgree(names: seq<string>, g1: map<string, Generation>, g2: map<string, Generation>, url: string)
    requires forall n :: n in names ==> Entry(g1, n, url) == Entry(g2, n, url)
    ensures MatchIn(names, g1, url) == MatchIn(names, g2, url)
  {
    if names != [] {
      MatchInAgree(names[1..], g1, g2, url);
    }
  }

  /** When only generation `name` holds `url`, the match is its entry. */
  lemma {:induction false} MatchInOnly(names: seq<string>, gens: map<string, Generation>, name: string, url: string)
    requires name in names
    requires forall n :: n in names && n != name ==> Entry(gens, n, url).None?
    ensures MatchIn(names, gens, url) == Entry(gens, name, url)
  {
    if names[0] != name {
      MatchInOnly(names[1..], gens, name, url);
    }
  }

  /** The match is the entry of the first generation, in creation order, holding `url`. */
  lemma {:induction false} MatchIsFirst(names: seq<string>, gens: map<string, Generation>, url: string)
    requires MatchIn(names, gens, url).Some?
    ensures exists i :: (0 <= i < |names| && Entry(gens, names[i], url) == MatchIn(names, gens, url)
                         && forall j :: 0 <= j < i ==> Entry(gens, names[j], url).None?)
  {
    if Entry(gens, names[0], url).None? {
      var t := names[1..];
      MatchIsFirst(t, gens, url);
      var i :| (0 <= i < |t| && Entry(gens, t[i], url) == MatchIn(t, gens, url)
                && forall j :: 0 <= j < i ==> Entry(gens, t[j], url).None?);
      assert names[i + 1] == t[i];
      forall j | 0 <= j < i + 1 ensures Entry(gens, names[j], url).None? {
        if j > 0 { assert names[j] == t[j - 1]; }
      }
    }
  }

  /** Opening a generation never changes what `caches.match` answers. */
  lemma MatchAfterOpen(s: Store, name: string, url: string)
    requires s.Valid()
    ensures Match(Open(s, name), url) == Match(s, url)
  {
    var r := Open(s, name);
    if name !in s.gens {
      MatchInAgree(s.names, r.gens, s.gens, url);
      MatchInAppendMiss(s.names, r.gens, name, url);
    }
  }

  /** After a put of `url` into a store that held it nowhere, matching `url` finds the new response. */
  lemma MatchAfterPutMiss(s: Store, name: string, url: string, resp: Response)
    requires s.Valid() && name in s.gens
    requires Match(s, url).None?
    ensures Match(Put(s, name, url, resp), url) == Some(resp)
  {
    MatchInOnly(s.names, Put(s, name, url, resp).gens, name, url);
  }

  /** A put of `url` changes no match for any other URL. */
  lemma MatchAfterPutOther(s: Store, name: string, url: string, resp: Response, other: string)
    requires s.Valid() && name in s.gens && other != url
    ensures Match(Put(s, name, url, resp), other) == Match(s, other)
  {
    MatchInAgree(s.names, Put(s, name, url, resp).gens, s.gens, other);
  }

  /** Keeping a single name of a list of distinct names leaves that name, or nothing. */
  lemma {:induction false} KeepSingle(ns: seq<string>, name: string)
    requires Distinct(ns)
    ensures Keep(ns, [name]) == if name in ns then [name] else []
  {
    if ns != [] {
      DistinctTail(ns);
      KeepSingle(ns[1..], name);
    }
  }

  /** Keeping twice keeps what keeping once keeps. */
  lemma {:induction false} KeepIdempotent(ns: seq<string>, keep: seq<string>)
    ensures Keep(Keep(ns, keep), keep) == Keep(ns, keep)
  {
    if ns != [] {
      KeepIdempotent(ns[1..], keep);
      if ns[0] in keep {
        assert ([ns[0]] + Keep(ns[1..], keep))[1..] == Keep(ns[1..], keep);
      }
    }
  }

  /** Evicting twice evicts what evicting once evicts. */
  lemma EvictIdempotent(s: Store, keep: seq<string>)
    requires s.Valid()
    ensures Evict(Evict(s, keep), keep) == Evict(s, keep)
  {
    KeepIdempotent(s.names, keep);
    var once := Evict(s, keep);
    assert Evict(once, keep).gens == once.gens;
  }

  /** Evicting all but `name` leaves at most that one generation, with its contents intact. */
  lemma EvictAllBut(s: Store, name: string)
    requires s.Valid()
    ensures Evict(s, [name]).names == if name in s.gens then [name] else []
    ensures name in s.gens ==> Evict(s, [name]).gens == map[name := s.gens[name]]
    ensures name !in s.gens ==> Evict(s, [name]).gens == map[]
  {
    KeepSingle(s.names, name);
  }

  /** After evicting all but `name`, `caches.match` answers from generation `name` alone. */
  lemma MatchAfterEvictAllBut(s: Store, name: string, url: string)
    requires s.Valid()
    ensures Match(Evict(s, [name]), url) == Entry(s.gens, name, url)
  {
    EvictAllBut(s, name);
  }

  /** Removing a name from a concatenation removes it from both parts. */
  lemma {:induction false} WithoutAppend(a: seq<string>, b: seq<string>, x: string)
    ensures Without(a + b, x) == Without(a, x) + Without(b, x)
  {
    if a != [] {
      assert (a + b)[1..] == a[1..] + b;
      WithoutAppend(a[1..], b, x);
    } else {
      assert a + b == b;
    }
  }

  /** Removing a name that does not occur changes nothing. */
  lemma {:induction false} WithoutAbsent(a: seq<string>, x: string)
    requires x !in a
    ensures Without(a, x) == a
  {
    if a != [] {
      WithoutAbsent(a[1..], x);
    }
  }

  /** Keeping from a concatenation keeps from both parts. */
  lemma {:induction false} KeepAppend(a: seq<string>, b: seq<string>, keep: seq<string>)
    ensures Keep(a + b, keep) == Keep(a, keep) + Keep(b, keep)
  {
    if a != [] {
      assert (a + b)[1..] == a[1..] + b;
      KeepAppend(a[1..], b, keep);
    } else {
      assert a + b == b;
    }
  }

  /** Removing a name that occurs once, between two parts, leaves the two parts. */
  lemma WithoutStep(kept: seq<string>, x: string, rest: seq<string>)
    requires x !in kept && x !in rest
    ensures Without(kept + ([x] + rest), x) == kept + rest
  {
    WithoutAppend(kept, [x] + rest, x);
    WithoutAppend([x], rest, x);
    WithoutAbsent(rest, x);
    WithoutAbsent(kept, x);
    assert Without([x], x) == [];
  }

  /** Keeping from a list extended by one name. */
  lemma KeepStep(done: seq<string>, x: string, keep: seq<string>)
    ensures Keep(done + [x], keep) == Keep(done, keep) + (if x in keep then [x] else [])
  {
    KeepAppend(done, [x], keep);
    assert Keep([x], keep) == (if x in keep then [x] else []);
  }

  /** In a list of distinct names, the name at `i` occurs neither before nor after `i`. */
  lemma DistinctAt(ks: seq<string>, i: nat)
    requires Distinct(ks) && i < |ks|
    ensures ks[i] !in ks[..i] && ks[i] !in ks[i + 1..]
  {
    forall k | 0 <= k < i ensures ks[..i][k] != ks[i] {
      assert ks[..i][k] == ks[k];
    }
    var rest := ks[i + 1..];
    forall k | 0 <= k < |rest| ensures rest[k] != ks[i] {
      assert rest[k] == ks[i + 1 + k];
    }
  }
}
