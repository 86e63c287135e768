/**
 * The caching agent: its constants, the `install`, `fetch` and `activate`
 * handlers as methods of one worker object that owns the origin's cache
 * storage, and what `cache.addAll` does when install seeds the app shell.
 */
module ServiceWorker {
  import opened Wrappers
  import opened Http
  import opened Urls
  import opened CacheStore
  import Classifier

  /** The current cache generation. */
  const CacheName: string := "bible-app-cache-v4"

  /** The app shell, as paths relative to the worker's origin. */
  const AppShellUrls: seq<string> := [
    "/",
    "/index.html",
    "/manifest.json",
    "/index.tsx",
    "/App.tsx",
    "/assets/icon-192.png",
    "/assets/icon-512.png"
  ]

  /** The generations `activate` keeps. */
  const Whitelist: seq<string> := [CacheName]

  /** The shell page served to a navigation the network could not answer. */
  const FallbackPath: string := "/index.html"

  /** How the fetch handler settles a request. */
  datatype FetchReply =
    | Passthrough                      // no `respondWith`: the browser handles the request itself
    | Respond(response: Option<Response>)  // `respondWith` a response, or with `undefined`
    | Reject                           // `respondWith` a promise that rejects

  /** A network outcome that `cache.addAll` accepts: a response whose `ok` is true and that is not partial (206). */
  predicate Admissible(o: FetchOutcome)
  {
    o.Fetched? && Ok(o.response) && o.response.status != 206
  }

  /** How the asynchronous write-back of the fetch handler ends. */
  datatype WriteBack =
    | Stored      // `caches.open` and `cache.put` both succeed
    | PutFailed   // `caches.open` succeeds, `cache.put` rejects
    | OpenFailed  // `caches.open` rejects

  /**
   * `cache.addAll(paths)`, with `net` answering each fetch: the batch of
   * responses keyed by absolute URL when every fetch is admissible, None
   * when any is not (the promise rejects and nothing is written).
   */
  function ShellBatch(origin: string, paths: seq<string>, net: string -> FetchOutcome): Option<Generation>
    decreases |paths|
  {
    if paths == [] then Some(map[])
    else
      var last := origin + paths[|paths| - 1];
      match ShellBatch(origin, paths[..|paths| - 1], net)
      case None => None
      case Some(batch) => if Admissible(net(last)) then Some(batch[last := net(last).response]) else None
  }

  /** `cache.addAll` is all or nothing, and on success holds every path's response. */
  lemma {:induction false} ShellBatchAllOrNothing(origin: string, paths: seq<string>, net: string -> FetchOutcome)
    ensures ShellBatch(origin, paths, net).Some? <==> forall p :: p in paths ==> Admissible(net(origin + p))
    ensures ShellBatch(origin, paths, net).Some? ==>
      var batch := ShellBatch(origin, paths, net).value;
      && batch.Keys == (set p | p in paths :: origin + p)
      && forall p :: p in paths ==> batch[origin + p] == net(origin + p).response
    decreases |paths|
  {
    if paths != [] {
      var init, lastPath := paths[..|paths| - 1], paths[|paths| - 1];
      assert paths == init + [lastPath];
      assert forall p :: p in paths <==> p in init || p == lastPath;
      ShellBatchAllOrNothing(origin, init, net);
    }
  }

  /** The store `install` leaves: generation `CacheName` open, holding the shell when `addAll` succeeds. */
  function Seed(s: Store, origin: string, net: string -> FetchOutcome): (r: Store)
    requires s.Valid()
    ensures r.Valid() && CacheName in r.gens
  {
    var withCache := Open(s, CacheName);
    match ShellBatch(origin, AppShellUrls, net)
    case Some(batch) => PutAll(withCache, CacheName, batch)
    case None => withCache
  }

  /** When every shell fetch succeeds, `CacheName` holds each shell URL with its response. */
  lemma SeedStoresShell(s: Store, origin: string, net: string -> FetchOutcome)
    requires s.Valid()
    requires forall p :: p in AppShellUrls ==> Admissible(net(origin + p))
    ensures forall p :: p in AppShellUrls ==>
      Admissible(net(origin + p)) && Entry(Seed(s, origin, net).gens, CacheName, origin + p) == Some(net(origin + p).response)
  {
    ShellBatchAllOrNothing(origin, AppShellUrls, net);
  }

  /** When any shell fetch fails, install writes nothing: every entry of every generation is as before. */
  lemma SeedFailureWritesNothing(s: Store, origin: string, net: string -> FetchOutcome)
    requires s.Valid()
    requires exists p :: p in AppShellUrls && !Admissible(net(origin + p))
    ensures forall n, u :: Entry(Seed(s, origin, net).gens, n, u) == Entry(s.gens, n, u)
    ensures CacheName in s.gens ==> Seed(s, origin, net) == s
  {
    ShellBatchAllOrNothing(origin, AppShellUrls, net);
  }

  /** Install touches no generation but `CacheName`. */
  lemma SeedKeepsOtherGenerations(s: Store, origin: string, net: string -> FetchOutcome)
    requires s.Valid()
    ensures forall n, u :: n != CacheName ==> Entry(Seed(s, origin, net).gens, n, u) == Entry(s.gens, n, u)
  {
  }

  /** A response admitted on a miss is what the next `caches.match` of that URL answers; nothing else changes. */
  lemma AdmittedResponseServedNext(s: Store, url: string, resp: Response)
    requires s.Valid() && Match(s, url).None?
    ensures var r := Put(Open(s, CacheName), CacheName, url, resp);
      && Match(r, url) == Some(resp)
      && Entry(r.gens, CacheName, url) == Some(resp)
      && forall n, u :: n != CacheName || u != url ==> Entry(r.gens, n, u) == Entry(s.gens, n, u)
  {
    MatchAfterOpen(s, CacheName, url);
    MatchAfterPutMiss(Open(s, CacheName), CacheName, url, resp);
  }

  /** After activate only `CacheName` can remain, with the entries it had. */
  lemma ActivateKeepsOnlyCurrent(s: Store)
    requires s.Valid()
    ensures Evict(s, Whitelist).names == if CacheName in s.gens then [CacheName] else []
    ensures CacheName in s.gens ==> Evict(s, Whitelist).gens == map[CacheName := s.gens[CacheName]]
    ensures CacheName !in s.gens ==> Evict(s, Whitelist).gens == map[]
  {
    EvictAllBut(s, CacheName);
  }

  /** Activating a second time deletes nothing more. */
  lemma ActivateIdempotent(s: Store)
    requires s.Valid()
    ensures Evict(Evict(s, Whitelist), Whitelist) == Evict(s, Whitelist)
  {
    EvictIdempotent(s, Whitelist);
  }

  /**
   * Install followed by activate: when every shell fetch succeeded, each
   * shell URL is answered from the cache with the response fetched for it,
   * whatever generations existed before.
   */
  lemma InstalledShellIsServed(s: Store, origin: string, net: string -> FetchOutcome)
    requires s.Valid()
    requires forall p :: p in AppShellUrls ==> Admissible(net(origin + p))
    ensures forall p :: p in AppShellUrls ==>
      Admissible(net(origin + p)) && Match(Evict(Seed(s, origin, net), Whitelist), origin + p) == Some(net(origin + p).response)
  {
    SeedStoresShell(s, origin, net);
    forall p | p in AppShellUrls
      ensures Match(Evict(Seed(s, origin, net), Whitelist), origin + p) == Some(net(origin + p).response)
    {
      MatchAfterEvictAllBut(Seed(s, origin, net), CacheName, origin + p);
    }
  }

  /** The worker: its origin, the origin's cache storage, and the effects the lifecycle records. */
  class Worker {
    /** `self.location.origin` */
    const origin: string
    /** The generations in `caches` */
    var caches: Store
    /** Whether `self.skipWaiting()` has been called */
    var skipWaiting: bool
    /** Whether `self.clients.claim()` has been called */
    var clientsClaimed: bool
    /** How many network fetches the worker has issued */
    var fetches: nat

    ghost predicate Valid()
      reads this
    {
      caches.Valid()
    }

    /** A freshly started worker over whatever generations earlier versions left. */
    constructor (origin: string, existing: Store)
      requires existing.Valid()
      ensures Valid()
      ensures this.origin == origin && caches == existing
      ensures !skipWaiting && !clientsClaimed && fetches == 0
    {
      this.origin := origin;
      caches := existing;
      skipWaiting := false;
      clientsClaimed := false;
      fetches := 0;
    }

    /**
     * `install`: open `CacheName` and seed it with the app shell; a failed
     * `addAll` is swallowed, and skip-waiting is requested either way.
     */
    method OnInstall(net: string -> FetchOutcome)
      requires Valid()
      modifies this`caches, this`fetches, this`skipWaiting
      ensures Valid() && skipWaiting
      ensures caches == Seed(old(caches), origin, net)
      ensures fetches == old(fetches) + |AppShellUrls|
      ensures (forall p :: p in AppShellUrls ==> Admissible(net(origin + p))) ==>
        forall p :: p in AppShellUrls ==> Entry(caches.gens, CacheName, origin + p) == Some(net(origin + p).response)
    {
      caches := Open(caches, CacheName);
      fetches := fetches + |AppShellUrls|;
      var batch := ShellBatch(origin, AppShellUrls, net);
      if batch.Some? {
        caches := PutAll(caches, CacheName, batch.value);
      }
      skipWaiting := true;
      if forall p :: p in AppShellUrls ==> Admissible(net(origin + p)) {
        SeedStoresShell(old(caches), origin, net);
      }
    }

    /**
     * `fetch`: cache first, then the network (whose outcome is `net`).  A
     * status-200 response is written back into `CacheName`, as far as
     * `write` says the asynchronous open-and-put gets; a failed navigation
     * falls back to the cached shell page.
     */
    method OnFetch(req: Request, net: FetchOutcome, write: WriteBack) returns (reply: FetchReply)
      requires Valid()
      modifies this`caches, this`fetches
      ensures Valid()
      ensures !Classifier.InterceptedAsWritten(req, origin) ==>
        reply == Passthrough && caches == old(caches) && fetches == old(fetches)
      ensures Classifier.InterceptedAsWritten(req, origin) && Match(old(caches), req.url).Some? ==>
        reply == Respond(Match(old(caches), req.url)) && caches == old(caches) && fetches == old(fetches)
      ensures Classifier.InterceptedAsWritten(req, origin) && Match(old(caches), req.url).None? ==>
        && fetches == old(fetches) + 1
        && match net
           case Fetched(resp) =>
             && reply == Respond(Some(resp))
             && caches == (if resp.status != 200 then old(caches)
                           else match write
                                case Stored => Put(Open(old(caches), CacheName), CacheName, req.url, resp)
                                case PutFailed => Open(old(caches), CacheName)
                                case OpenFailed => old(caches))
             && (resp.status == 200 && write == Stored ==> Match(caches, req.url) == Some(resp))
             && (resp.status != 200 || write != Stored ==> Match(caches, req.url).None?)
           case NetworkError =>
             && caches == old(caches)
             && reply == (if req.mode == Navigate then Respond(Match(old(caches), origin + FallbackPath)) else Reject)
    {
      if req.httpMethod != "GET" {
        return Passthrough;
      }
      if !StartsWith(req.url, origin) {
        return Passthrough;
      }
      var cached := Match(caches, req.url);
      if cached.Some? {
        return Respond(cached);
      }
      fetches := fetches + 1;
      match net
      case Fetched(resp) =>
        if resp.status != 200 {
          return Respond(Some(resp));
        }
        if write != OpenFailed {
          MatchAfterOpen(caches, CacheName, req.url);
          AdmittedResponseServedNext(caches, req.url, resp);
          var withCache := Open(caches, CacheName);
          caches := if write == Stored then Put(withCache, CacheName, req.url, resp) else withCache;
        }
        return Respond(Some(resp));
      case NetworkError =>
        if req.mode == Navigate {
          return Respond(Match(caches, origin + FallbackPath));
        }
        return Reject;
    }

    /** `activate`: delete every generation not in the whitelist, then claim the clients. */
    method OnActivate()
      requires Valid()
      modifies this`caches, this`clientsClaimed
      ensures Valid() && clientsClaimed
      ensures caches == Evict(old(caches), Whitelist)
      ensures caches.names == if CacheName in old(caches.gens) then [CacheName] else []
      ensures CacheName in old(caches.gens) ==> caches.gens == map[CacheName := old(caches.gens[CacheName])]
    {
      ActivateKeepsOnlyCurrent(caches);
      caches := DeleteStale(caches, Whitelist);
      clientsClaimed := true;
    }
  }

  /** The activate loop: every generation whose name is not in `keep` deleted, one at a time. */
  method DeleteStale(s: Store, keep: seq<string>) returns (r: Store)
    requires s.Valid()
    ensures r == Evict(s, keep)
  {
    var cacheNames := s.names;
    r := s;
    var i := 0;
    EvictingStart(s, keep);
    while i < |cacheNames|
      invariant 0 <= i <= |cacheNames|
      invariant Evicting(s, keep, i, r)
    {
      var name := cacheNames[i];
      if name in keep {
        EvictingSkip(s, keep, i, r);
      } else {
        EvictingDelete(s, keep, i, r);
        r := Delete(r, name);
      }
      i := i + 1;
    }
    EvictingDone(s, keep, r);
  }

  /**
   * The activate loop after its first `i` names of `s0`: those not in `keep`
   * are deleted from `cur`, the others and the rest are as in `s0`.  Which
   * generations exist follows from the names, since `cur` is valid.
   */
  ghost predicate Evicting(s0: Store, keep: seq<string>, i: nat, cur: Store)
  {
    && s0.Valid() && cur.Valid() && i <= |s0.names|
    && cur.names == Keep(s0.names[..i], keep) + s0.names[i..]
    && (forall n :: n in cur.gens ==> cur.gens[n] == s0.gens[n])
  }

  /** Before the first name nothing is deleted. */
  lemma EvictingStart(s0: Store, keep: seq<string>)
    requires s0.Valid()
    ensures Evicting(s0, keep, 0, s0)
  {
    assert s0.names[..0] == [] && s0.names[0..] == s0.names;
  }

  /** Skipping the next name when it is kept advances the loop. */
  lemma EvictingSkip(s0: Store, keep: seq<string>, i: nat, cur: Store)
    requires Evicting(s0, keep, i, cur) && i < |s0.names| && s0.names[i] in keep
    ensures Evicting(s0, keep, i + 1, cur)
  {
    ActivateSkipStep(s0.names, i, keep);
  }

  /** Deleting the next name when it is not kept advances the loop. */
  lemma EvictingDelete(s0: Store, keep: seq<string>, i: nat, cur: Store)
    requires Evicting(s0, keep, i, cur) && i < |s0.names| && s0.names[i] !in keep
    ensures Evicting(s0, keep, i + 1, Delete(cur, s0.names[i]))
  {
    ActivateDeleteStep(s0.names, i, keep);
  }

  /** After the last name the loop has computed `Evict`. */
  lemma EvictingDone(s0: Store, keep: seq<string>, cur: Store)
    requires Evicting(s0, keep, |s0.names|, cur)
    ensures cur == Evict(s0, keep)
  {
    assert s0.names[..|s0.names|] == s0.names;
    assert cur.gens == Evict(s0, keep).gens;
  }

  /** A kept name moves from the unvisited part to the kept part unchanged. */
  lemma ActivateSkipStep(ks: seq<string>, i: nat, keep: seq<string>)
    requires i < |ks| && ks[i] in keep
    ensures Keep(ks[..i], keep) + ks[i..] == Keep(ks[..i + 1], keep) + ks[i + 1..]
  {
    assert ks[..i + 1] == ks[..i] + [ks[i]];
    assert ks[i..] == [ks[i]] + ks[i + 1..];
    KeepStep(ks[..i], ks[i], keep);
  }

  /** Deleting a name that is not kept removes it from the unvisited part. */
  lemma ActivateDeleteStep(ks: seq<string>, i: nat, keep: seq<string>)
    requires Distinct(ks) && i < |ks| && ks[i] !in keep
    ensures Without(Keep(ks[..i], keep) + ks[i..], ks[i]) == Keep(ks[..i + 1], keep) + ks[i + 1..]
  {
    var x, done, rest := ks[i], ks[..i], ks[i + 1..];
    assert ks[..i + 1] == done + [x];
    assert ks[i..] == [x] + rest;
    KeepStep(done, x, keep);
    DistinctAt(ks, i);
    WithoutStep(Keep(done, keep), x, rest);
  }
}
