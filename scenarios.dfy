/**
 * Clients of the worker that walk through its life: what a caller can
 * conclude from the handlers' contracts alone.
 */
module Scenarios {
  import opened Wrappers
  import opened Http
  import opened CacheStore
  import opened ServiceWorker
  import opened Hooks
  import opened Urls

  const Origin: string := "https://bible.example"

  /** A network on which every URL answers 200 with its own URL as body. */
  function Online(url: string): FetchOutcome
  {
    Fetched(Response(200, url))
  }

  /** A network that rejects every fetch. */
  function Offline(url: string): FetchOutcome
  {
    NetworkError
  }

  /** A network on which every URL answers with a partial response (206). */
  function Partial(url: string): FetchOutcome
  {
    Fetched(Response(206, url))
  }

  /** Install and activate online: every shell URL is then answered from the cache. */
  method InstallAndActivateOnline()
  {
    var w := new Worker(Origin, Empty);
    w.OnInstall(Online);
    assert w.skipWaiting && w.fetches == |AppShellUrls|;
    w.OnActivate();
    assert w.caches.names == [CacheName] && w.clientsClaimed;
    InstalledShellIsServed(Empty, Origin, Online);
    assert "/index.html" in AppShellUrls;
    assert Match(w.caches, Origin + FallbackPath) == Some(Response(200, Origin + "/index.html"));
  }

  /** A store whose current generation holds only the shell page. */
  const ShellOnly: Store := Store([CacheName], map[CacheName := map[Origin + FallbackPath := Response(200, "SHELL")]])

  /** Matching in `ShellOnly`: the shell page is there, `/psalm` is not. */
  lemma ShellOnlyMatches()
    ensures ShellOnly.Valid()
    ensures Match(ShellOnly, Origin + FallbackPath) == Some(Response(200, "SHELL"))
    ensures Match(ShellOnly, Origin + "/psalm") == None
  {
    assert |Origin + "/psalm"| != |Origin + FallbackPath|;
  }

  /** Offline, a navigation to a page that was never cached is answered with the cached shell page. */
  method OfflineNavigationGetsShell()
  {
    ShellOnlyMatches();
    var w := new Worker(Origin, ShellOnly);
    var page := Request("GET", Origin + "/psalm", Navigate);
    PathOnOrigin(Origin, "/psalm");
    var reply := w.OnFetch(page, NetworkError, Stored);
    assert reply == Respond(Some(Response(200, "SHELL")));
  }

  /** An earlier generation is deleted on activate even when seeding failed completely. */
  method StaleGenerationEvictedAfterFailedSeed()
  {
    var earlier := Store(["bible-app-cache-v3"], map["bible-app-cache-v3" := map[Origin + "/a" := Response(200, "A")]]);
    var w := new Worker(Origin, earlier);
    assert Match(w.caches, Origin + "/a") == Some(Response(200, "A"));
    w.OnInstall(Offline);
    assert !Admissible(Offline(Origin + "/"));
    SeedFailureWritesNothing(earlier, Origin, Offline);
    assert w.skipWaiting;
    w.OnActivate();
    assert w.caches.names == [CacheName];
    MatchAfterEvictAllBut(Seed(earlier, Origin, Offline), CacheName, Origin + "/a");
    assert Match(w.caches, Origin + "/a") == None;

    // offline, a request that is not a navigation fails
    PathOnOrigin(Origin, "/a");
    var reply := w.OnFetch(Request("GET", Origin + "/a", Cors), NetworkError, Stored);
    assert reply == Reject;
  }

  /** A 200 on a miss is returned and cached; a 404 is returned and not cached. */
  method AdmissionIsStatus200Only()
  {
    var w := new Worker(Origin, Empty);
    var b := Request("GET", Origin + "/b", Cors);
    PathOnOrigin(Origin, "/b");
    var reply := w.OnFetch(b, Fetched(Response(200, "X")), Stored);
    assert reply == Respond(Some(Response(200, "X")));
    assert Match(w.caches, Origin + "/b") == Some(Response(200, "X"));

    var c := Request("GET", Origin + "/c", Cors);
    PathOnOrigin(Origin, "/c");
    assert (Origin + "/b")[|Origin| + 1] != (Origin + "/c")[|Origin| + 1];
    MatchAfterPutOther(Open(Empty, CacheName), CacheName, Origin + "/b", Response(200, "X"), Origin + "/c");
    MatchAfterOpen(Empty, CacheName, Origin + "/c");
    var before := w.caches;
    reply := w.OnFetch(c, Fetched(Response(404, "missing")), Stored);
    assert reply == Respond(Some(Response(404, "missing")));
    assert w.caches == before;

    // a POST is never answered by the worker
    reply := w.OnFetch(Request("POST", Origin + "/b", Cors), NetworkError, Stored);
    assert reply == Passthrough && w.caches == before;
  }

  /** A partial response is ok but `addAll` rejects it, so install seeds nothing. */
  method PartialShellNotSeeded()
  {
    var w := new Worker(Origin, Empty);
    w.OnInstall(Partial);
    assert Ok(Response(206, Origin + "/")) && !Admissible(Partial(Origin + "/"));
    SeedFailureWritesNothing(Empty, Origin, Partial);
    assert w.caches.names == [CacheName] && w.skipWaiting;
    assert Match(w.caches, Origin + "/").None?;
  }

  /** When `cache.put` rejects, the generation opened for the write exists but holds nothing. */
  method FailedPutLeavesOpenedGeneration()
  {
    var w := new Worker(Origin, Empty);
    PathOnOrigin(Origin, "/b");
    var reply := w.OnFetch(Request("GET", Origin + "/b", Cors), Fetched(Response(200, "X")), PutFailed);
    assert reply == Respond(Some(Response(200, "X")));
    assert w.caches.names == [CacheName] && Match(w.caches, Origin + "/b").None?;
  }

  /** A push with a payload, and clicks on its two buttons. */
  method PushThenClick()
  {
    var n := PushNotification(Some("Hello"));
    assert n.body == "Hello" && n.actions[0].action == "explore" && n.actions[1].action == "close";
    ClickOnPushButtons(Some("Hello"));
    assert NotificationClick(n.actions[0].action).opensWindow == Some("/");
    assert NotificationClick(n.actions[1].action).opensWindow == None;
  }
}
