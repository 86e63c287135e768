# Offline caching agent of the Bible reader app

A verified Dafny model of the app's service worker (`service-worker.js`).
The worker seeds an app-shell cache generation on `install`. It answers
GET requests whose URL starts with its origin cache-first on `fetch`, writing status-200 network
responses back into the current generation and falling back to the cached
`/index.html` for navigations it cannot reach. On `activate` it deletes every
generation but the current one. It also handles a few background events:
sync and periodic-sync tag dispatch, the periodic update check, the push
notification and the notification click.

Modules, one per file:

- `Wrappers` (`wrappers.dfy`): `Option`.
- `Http` (`http.dfy`): requests with method, URL and mode, and responses with
  a status. `FetchOutcome` is what the network returns: a response, or a
  rejected fetch.
- `Urls` (`urls.dfy`): JavaScript's `startsWith` on strings, and the origin of
  a serialized URL.
- `Classifier` (`classifier.dfy`): the two guards at the top of the fetch
  handler, as written and as intended.
- `CacheStore` (`cache_store.dfy`): the browser's `CacheStorage` as a value.
  It holds the generation names in creation order (the order `caches.match`
  searches) and a map from each name to a generation (URL → response). It has
  `open`, `put`, `delete` and `match`, plus `Evict`, the specification of what
  `activate` leaves.
- `ServiceWorker` (`service_worker.dfy`): the constants, `cache.addAll`
  (`ShellBatch`), and the `Worker` class. The class holds the origin, the
  cache storage, the skip-waiting and clients-claimed flags, and a counter of
  network fetches. Its `OnInstall`, `OnFetch` and `OnActivate` methods update
  that state in place. The activate loop over `caches.keys()` is the method
  `DeleteStale`, proved against `Evict`.
- `Hooks` (`hooks.dfy`): the background hooks, as pure decisions over each
  event's data.
- `Scenarios` (`scenarios.dfy`): client methods that run the worker through
  its lifecycle using only the handlers' contracts.

The network, and whether the asynchronous write-back succeeds, are inputs:
- `OnInstall` takes a function from URL to `FetchOutcome`.
- `OnFetch` takes the outcome of its one fetch, and a `WriteBack` saying how
  far the write-back gets: stored, `cache.put` rejected after `caches.open`
  created the generation, or `caches.open` rejected.
- The periodic update check takes an `UpdateCheck`: a rejected fetch, or a
  response with its body decoded as JSON (or not).

Paths are relative to the origin and resolve to `origin + path`.

Where the code and its prose description differ, the model follows the code:
- The fetch handler intercepts a GET whenever its URL string starts with the
  origin string, as `startsWith` does, even for another host (see Findings).
- Write-back admits exactly status 200. On install, `cache.addAll` accepts
  an `ok` (2xx) response unless it is a partial response (206).
- The navigation fallback is `/index.html`.
- The push buttons are `explore` and `close`.
- A click on `explore` opens `/`.

## Model

| member | source | states |
|---|---|---|
| Urls.StartsWithIsPrefix | service-worker.js:41 | `startsWith` holds exactly when the prefix is no longer than the string and equals the string's leading slice |
| Urls.NextDelimiter | service-worker.js:41 | the end of a URL's authority part: the first `/`, `?` or `#` at or after a position, or the end of the string |
| Urls.HasOriginIsOriginOf | service-worker.js:40-43 | for a real origin, the corrected guard (starts with the origin, and the authority ends there) holds exactly of the URLs whose origin it is |
| Urls.PathOnOrigin | service-worker.js:40-43 | an origin followed by a path, query or fragment is a URL on that origin |
| Urls.OriginAt | service-worker.js:41 | a URL with a scheme, `//` and an authority ending at a given index has that prefix as its origin |
| Urls.StartsWithAdmitsForeignHost | service-worker.js:41 | `"http://ab/"` starts with the origin `"http://a"`, yet its origin is `"http://ab"` |
| Classifier.InterceptedIsSameOriginGet | service-worker.js:35-43 | a request is intercepted exactly when it is a GET whose URL has the worker's origin; every intercepted request also passes the guards as written |
| Classifier.AsWrittenInterceptsForeignHost | service-worker.js:41 | the guards as written intercept a GET to another host whose name extends the origin's; the corrected guards do not |
| CacheStore.Open | service-worker.js:18 | after `caches.open(name)` the generation exists; when it was absent it is appended last and empty; no entry of any generation changes |
| CacheStore.Put | service-worker.js:69 | `cache.put` changes exactly the entry for its URL in its generation; names and generation set are unchanged |
| CacheStore.PutAll | service-worker.js:21 | a successful `addAll` batch overrides the generation's entries for the batch's URLs and changes nothing else |
| CacheStore.Delete | service-worker.js:168 | `caches.delete(name)` removes the generation from the names and the contents; every other entry is unchanged |
| CacheStore.MatchIn | service-worker.js:46 | `caches.match` answers None exactly when no generation holds the URL, and otherwise answers some generation's entry for it |
| CacheStore.MatchIsFirst | service-worker.js:46 | the answer of `caches.match` is the entry of the first generation, in creation order, that holds the URL |
| CacheStore.Evict | service-worker.js:163-171 | what activate leaves: exactly the generations whose names are kept, with their entries intact, the others gone |
| CacheStore.MatchInAppendMiss | service-worker.js:46 | a generation that does not hold the URL, created last, changes no match |
| CacheStore.MatchInAgree | service-worker.js:46 | stores that agree on a URL in every generation answer the same match for it |
| CacheStore.MatchInOnly | service-worker.js:46 | when only one generation holds a URL, the match is that generation's entry |
| CacheStore.MatchAfterOpen | service-worker.js:18 | opening a generation never changes what `caches.match` answers |
| CacheStore.MatchAfterPutMiss | service-worker.js:67-70 | after a put of a URL no generation held, matching that URL answers the new response |
| CacheStore.MatchAfterPutOther | service-worker.js:67-70 | a put of one URL changes no match for any other URL |
| CacheStore.KeepSingle | service-worker.js:161-166 | filtering distinct names against a one-name whitelist leaves that name when present and nothing else |
| CacheStore.KeepIdempotent | service-worker.js:166 | filtering twice by the whitelist leaves what filtering once leaves |
| CacheStore.EvictIdempotent | service-worker.js:163-171 | evicting twice evicts what evicting once evicts |
| CacheStore.EvictAllBut | service-worker.js:161-171 | evicting all but one name leaves only that generation when it existed, with its contents unchanged, or an empty store |
| CacheStore.MatchAfterEvictAllBut | service-worker.js:161-171 | after evicting all but one generation, `caches.match` answers from that generation alone |
| CacheStore.WithoutDistinct | service-worker.js:168 | deleting a name keeps the list of generation names free of duplicates |
| CacheStore.KeepDistinct | service-worker.js:163-171 | filtering the generation names keeps them free of duplicates |
| ServiceWorker.ShellBatchAllOrNothing | service-worker.js:21 | `cache.addAll` succeeds exactly when every shell fetch answers ok and not 206; on success the batch holds exactly the shell URLs, each with its fetched response |
| ServiceWorker.Seed | service-worker.js:17-27 | install leaves a well-formed store in which generation `bible-app-cache-v4` exists |
| ServiceWorker.SeedStoresShell | service-worker.js:18-22 | when seeding succeeds, every app-shell URL is in `bible-app-cache-v4` with its fetched response |
| ServiceWorker.SeedFailureWritesNothing | service-worker.js:23-27 | when any shell fetch fails, the failure is swallowed and no entry of any generation changes |
| ServiceWorker.SeedKeepsOtherGenerations | service-worker.js:17-22 | install changes no generation but `bible-app-cache-v4` |
| ServiceWorker.AdmittedResponseServedNext | service-worker.js:60-75 | a 200 response written back on a miss is what the next `caches.match` of that URL answers, and no other entry changes |
| ServiceWorker.ActivateKeepsOnlyCurrent | service-worker.js:161-171 | after activate the names are `[bible-app-cache-v4]` or empty, and that generation keeps all its entries |
| ServiceWorker.ActivateIdempotent | service-worker.js:161-171 | activating a second time deletes nothing more |
| ServiceWorker.InstalledShellIsServed | service-worker.js:15-31 | after a successful install and then activate, each app-shell URL is answered from the cache with the response fetched for it, whatever generations existed before |
| ServiceWorker.DeleteStale | service-worker.js:163-171 | the loop over `caches.keys()` that deletes every name not in the whitelist computes `Evict` |
| ServiceWorker.ActivateSkipStep | service-worker.js:166 | a whitelisted name is passed over by the loop and stays |
| ServiceWorker.ActivateDeleteStep | service-worker.js:166-168 | deleting a name that is not whitelisted removes it from the names still to be visited, and nowhere else |
| ServiceWorker.EvictingDone | service-worker.js:163-171 | after the last name the loop's store is `Evict` of the store it started from |
| ServiceWorker.Worker.OnInstall | service-worker.js:15-31 | the store becomes `Seed` of the old store; skip-waiting is requested; one fetch per shell URL; when every shell fetch succeeds, every shell URL is cached |
| ServiceWorker.Worker.OnFetch | service-worker.js:34-87 | not intercepted: passthrough, and the cache is neither read nor written. Hit: the cached response, no fetch. Miss: one fetch. A 200 is returned; when open and put succeed it is written into `bible-app-cache-v4` and is then what `caches.match` answers; when only the put rejects the generation is opened and holds nothing new; when the open rejects nothing changes. Another status is returned and nothing is written. A network failure answers a navigation with the match for `/index.html` (possibly none) and rejects any other mode, changing nothing |
| ServiceWorker.Worker.OnActivate | service-worker.js:159-177 | the store becomes `Evict` of the old store: only `bible-app-cache-v4` can remain, with its old contents; clients are claimed |
| Hooks.TaskFor | service-worker.js:90-111 | `sync` runs its work exactly for tag `background-sync`, `periodicsync` exactly for `periodic-sync`, and every other tag does nothing |
| Hooks.PushNotification | service-worker.js:117-142 | the title, icon and badge; the body is the payload text when there is one, else `New content available!`; exactly two actions, `explore` then `close` |
| Hooks.NotificationClick | service-worker.js:146-156 | a click always closes the notification, and opens `/` exactly when the action is `explore` |
| Hooks.ClickOnPushButtons | service-worker.js:126-155 | of a push notification's buttons the first opens the app, and the second, like a click on the body, only closes |
| Hooks.PeriodicSyncData | service-worker.js:204-231 | a notification is shown exactly when the response is ok and the JSON body's `hasNewContent` is truthy; a rejected fetch, a non-JSON body and a `null` body throw and are swallowed |
| Hooks.OnPeriodicSync | service-worker.js:102-111 | the periodic-sync handler shows the update notification exactly for tag `periodic-sync` and an update check that reports new content |
| Scenarios.ShellOnlyMatches | service-worker.js:77-82 | in a store whose current generation holds only the shell page, `/index.html` matches and an uncached page does not |

## Left out

- Asynchrony, `waitUntil` and the interleaving of concurrent events: each handler is one sequential step.
- Stream cloning of requests and responses (`service-worker.js:54`, `:65`): an artifact of the stream API with no effect on what is cached or returned.
- `console.log` and `console.error` logging.
- `Date.now()`, `vibrate` and `data` in the push options: a timestamp and fixed decoration.
- `syncData` and the storage helpers `getNotesFromStorage` and `getBookmarksFromStorage`: the helpers always return an empty list, and `syncData` transmits nothing and never touches the cache. Only the dispatch to it (`Hooks.TaskFor`) is modelled.
- `showNotification`, `openWindow`, `clients.claim` and `skipWaiting` are recorded as output values or flags, not performed.
- The real network and JSON decoding: they are the input oracles `FetchOutcome` and `UpdateCheck`.
- A rejected `caches.open` on install (`service-worker.js:18`): it is assumed to succeed. Its failures on fetch are modelled (`WriteBack`).
- A rejected `caches.keys()` or `caches.delete` on activate (`service-worker.js:163-168`): they are assumed to succeed, so `clients.claim()` always runs in the model.
- The rejection by `cache.addAll` of a response carrying `Vary: *`: response headers are not modelled.
- The `!response` half of the admission guard (`service-worker.js:60`): a fulfilled `fetch` always yields a response, so it cannot be taken.
- `caches.match` matching on request headers (`Vary`) and ignoring fragments: a request is matched on its URL string only.
- Relative URLs are resolved by concatenation (`origin + path`), not by the URL parser.
- `index.tsx` and `vite.config.ts`: UI bootstrap and bundler configuration, not part of this model.

## Findings

| source | as written | input that shows it | evidently intended | confidence | as-written member | corrected member |
|---|---|---|---|---|---|---|
| service-worker.js:41 | a request is intercepted when its URL string starts with `self.location.origin` | origin `http://a` and a GET to `http://ab/`, whose host is different | intercept only requests to the worker's own origin, i.e. when the origin is followed by the end of the URL, `/`, `?` or `#` | not executed | Classifier.AsWrittenInterceptsForeignHost | Classifier.InterceptedIsSameOriginGet |

`ServiceWorker.Worker.OnFetch` keeps the guard as written, so that the worker does what the code does. `Classifier.Intercepted` is the corrected guard. `Classifier.InterceptedIsSameOriginGet` proves that it accepts exactly the same-origin GETs, and that the worker intercepts every request it accepts.
