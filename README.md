# edge-proxy core, modelled in Dafny

This project models the request-handling core of the edge proxy, a reverse
proxy that sits between edge workloads and a Kubernetes API server. These are
the parts modelled:

- **Two cache tiers** (`CacheMgr`).
  - An in-memory tier keeps response bodies verbatim.
  - A durable tier keeps a pod or configmap list, reduced to the items of one
    policy class, in a disk store.
- **The disk store** (`Storage`).
  - A table of pending keys refuses overlapping keys.
  - Create and Get run over a map from path to file or directory.
- **The skip-list response filter** (`Filter`).
- **The policy-class predicate** and its label tokens (`Common`).
- **The remote proxy** (`Remote`): upgrade dispatch, the 502 error handler,
  and the per-response rewrite in modifyResponse.
- **The degraded-mode local responder** (`Local`).
- **The health checker** (`Checker`) and the cache latch (`Cache`).
- **The handler chain** (`Handler`): health routing, the resource-usage
  request counter, and the in-flight admission gate.
- **Helpers from pkg/util** (`Util`): the tee reader that copies a body into a
  pipe, the lazy gzip reader, and cache keys.
- **Small pieces**: the handler-factory registry (`Proxy`), server-address
  validation (`Config`) and commit-hash shortening (`ProjectInfo`).

How the modules are laid out:

- There is one module per Go file.
- `Base`, `Strs`, `Kube`, `Streams` and `Http` hold what the files share:
  - errors, `Option` and `Result`;
  - the few `strings`, `path/filepath` and `strconv` operations used;
  - request info, list objects, headers and the serializer;
  - readers and pipes;
  - request and reply shapes.

Code outside the repository enters as function-valued parameters or fields:

- the Kubernetes serializer;
- gzip decoding (RFC 1952);
- `url.Parse`;
- the health probe;
- the clock;
- the openyurt cache manager;
- the remote and local handlers.

Where the source changes state, the model uses a class with those fields:

- the checker and the cache latch;
- the registry;
- the disk store's pending set and disk;
- the in-memory cache map;
- the readers' buffers;
- the response being rewritten.

Where the source loops, the model has a method with a loop:

- the item-selection loop of the filter, the durable cache and the local
  responder (`Kube.SelectItems`);
- the lock check over the pending keys;
- the server-list parse;
- the registry scan.

Each method is proved against a function or predicate. Lemmas then prove what
the source promises about that function.

Where the files disagree with each other, each callee is modelled as it is
defined, and the callers are composed abstractly. These are the places, none
of which changes what the modelled members compute:

- `NewChecker` is called with two arguments but takes one.
- `NewFilterReadCloser` is called with a filter object but takes the resource,
  the prefix and the serializer.
- `checkLabel` is defined in both common.go and remote.go, identically. The
  model defines it once.
- `Register` is called with one argument but takes two.
- `NewCacheMgr` is called at handler.go:53 with the storage only, but takes the
  storage and the serializer manager. The model's cache manager takes both.
- `CreateSerializer` is defined twice with different parameters. remote.go:217
  takes the request and checks its content type, request info, API version and
  resource. common.go:36 takes the request info and uses the fixed protobuf
  content type. The model keeps both, as `Remote.CreateSerializer` and
  `Common.CreateSerializer`.
- `NewRemoteProxy` is called at handler.go:75 with five arguments, the fourth
  a cache checker. It takes six: the remote server, the cache manager, the
  transport, the serializer manager, the client and the stop channel. The
  model's remote proxy takes the checker, whether a cache manager is set, the
  serializer manager and the gzip decoder.
- `SetCacheMgr` is called on the load balancer and the local proxy at
  handler.go:54-55. Neither the remote nor the local proxy defines it.
- handler.go:48 reads `DiskCachePath`, but the configuration field at
  config.go:26 is `DishCachePath`.
- handler.go:31-32 declare fields of type `LoadBalancer`, which no file
  defines. infra.go:6 defines `APIServerProxy`.

## Model

| member | source | states |
|---|---|---|
| ProjectInfo.GetProxyName | pkg/projectinfo/projectinfo.go:15-17 | the proxy's name is the constant "edge-proxy" |
| ProjectInfo.NormalizeGitCommit | pkg/projectinfo/projectinfo.go:20-26 | the result is at most 7 characters long and a prefix of the commit; a commit of at most 7 characters is returned unchanged, a longer one is cut to exactly 7 |
| ProjectInfo.NormalizeGitCommitIdempotent | pkg/projectinfo/projectinfo.go:20-26 | normalizing twice is the same as normalizing once |
| Config.Accept | cmd/edge-proxy/app/config/config.go:68-80 | a part is accepted exactly when it parses with an empty or "https" scheme; an accepted url always has scheme https and keeps the rest of the parse |
| Config.ParseRemoteServers | cmd/edge-proxy/app/config/config.go:61-89 | empty input gives the "--server-addr" error. Otherwise the result is the accepted urls of the comma-separated parts, in order, up to the first refused part, with that part's error. Success means one https url per part. The "no server address" error is never returned (at least one url on success) |
| Proxy.Registry.Register | pkg/proxy/proxy.go:16-24 | an unseen name adds exactly that entry; a registered name leaves the map unchanged; no entry is ever removed or replaced |
| Proxy.Registry.GetProxyHandler | pkg/proxy/proxy.go:26-42 | with the sample handler enabled: the "sample" factory, or "sample proxy handler is not found". Otherwise: success exactly when a factory not named "sample" exists, and the result is such a factory; failure is "no proxy handler is prepared" |
| Common.CheckLabel | pkg/proxy/dev/common.go:25-33 | true iff a resource request, verb "list", resource pods or configmaps, and the selector contains the token |
| Common.CheckLabelNeedsList | pkg/proxy/dev/common.go:26 | any verb other than "list" gives false whatever the selector |
| Common.CheckLabelNeedsPodsOrConfigMaps | pkg/proxy/dev/common.go:27 | any resource other than pods and configmaps gives false |
| Common.TokensApart | pkg/proxy/dev/common.go:13-16 | the four label tokens are pairwise distinct and none occurs inside another |
| Common.TokenSelectsOnlyItsClass | pkg/proxy/dev/common.go:13-33 | a selector that is exactly one class's token never selects another class |
| Kube.SelectItems | pkg/proxy/dev/filter.go:60-67 | the append loop yields exactly the specification selection of the items, in order |
| Kube.SelectMembers | pkg/proxy/dev/cachemgr.go:77-85 | an item is kept iff it is one of the items and passes the test |
| Kube.SelectPartition | pkg/proxy/dev/filter.go:60-67 | kept plus dropped items add up to the original count |
| Kube.SelectIdempotent | pkg/proxy/dev/local.go:104-111 | reducing an already reduced list by the same test changes nothing |
| Kube.RewriteKeepsExactly | pkg/proxy/dev/cachemgr.go:61-90 | a rewritten list keeps its envelope and exactly the accepted items in order; its bytes are that list's encoding and decode back to it when the serializer round-trips |
| Streams.Take | pkg/proxy/dev/filter.go:24-26 | a buffer read returns min(n, available) leading bytes and leaves the rest; it reports the end only on an empty buffer with a non-empty slice |
| Streams.Pipe.Write | pkg/util/util.go:80 | a write after either end is closed fails with ErrClosedPipe and writes nothing; otherwise every byte is appended |
| Util.KeyFunc | pkg/util/util.go:110-116 | an error exactly when comp or resource is empty |
| Util.SplitKeyEmpty | pkg/util/util.go:120-122 | Util.SplitKey gives four empty fields for the empty key |
| Util.SplitKeyTooManyParts | pkg/util/util.go:124-140 | Util.SplitKey gives four empty fields for a key of more than four parts |
| Util.SplitKeyOfKeyFunc | pkg/util/util.go:109-143 | for parts that are path elements (no '/', not "." or ".."), a non-empty comp and resource, and a namespace only with a name: Util.SplitKey gives back what KeyFunc joined |
| Util.NonEmptyOfFour | pkg/util/util.go:115 | joining drops exactly the empty namespace and name |
| Util.SplitKeyLosesNamespaceWithoutName | pkg/util/util.go:115-134 | for path-element parts, Util.SplitKey returns a namespace given without a name in the name field |
| Util.ReqInfoString | pkg/util/util.go:43-49 | empty exactly when there is no request info; with it, starts with "verb resource for " |
| Util.ReqString | pkg/util/util.go:33-40 | the bare URL without request info; with it, a longer string that starts with "verb resource: " and ends with the URL |
| Util.DualReadCloser.constructor | pkg/util/util.go:52-62 | a fresh open pipe; nothing delivered yet |
| Util.DualReadCloser.Read | pkg/util/util.go:76-87 | the pipe receives exactly the bytes the reader is handed, in order. On a closed pipe the read returns no bytes and the pipe's error, though the source was read |
| Util.DualReadCloser.Close | pkg/util/util.go:90-107 | closes the source only for a response body and always closes the pipe writer; an error exactly when the source's close failed |
| Util.GzipReaderCloser.constructor | pkg/util/util.go:189-191 | no decoder and no error yet |
| Util.GzipReaderCloser.Read | pkg/util/util.go:163-177 | a stored construction error is returned and kept by every later read. The first read builds the decoder and stores a failure. Reads then take from the decompressed bytes |
| Util.GzipReaderCloser.Close | pkg/util/util.go:179-181 | closes the compressed body |
| Util.NewGZipReaderCloser | pkg/util/util.go:183-192 | a fresh lazy gzip reader over the body exactly when Content-Encoding is "gzip", and needUncompressed exactly then |
| Storage.Stat | pkg/util/storage.go:151-157 | Found means the path is present with all its ancestors directories. Not-exist means it is absent or unreachable |
| Storage.StatThroughFile | pkg/util/storage.go:151-157 | a path is the not-a-directory error exactly when it runs through a regular file; a path that does not is never an error |
| Storage.MkdirAll | pkg/util/storage.go:104-108 | on success the path and all its ancestors are directories and no existing file is touched |
| Storage.ParentDir | pkg/util/storage.go:103 | the directory of a key is shorter than the key |
| Storage.AncestorsOfKey | pkg/util/storage.go:102-106 | a key's ancestors are its directory and the directory's ancestors |
| Storage.GetFs | pkg/util/storage.go:146-169 | the empty path is ErrKeyIsEmpty. A failing stat's error is returned. A missing or unreachable path is ErrStorageNotFound, and a directory is ErrKeyHasNoContent. A reachable regular file yields exactly its bytes, and bytes come only from such a file |
| Storage.ConflictsSymmetric | pkg/util/storage.go:212-224 | the overlap check gives the same answer whichever key is the pending one |
| Storage.NoLongerInside | pkg/util/storage.go:219 | a key is never contained in a shorter key |
| Storage.AncestorConflicts | pkg/util/storage.go:212-224 | an ancestor key and its descendant always conflict, in both directions |
| Storage.UnrelatedKeysMayConflict | pkg/util/storage.go:214 | the check also refuses a key that merely contains a pending key followed by '/' ("xa/b" against "a") |
| Storage.LockKeepsApart | pkg/util/storage.go:204-227 | adding a lockable key keeps all pending keys pairwise non-conflicting |
| Storage.DirOfKeyIsDir | pkg/util/storage.go:102-114 | once Storage.CreateFile (create) has checked or made the key's directory, every ancestor of the key is a directory |
| Storage.CreateThenGet | pkg/util/storage.go:97-163 | a successful Create with non-empty contents, which writes through Storage.CreateFile, followed by Get returns exactly those contents (the write truncates) |
| Storage.CreateEmptyThenGet | pkg/util/storage.go:77-91 | a successful Create with empty contents leaves a directory, which Get reports as ErrKeyHasNoContent |
| Storage.DiskStorage.constructor | pkg/util/storage.go:52-55 | no pending keys |
| Storage.DiskStorage.LockKey | pkg/util/storage.go:204-227 | succeeds iff the key is not pending and conflicts with no pending key; then adds exactly that key, else changes nothing |
| Storage.DiskStorage.UnLockKey | pkg/util/storage.go:229-233 | removes only that key |
| Storage.DiskStorage.Create | pkg/util/storage.go:66-94 | the empty key gives ErrKeyIsEmpty and a lock failure ErrStorageAccessConflict. Otherwise the disk becomes the create semantics' result or is unchanged with its error. The pending set is restored on every path |
| Storage.DiskStorage.Get | pkg/util/storage.go:133-143 | same key checks as Create, then the get semantics; the pending set is restored |
| Storage.IsTmpFileOf | pkg/util/storage.go:235-241 | Storage.IsTmpFile holds of a path exactly when its file name (not its directory) starts with "tmp_" |
| Storage.GetKeyOfTmp | pkg/util/storage.go:243-246 | for a clean directory and a path-element name, Storage.GetKey (getKey) strips "tmp_" from the file name only, keeping the directory |
| Storage.GetKeyOfPlain | pkg/util/storage.go:243-246 | in a clean directory, Storage.GetKey maps a path whose file name lacks "tmp_" to itself |
| Filter.SkipListFilterReadCloser.constructor | pkg/proxy/dev/filter.go:73 | the buffer holds the re-encoded list, nothing read yet |
| Filter.SkipListFilterReadCloser.Read | pkg/proxy/dev/filter.go:23-26 | reads drain the buffer; everything read so far plus the rest is exactly the re-encoded list |
| Filter.SkipListFilterReadCloser.Close | pkg/proxy/dev/filter.go:28-31 | closes the upstream body, not the buffer |
| Filter.NewFilterReadCloser | pkg/proxy/dev/filter.go:37-110 | a resource other than pods and configmaps gives (0, nil, "err resource type") without reading. Read, decode and encode failures give (0, nil, err). A non-list gives (0, nil, nil). Otherwise the size is the new encoding's length and the reader yields exactly those bytes |
| Filter.FilterKeepsUnprefixed | pkg/proxy/dev/filter.go:60-67 | the filtered list keeps exactly the items whose name lacks the prefix; kept plus dropped is the original count |
| CacheMgr.KeyFunc | pkg/proxy/dev/cachemgr.go:154-157 | the key is the utility KeyFunc with comp "bench" |
| CacheMgr.KeyFuncSplits | pkg/proxy/dev/cachemgr.go:154-157 | for path-element parts with a resource and a label type, a key splits back into "bench", resource, namespace and label type |
| CacheMgr.KeyFuncInjective | pkg/proxy/dev/cachemgr.go:154-157 | triples of path elements with a resource and a label type have equal keys only when they are equal |
| CacheMgr.KeyFuncCollidesWithoutLabelType | pkg/proxy/dev/cachemgr.go:154-157 | without a label type, a namespace and a label type share a key |
| CacheMgr.CachedListReadsBack | pkg/proxy/dev/cachemgr.go:58-144 | after the durable tier wrote a response, QueryCache returns the written bytes. They are the list with exactly the items whose "type" label is the label type, in order, and decode back to it |
| CacheMgr.CacheMgr.constructor | pkg/proxy/dev/cachemgr.go:28-34 | an empty in-memory tier |
| CacheMgr.CacheMgr.QueryCacheMem | pkg/proxy/dev/cachemgr.go:147-151 | (bytes, true) iff the triple's key is present, with the bytes stored under it; (nil, false) otherwise |
| CacheMgr.CacheMgr.CacheResponseMem | pkg/proxy/dev/cachemgr.go:40-55 | a read failure returns the error and leaves the tier unchanged. Otherwise exactly the bytes read are stored under the triple's key, overwriting it, and QueryCacheMem returns them |
| CacheMgr.CacheMgr.CacheResponse | pkg/proxy/dev/cachemgr.go:58-138 | another resource is refused without reading or writing. Read, decode and encode errors are returned with nothing written. A non-list returns no error and writes nothing. Otherwise the reduced list goes to the store's Create, whose error is returned |
| CacheMgr.CacheMgr.QueryCache | pkg/proxy/dev/cachemgr.go:141-144 | exactly the store's Get for the triple's key |
| Checker.Probe | pkg/proxy/dev/checker.go:56-85 | a check leaves healthy equal to the probe. A success refreshes lastTime. A failure refreshes it only on the transition from healthy and otherwise changes nothing |
| Checker.LastProbeWins | pkg/proxy/dev/checker.go:56-85 | after any run of checks the state reports the latest probe |
| Checker.FailuresKeepUnhealthyState | pkg/proxy/dev/checker.go:73-85 | failures while unhealthy leave flag and lastTime unchanged |
| Checker.Checker.constructor | pkg/proxy/dev/checker.go:24-29 | a new checker is unhealthy, with lastTime the construction time |
| Checker.Checker.IsHealthy | pkg/proxy/dev/checker.go:88-92 | reads the flag and changes nothing |
| Checker.Checker.SetHealthy | pkg/proxy/dev/checker.go:95-99 | sets the flag |
| Checker.Checker.MarkAsHealthy | pkg/proxy/dev/checker.go:66-70 | healthy, lastTime now |
| Checker.Checker.MarkAsUnhealthy | pkg/proxy/dev/checker.go:73-85 | a healthy checker becomes unhealthy at now; an unhealthy one is untouched |
| Checker.Checker.Check | pkg/proxy/dev/checker.go:56-63 | the new state is Probe of the old one |
| Cache.CacheChecker.constructor | pkg/proxy/dev/cache.go:13-17 | a new latch cannot cache |
| Cache.CacheChecker.CanCache | pkg/proxy/dev/cache.go:19-23 | reads the latch and changes nothing |
| Cache.CacheChecker.SetCanCache | pkg/proxy/dev/cache.go:25-31 | afterwards CanCache is true, and only the latch may change |
| Handler.DevFactory.ServeHTTP | pkg/proxy/dev/handler.go:37-45 | while the checker is healthy only the remote proxy serves the request, otherwise only the local one |
| Handler.CountResourceUsage | pkg/proxy/dev/handler.go:140-143 | never more than the number of requests |
| Handler.CountAppend | pkg/proxy/dev/handler.go:135-147 | the count over two runs of requests is the sum of their counts |
| Handler.RequestCounter.constructor | pkg/proxy/dev/handler.go:136 | the count starts at zero |
| Handler.RequestCounter.Serve | pkg/proxy/dev/handler.go:137-146 | the count goes up by one exactly for a resource-usage request, always equals the number of resource-usage requests served, and the request always reaches the wrapped handler |
| Handler.InFlightLimiter.constructor | pkg/proxy/dev/handler.go:151-157 | no request in flight |
| Handler.InFlightLimiter.Admit | pkg/proxy/dev/handler.go:159-161 | admitted exactly while the limit is positive and a slot is free; occupancy never exceeds the limit |
| Handler.InFlightLimiter.Release | pkg/proxy/dev/handler.go:162-165 | frees one slot |
| Handler.InFlightLimiter.Serve | pkg/proxy/dev/handler.go:158-173 | the wrapped handler's reply when admitted, 429 without calling it otherwise (always when the limit is not positive); occupancy is back where it was |
| Remote.ServeHTTP | pkg/proxy/dev/remote.go:87-95 | upgrade requests go only to the upgrade handler, all others only to the reverse proxy |
| Remote.ErrorHandler | pkg/proxy/dev/remote.go:102-106 | a transport error is answered with a bare 502 |
| Remote.CreateSerializer | pkg/proxy/dev/remote.go:217-226 | a serializer exactly when there are a content type, request info, an API version and a resource, and then the manager's for them |
| Remote.FilteredLength | pkg/proxy/dev/remote.go:175-184 | Content-Length is written in decimal and reads back as the size; Content-Encoding is removed exactly when the body was gunzipped |
| Remote.RemoteProxy.IsHealthy | pkg/proxy/dev/remote.go:112-114 | the checker's flag |
| Remote.RemoteProxy.ModifyResponse | pkg/proxy/dev/remote.go:116-215 | no response, no request or the resource-usage label: nothing changes. A watch without Transfer-Encoding gains "chunked" and an existing value is kept. Non-2xx: nothing else. Filter label: no serializer leaves the body; otherwise the body is the filter's outcome, Content-Length only when size > 0, Content-Encoding dropped iff gunzipped. A cache job exists iff a cache manager is set, the response is 2xx, and it is a cacheable list without filter or functional label; then the body is teed |
| Local.LocalDelete | pkg/proxy/dev/local.go:61-78 | a 403 Failure Status with reason Forbidden, naming info.Name, info.Namespace as group and info.Resource as kind |
| Local.CacheReplyStatus | pkg/proxy/dev/local.go:130-144 | storage-not-found or GVR-not-recognized give NotFound; any other error or no object give InternalError; otherwise 200 with the object |
| Local.ServedListIsConsistent | pkg/proxy/dev/local.go:97-128 | a served list keeps its envelope and exactly its items labelled type "consistency", in order |
| Local.OnlyConsistencyListsServed | pkg/proxy/dev/local.go:88-95 | an object is served only for a pods or configmaps list with the consistency label and a cache hit without error |
| Local.LocalProxy.LocalReqCache | pkg/proxy/dev/local.go:81-145 | without the consistency label: "not list consistency label" whatever the cache returned. Otherwise the cache's answer, a matching list reduced to its consistency items, through the error mapping |
| Local.LocalProxy.ServeHTTP | pkg/proxy/dev/local.go:38-58 | no request info or a non-resource request gets BadRequest naming the request. Deletes get the 403 Status without a cache query. Every other verb queries the cache through localReqCache |
| Strs.SplitJoin | pkg/util/util.go:124 | splitting on '/' undoes joining slash-free parts |
| Strs.DecimalRoundTrip | pkg/proxy/dev/remote.go:177 | the decimal text of a size reads back as that size |

## Left out

- Util.GzipReaderCloser.Read: the decoder is built from the whole compressed body on the first read. gzip.NewReader reads only the header up front. Decompression is a function parameter, so only when the upstream bytes are consumed differs.
- Remote.RemoteProxy.ModifyResponse: the nil dereference of a missing RequestInfo in the 2xx branch is a Go panic; here it is returned as the error NilRequestInfo, with the response untouched.
- Remote.RemoteProxy.ModifyResponse: the filter step is composed from the list rewrite the filter runs, not by calling NewFilterReadCloser, because the call at remote.go:167-169 does not match filter.go:37. The caching goroutine is returned as a CacheJob; the openyurt cache manager it feeds is not modelled.
- Proxy.Registry.GetProxyHandler: returns the chosen factory; the factory's Init, which builds the handler, is outside the model. Map iteration order is unspecified, so the choice among several non-sample factories is left open.
- ProjectInfo.NormalizeGitCommit: Go slices bytes and the model slices characters; the two agree on the ASCII hashes it is given.
- Storage.DiskStorage.Create: write, sync and close failures of the file (storage.go:121-128) and MkdirAll permission errors are not modelled; the only disk errors are "not a directory" and "is a directory".
- Storage.GetFs: ReadFile failures and the "exists but not recognized" case (storage.go:158-161, 168) are not modelled; the disk holds only files and directories. A failing stat's error is returned as is, not wrapped.
- Storage: Recover and NewDiskStorage's directory creation (storage.go:42-62, 172-202) use filepath.Walk, os.Rename and a base directory. They are not modelled: keys are paths relative to the base directory, and isTmpFile and getKey are modelled on their own.
- Strs.JoinPath: filepath.Join is modelled as dropping empty elements and joining with '/'. filepath.Clean's handling of ".", ".." and repeated slashes is not modelled. The key and getKey lemmas therefore require parts that are path elements (no '/', not "." or "..") and clean directories, where the two agree.
- The mutexes of the disk store, the checker and the cache latch are not modelled: the model is the sequential, locked semantics.
- Concurrency is not modelled:
  - the checker's timer loop and stop channel (checker.go:31-53);
  - printCreateReqBody's body-sniffing goroutine (handler.go:97-133);
  - io.Pipe blocking and backpressure: a pipe write completes at once.
- devFactory's Init, initCacheMgr and buildHandlerChain (handler.go:47-95) are bootstrap wiring and are not modelled. NewRemoteProxy, RoundTrip, Name and the responder (remote.go:25-85, 97-110) are not modelled either.
- Encoding of replies is not modelled: util.Err and util.WriteObject become Reply values. The health probe (health.CheckClusterIsHealthyByGet) and time.Now become inputs to the checker.
- The request description in the local responder's messages is the yurthub util package's ReqString (local.go:11), not the one in pkg/util. It enters as a parameter of the local responder, so Local.CacheReplyStatus, Local.LocalProxy.LocalReqCache and Local.LocalProxy.ServeHTTP fix the message text only around it.
- Header keys are taken as canonical; http.Header's key canonicalisation is not modelled.
- The URL's parsed fields other than its scheme are carried unread. Logging (klog) is not modelled, and neither is the remoteServers string list in parseRemoteServers.
- NewChecker's remote server argument is not modelled: the probe is an input.
- LocalProxy's isHealthy field is never read and is not modelled.
