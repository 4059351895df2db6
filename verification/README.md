# Verified model of mcp-media

mcp-media gives MCP servers a media exit: a sidecar signs short-lived URLs for files and
serves them, a proxy mirrors an upstream MCP server's tools and adds media tools, a webhook
injects both into pods, and a controller shapes services and ingresses around them. This
project models those four parts in Dafny and proves what they promise. `dafny verify
dfyconfig.toml` checks everything.

## What is modelled

**Signed paths** (`Signing`, `Paths`, `FileSystem`, `Resolver`, `MediaUrl`, `Minting`,
`Serving`). Paths exist twice: as byte strings, cleaned and compared by prefix as the server
does, and as component sequences. The file system is a finite tree with directories, files
and symbolic links, and links are followed with the budget of 255 that
`filepath.EvalSymlinks` has. The walk splices link targets into the text that is left, as the Go
code does; `FileSystem.Lead` is pathname resolution component by component, and the two agree. `Resolver.Resolve` is the string code; `Resolver.Resolved` says
on components what it must answer. Minting and serving are methods on top, down to
base64url (RFC 4648 section 5), hex (RFC 4648 section 8), decimal and percent-encoding
(RFC 3986 section 2.1). The MAC (RFC 2104) is a parameter: any function from secret and
message to 32 bytes.

**Upstream mirror** (`Mirror`, `MirrorProtocol`, `MirrorSafety`, `MirrorTheorems`,
`MirrorProgress`, `MirrorSessions`). `Mirror.Upstream` is the object with its loops; one sync on it has the
effect of `ApplyMirrored` and `ApplyRegistry`. The same two functions are the critical section
of a step machine in which any number of threads run Connect, Close, SyncTools, resync and
forwarded calls under the locks `listMu` and `mu`, while the upstream list changes, sessions
die and listings are read page by page and may be torn. The theorems are about every
reachable state, about every run that winds down, and about the sessions that are left over.

**Controller** (`Cluster`, `Reconciling`, `Effects`, `Controller`, `Inheritance`, `Convergence`,
`Divergence`, `Instances`). `Cluster.Reconcile` is one reconcile as a function on the objects
of a namespace; `Controller.WorkloadReconciler` is the code that fetches, changes and writes
them. `Effects` says what a reconcile achieves in terms of the annotations and objects it
found. A media ingress inherits its shape from another ingress, which may be a media ingress
too. Which workload inherits from which is known beforehand (`Inheritance.Origin`) and never
changes, and on that relation the convergence theorem decides for any schedule of reconciles
of many workloads whether they settle. `Instances` has concrete clusters that do not.

**Webhook and configuration** (`Webhook`, `Annotations`, `Environment`, `ProxyConfig`,
`SidecarConfig`, `Inline`, `Agreement`). Injection is an in-place change of a pod object; the
injected variables are then read by the two programs' own configuration loaders. `Agreement`
follows annotations, ports, addresses and tokens from the webhook and the controller to the
programs that rely on them. `Inline` is the bounded fetch behind the media tools, composed
with the file server.

## Findings

- A root reached through a symbolic link mints URLs that are never served: minting signs the
  resolved path, and the lexical check compares it with the unresolved root.
  `Serving.MintThenServe` has the exact condition, `Serving.LinkedRootNeverServes` the failure.
- Under the root `/` the containment test looks for `//`, so nothing but `/` itself passes
  (`Paths.UnderRootExact`).
- The recursion on relative paths never ends for a relative first root
  (`Resolver.RecursionEndsIffRootAbsolute`); the sidecar's configuration excludes it, the mint
  handler's own validation does not (`SidecarConfig.LoadedPassesNewHandler`).
- The comment at internal/mint/handler.go:30 announces a lower clamp of the TTL to the
  default; the code has none (`Minting.BelowDefault`).
- The comment at internal/sign/sign.go:46 argues that the canonical string is unambiguous
  because newlines cannot occur in the path text. The file server's base64 decoder accepts
  them; what makes it unambiguous there is the newline-free disposition
  (`Signing.CanonicalInjectiveOnPlainDispositions`). `Signing.CanonicalAmbiguousExactly` says
  which tuples share their signed string with another one.
- A public base URL with a path, query or fragment passes every check at startup, and then the
  file server's route does not read what was signed, unless the path is one that cleans to the
  root and the client follows the redirect (`MediaUrl.BaseMustBeBare`,
  `MediaUrl.BaseMustComeDownToRoot`). Otherwise something in front must take the rest away.
- `time.Unix` wraps around for expiries beyond 2^63 - 1 - 62135596800, which then count as
  long past (`Signing.AfterExact`).
- A mirrored tool whose schema turns bad keeps its stale registration (`Mirror.StaleEntryKept`).
  `Mirror.ApplyExact` says when a sync leaves exactly what the listing calls for, and
  `MirrorTheorems.NoLostUpdateExact` when the protocol does.
- A Connect over a live session leaves that session open and closed by nobody
  (`MirrorSessions.SecondConnectLoses`). The proxy connects once, and then nothing is left over
  (`MirrorSessions.OneDialIsCareful`, `MirrorSessions.RestLeaksNothing`).
- Two workloads that inherit from each other, neither host annotated, grow each other's hosts
  without bound (`Divergence.LoopDiverges`); two fresh workloads with one selector and nothing
  annotated do (`Instances.TwinsLoop`). A proxied workload called like a media service and
  forwarding to port 8090 or 8091 keeps the controller busy for ever
  (`Divergence.ClashNeverSettles`, `Instances.ClashExists`). With a listing sorted by name
  these two are all that can go wrong (`Divergence.ConvergesWhenListed`); in other listings
  three workloads can inherit in a ring, which some schedules never settle even with every
  host annotated (`Instances.RingExists`).
- The repository's README.md:142 promises that a missing upstream-port annotation is detected
  automatically; the injected full-mode proxy then refuses to start
  (`ProxyConfig.FullNeedsUpstreamPort`).
- Only main containers are searched for the injected names, so an init container with such a
  name makes the pod invalid (`Webhook.InjectKeepsWellFormed`).
- The media path annotation is not validated by the webhook; the sidecar may refuse it
  (`SidecarConfig.InjectedSidecarStarts`).
- With the inline limit 2^63 - 1 the limit plus one wraps and every fetch reads as empty
  (`Inline.WholeExactly`).

## Model

| member | source | states |
|---|---|---|
| `Hex.DecodeEncode` | internal/sign/sign.go:61-63 | decoding an encoded byte string gives it back |
| `Hex.EncodeDecode` | internal/sign/sign.go:79-87 | a decodable text is its own re-encoding exactly when it is lower case |
| `Hex.EncodeAt` | internal/sign/sign.go:61-63 | each byte becomes its two lower-case digits, high half first |
| `Base64Url.DecodeEncode` | internal/mint/handler.go:263 | unpadded base64url decodes to the encoded bytes, for every byte string |
| `Base64Url.SymbolAt` | internal/mint/handler.go:263 | the alphabet is that of RFC 4648 section 5, in order |
| `Base64Url.GroupIsOneNumber` | internal/mint/handler.go:263 | a group of bytes and its symbols are one number, filled up with zero bits |
| `Base64Url.EncodeAppend` | internal/mint/handler.go:263 | groups of three bytes are encoded one after the other, the rest last |
| `Base64Url.NewlinesAreIgnored` | internal/serve/handler.go:79 | line breaks anywhere in the path text do not change what it decodes to |
| `Decimal.FormatIntRoundTrip` | internal/mint/handler.go:266 | every int64 survives formatting and parsing |
| `Decimal.FormatIntInjective` | internal/sign/sign.go:49 | different numbers have different decimal texts |
| `Percent.UnescapeEscape` | internal/mint/handler.go:265 | an escaped path segment unescapes to itself, for every byte string |
| `Percent.PlusIsSpace` | internal/serve/handler.go:51-54 | a path segment is read as it stands, and in a query each plus is a space |
| `Percent.EscapeKeepsLiterals` | internal/mint/handler.go:265 | exactly the texts of literal characters are left as they are |
| `Signing.AfterExact` | internal/sign/sign.go:92 | an expiry has passed exactly when now is later or the expiry is beyond what time.Unix can hold |
| `Signing.VerifyExact` | internal/sign/sign.go:78-96 | valid iff the signature is Sign's byte for byte and not expired; expired is reported for matching signatures only; anything else is invalid |
| `Signing.SignatureCarriesOver` | internal/sign/sign.go:78-91 | a signature made for one secret, path, expiry and disposition passes for others iff the MAC has one value on the two signed texts |
| `Signing.EveryPartIsSigned` | internal/sign/sign.go:44-63 | whenever one of the four differs some MAC refuses at any time, and only then |
| `Signing.UpperCaseRefused` | internal/sign/sign.go:85-87 | no spelling other than lower case is accepted |
| `Signing.CanonicalInjectiveOnPlainPaths` | internal/sign/sign.go:44-50 | the signed string determines path, expiry and disposition when paths have no newline |
| `Signing.CanonicalInjectiveOnPlainDispositions` | internal/sign/sign.go:44-50 | the same for arbitrary paths when dispositions have no newline, which is what the file server relies on |
| `Signing.CanonicalAmbiguous` | internal/sign/sign.go:48-50 | with newlines in both places two tuples share one signed string |
| `Signing.CanonicalAmbiguousExactly` | internal/sign/sign.go:44-50 | a tuple shares its signed string with another one iff a line of its path text after the first, or a line of its disposition before the last, is a formatted int64 |
| `Paths.UnderRootExact` | internal/serve/resolve.go:91-93 | the string prefix test is component containment on clean paths, except that root / accepts only itself |
| `Paths.CompsAbs` | internal/serve/resolve.go:48 | a clean absolute path spells exactly its components, and cleaning it changes nothing |
| `Paths.CleanKeepsAbsolute` | internal/serve/resolve.go:48-49 | cleaning never turns a relative path absolute or an absolute one relative |
| `Paths.OneMoreComponent` | internal/serve/resolve.go:48 | cleaning, one component at a time: dots and blanks vanish, two dots take the last name away, names are added |
| `Paths.OneMoreRelative` | internal/serve/resolve.go:48 | the same for relative paths, whose leading dot-dots stay |
| `Paths.JoinComps` | internal/serve/resolve.go:55 | joining a clean relative path to a directory climbs its leading dot-dots and then descends its names |
| `FileSystem.WalkReachesRealPath` | internal/serve/resolve.go:70 | whatever a symlink walk returns exists, contains no link and is spelled with proper names |
| `FileSystem.WalkKeepsRealPath` | internal/serve/resolve.go:70 | a link-free existing path is walked to itself with any budget |
| `FileSystem.LocateIsIdempotent` | internal/serve/resolve.go:70-82 | a located path locates to itself |
| `FileSystem.WalkIsResolution` | internal/serve/resolve.go:70 | walking with spliced link targets is resolving component by component, a link where its target leads from the directory that holds it, errors and link budget included |
| `FileSystem.BudgetOnlyLimits` | internal/serve/resolve.go:70 | a larger budget changes nothing but refusals for too many links, and what is used up is the number of links |
| `FileSystem.RelativeLinkLeads` | internal/serve/resolve.go:33-35 | a relative link climbs from the directory that holds it and then descends |
| `FileSystem.AbsoluteLinkLeads` | internal/serve/resolve.go:33-35 | an absolute link is read from the root wherever it is |
| `Resolver.InSomeRoot` | internal/serve/resolve.go:58-65 | the first loop decides lexical containment in some cleaned root |
| `Resolver.InSomeResolvedRoot` | internal/serve/resolve.go:77-86 | the second loop decides containment in some root that can be located |
| `Resolver.Resolve` | internal/serve/resolve.go:47-87 | the string-level code answers as the fence on components does, errors included, for absolute and relative input |
| `Resolver.ResolvedExact` | internal/serve/resolve.go:56-87 | an absolute path resolves iff it is lexically in a root, exists, and its link-free location lies in a located root; the result is link-free and a fixed point of resolution |
| `Resolver.RefusedExact` | internal/serve/resolve.go:58-87 | an escape iff no cleaned root contains the path, or it is located outside every located root; a disk error iff a root contains it and the walk fails so |
| `Resolver.RelativeIsJoined` | internal/serve/resolve.go:49-56 | a relative path is the first root joined with it, fenced against that root alone |
| `Resolver.RelativeLinkInRoot` | internal/serve/resolve.go:33-35 | with canonical roots a file behind a relative link resolves, to its place, iff that lies in a root |
| `Resolver.AbsoluteLinkInRoot` | internal/serve/resolve.go:33-35 | the same for absolute links |
| `Resolver.RelativeLexical` | internal/serve/resolve.go:49-68 | a relative path passes the lexical check iff it does not climb, or climbs and comes back down through the directories it left; under root / iff it lands on the root |
| `Resolver.RelativeStaysInFirstRoot` | internal/serve/resolve.go:49-56 | a relative path that resolves lies under the first root, whatever other roots there are |
| `Resolver.RecursionEndsIffRootAbsolute` | internal/serve/resolve.go:55 | the recursive call's argument becomes absolute after one step iff the first root is absolute, and otherwise never |
| `Resolver.ResolveAgain` | internal/serve/resolve.go:59-68 | resolving a resolved path gives the same path iff some cleaned root lexically contains it, else an escape |
| `Resolver.CanonicalRootsSuffice` | internal/serve/resolve.go:77-85 | when every root is its own location, every resolved path is lexically under a root |
| `Resolver.LinkedRootRefusesItsOwnAnswers` | internal/serve/resolve.go:59-85 | behind a root that is a link each file resolves and its resolved path is an escape |
| `Resolver.LinkedRootExists` | internal/serve/resolve.go:59-85 | such a tree exists |
| `MediaUrl.ParseBuild` | internal/mint/handler.go:265-266 | the file server reads back exactly path text, file name, expiry, disposition and signature from the built URL |
| `MediaUrl.BaseMustBeBare` | internal/mint/handler.go:265-266 | over all that can be minted, the server reads back what was signed iff nothing stands behind the host of the base, whether path, query or fragment |
| `MediaUrl.BaseMustComeDownToRoot` | internal/mint/handler.go:265-266 | a client that follows the multiplexer's redirect to the clean path is read back iff the base has no query, no fragment, and a path, if any, that cleans to the root |
| `MediaUrl.SwapBaseKeepsRequest` | internal/proxy/tools.go:177-194 | exchanging the base gives the URL the new scheme and host, keeps its user info, and changes nothing the file server reads, redirected or not |
| `MediaUrl.SwapBaseExact` | internal/proxy/tools.go:177-194 | refused iff one of the two is not an http or https URL; without a base nothing changes |
| `Minting.EffectiveTtlExact` | internal/mint/handler.go:215-225 | for every int64 request the TTL lies in (0, max], no multiplication wraps, and it exceeds the request, by less than a second, only at the last whole second of a fractional maximum |
| `Minting.EffectiveTtlMonotone` | internal/mint/handler.go:218-225 | a longer positive request never gets a shorter TTL |
| `Minting.BelowDefault` | internal/mint/handler.go:218-225 | exactly the short positive requests get a TTL below the default |
| `Minting.LifeSpan` | internal/mint/handler.go:262-266 | a URL lives for more than its TTL less a second and at most its TTL, so a TTL of a second or more is never born expired |
| `Minting.Mint` | internal/mint/handler.go:199-279 | the reply, in the order of the checks: malformed request, escape, missing file, directory, or the signed URL of the resolved path |
| `Minting.MintedExpiry` | internal/mint/handler.go:215-266 | an accepted request gets the default, exactly the second it asked for, or the maximum, by which range its ttl_seconds lies in |
| `Minting.MintAnswers` | internal/mint/handler.go:199-279 | which requests get 400, 403, 404 and 500, and that all others get a URL on the configured base and the size of the file |
| `Serving.ServeHTTP` | internal/serve/handler.go:51-146 | the reply, in the order of the checks: nothing is resolved before the signature is verified |
| `Serving.ServeAnswers` | internal/serve/handler.go:51-146 | which requests get 400, 403, 404 and 500, by what can be read, the signature and where the path leads |
| `Serving.ServesResolved` | internal/serve/handler.go:98-146 | all others get the resolved file, in the signed disposition, under the requested name |
| `Serving.ServedIsAuthentic` | internal/serve/handler.go:86-133 | whatever is served carries the genuine unexpired signature and is a link-free file inside a located root |
| `Serving.MintedUrlParses` | internal/mint/handler.go:262-266 | a minted URL parses back into the tuple that was signed |
| `Serving.MintThenServe` | internal/mint/handler.go:228-266 | on the same files and up to the expiry second the server serves the minted file iff its resolved path is lexically under a root, and otherwise answers 403, also through an exchanged base |
| `Serving.ServedForAsLongAsAsked` | internal/mint/handler.go:215-266 | with canonical roots a URL minted for n seconds serves its file up to that second, in the disposition asked for, and is 403 after it |
| `Serving.TamperedIsRefused` | internal/serve/handler.go:86-96 | changing path, expiry or disposition of a minted URL, or the secret, is 403 at any time unless the MAC confuses the two signed texts, which then differ |
| `Serving.CanonicalRootsServe` | internal/serve/handler.go:86-145 | with canonical roots every minted URL is served until it expires |
| `Serving.LinkedRootNeverServes` | internal/serve/resolve.go:59-68 | behind a linked root a file mints and its URL is refused from the start |
| `Serving.LinkedServerExists` | internal/serve/resolve.go:59-68 | such a server exists, for every secret and MAC |
| `Mirror.NormalizeExact` | internal/proxy/upstream.go:310-338 | a normalised schema is an object schema with all given fields and its own normal form; exactly which schemas are refused |
| `Mirror.DownstreamToolExact` | internal/proxy/upstream.go:275-308 | an input schema that cannot be mirrored is an error; otherwise exactly one definition is right: name, details, all fields of the input schema and its type, and of the output schema if that can be mirrored |
| `Mirror.ApplyKeepsInvariant` | internal/proxy/upstream.go:203-234 | after a sync the registry is own plus mirrored, own tools are untouched, mirrored and reserved stay disjoint, and every forwarding entry is dictated by the list |
| `Mirror.SyncForwards` | internal/proxy/upstream.go:203-225 | after a sync the first listed tool of each unreserved name is forwarded to that name and says all the listed tool says, if it can be mirrored |
| `Mirror.ApplyExact` | internal/proxy/upstream.go:203-234 | a sync leaves own tools plus exactly the first mirrorable unreserved tool of each listed name iff every listed name that was mirrored before is mirrorable in this list |
| `Mirror.StaleEntryKept` | internal/proxy/upstream.go:217-233 | the failing case: a mirrored tool listed with a bad schema keeps its old entry |
| `Mirror.ApplyIdempotent` | internal/proxy/upstream.go:203-234 | applying one listing twice is applying it once |
| `Mirror.Upstream.MirrorListed` | internal/proxy/upstream.go:205-225 | the first loop registers exactly the first mirrorable unreserved tool of each name |
| `Mirror.Upstream.RemoveVanished` | internal/proxy/upstream.go:227-234 | the second loop removes exactly the mirrored names that are not listed |
| `Mirror.Upstream.SyncTools` | internal/proxy/upstream.go:182-236 | a successful sync has the effect of the step machine's apply step; a failed one changes nothing |
| `Mirror.Upstream.Connect` | internal/proxy/upstream.go:129-157 | a failed dial changes nothing, a Connect whose listing fails leaves no session, a successful one has the new session and its listing applied; only the last touches the mirror |
| `Mirror.Upstream.Close` | internal/proxy/upstream.go:160-169 | the session is given up for closing, and a second Close has none |
| `Mirror.Upstream.Resync` | internal/proxy/upstream.go:240-251 | without a server, a session or a listing the mirror stays as it was |
| `MirrorSafety.LocksStep` | internal/proxy/upstream.go:183-204 | every step keeps each lock held by exactly the thread whose position says so |
| `MirrorSafety.FreshStep` | internal/proxy/upstream.go:183-236 | every step keeps listings in progress no older than the last applied one |
| `MirrorSafety.FaithfulStep` | internal/proxy/upstream.go:193-201 | every step keeps a listing during which nothing changed equal to the list of its version |
| `MirrorSafety.MirroringStep` | internal/proxy/upstream.go:203-234 | every step keeps the registry own plus mirrored and dictated by the last applied listing |
| `MirrorSafety.OwedStep` | internal/proxy/upstream.go:117-121 | every step keeps each open session's news applied, announced, about to be listed, or failed |
| `MirrorSafety.SessionsStep` | internal/proxy/upstream.go:141-168 | every step keeps session ownership: numbered, connected by one thread, stored once, closed ones only current while being cleared |
| `MirrorSafety.RunKeepsInv` | internal/proxy/upstream.go:61-273 | the invariant holds after every run |
| `MirrorTheorems.NoLostUpdate` | internal/proxy/upstream.go:129-251 | with a live session, nothing pending or running, and no sync failed since the last change unless a later one has caught up with it, the applied listing is the current upstream list and dictates the registry |
| `MirrorTheorems.CurrentToolsForwarded` | internal/proxy/upstream.go:129-308 | and each tool of that list is forwarded as the upstream describes it |
| `MirrorTheorems.NoLostUpdateExact` | internal/proxy/upstream.go:129-251 | the registry is then own tools plus exactly what the current list calls for, iff no name listed with an unmirrorable tool lingers from an earlier listing |
| `MirrorTheorems.ReplayExact` | internal/proxy/upstream.go:203-234 | after any series of listings a name is mirrored iff some listing had a mirrorable tool for it and all later ones list it |
| `MirrorTheorems.AppliedInOrder` | internal/proxy/upstream.go:183-236 | each applied listing starts no earlier than the previous one ended, in every reachable state |
| `MirrorTheorems.LockDiscipline` | internal/proxy/upstream.go:183-204 | mu is never held at a network step or while waiting, and the locks are taken in the order listMu, mu |
| `MirrorTheorems.NoDeadlock` | internal/proxy/upstream.go:183-204 | every thread can step, or the holder of one of the two locks can |
| `MirrorTheorems.CallNeverWaitsForListing` | internal/proxy/upstream.go:257-272 | a forwarded call gets its session in at most three local steps from any reachable state, no network step among them |
| `MirrorTheorems.FailedConnectClearsOnlyItsOwn` | internal/proxy/upstream.go:145-155 | cleaning up a failed Connect leaves any other session, and the mirror, alone |
| `MirrorTheorems.ClosedSessionIsNotCurrent` | internal/proxy/upstream.go:145-168 | while no cleanup is under way the current session is not one this process closed |
| `MirrorTheorems.StaleOverwriteWithoutListMu` | internal/proxy/upstream.go:183-184 | without listMu a quiet, healthy state is reachable in which the registry follows an outdated list |
| `MirrorProgress.WindingRunsAreBounded` | internal/proxy/upstream.go:129-273 | no livelock: without new calls, changes and further pages every run has a bounded number of steps |
| `MirrorProgress.NothingStuck` | internal/proxy/upstream.go:183-272 | a reachable state with a thread or a notification left can go on |
| `MirrorProgress.ComesToRestCurrent` | internal/proxy/upstream.go:129-251 | however the rest interleaves, the protocol comes to rest with all calls returned, all notifications consumed and both locks free, and unless the session died or a sync failed with none caught up since the mirror is current |
| `MirrorProgress.HealthyRestIsReachable` | internal/proxy/upstream.go:129-157 | for every setup a Connect brings about such a state with a live session and no failure |
| `MirrorSessions.AccountedStep` | internal/proxy/upstream.go:137-169 | a step keeps every open session current or in the hand of a thread that stores or closes it, unless and only unless it stores over one |
| `MirrorSessions.RestLeaksNothing` | internal/proxy/upstream.go:137-169 | if no Connect stores over an open session, at rest only the current session is open, and none after Close |
| `MirrorSessions.OneDialIsCareful` | cmd/mcp-media-proxy/main.go:268-278 | which is so in every run with at most one successful dial |
| `MirrorSessions.FailedConnectLeavesNothing` | internal/proxy/upstream.go:145-155 | however the sync of a Connect fails, its session is closed and no longer current, any other session and the mirror stay |
| `MirrorSessions.SecondConnectLoses` | internal/proxy/upstream.go:141-144 | another Connect at rest leaves the open session open and in nobody's hand |
| `Cluster.FindSource` | internal/controller/ingress.go:172-206 | the first ingress in list order that routes to the workload, never through its own media ingress or service |
| `Reconciling.FindSourceIngress` | internal/controller/ingress.go:175-206 | the nested loops find that ingress |
| `Reconciling.SetPublicUrl` | internal/controller/ingress.go:134-164 | the two passes set the sidecar's public URL in place, or nothing when one already has it |
| `Reconciling.RetargetPorts` | internal/controller/workload_reconciler.go:244-248 | exactly the ports equal to the upstream port are retargeted, in place |
| `Reconciling.PatchIsLocal` | internal/controller/ingress.go:149-164 | the template patch touches nothing but the sidecar's public URL variable |
| `Reconciling.ReconcileFrame` | internal/controller/workload_reconciler.go:168-257 | a reconcile changes only the media objects, upstream port targets and that variable |
| `Reconciling.ReconcileSettles` | internal/controller/workload_reconciler.go:168-257 | after a reconcile of an owned workload nothing is left to do for it |
| `Reconciling.SettledStaysFixed` | internal/controller/workload_reconciler.go:168-257 | reconciling a settled workload changes nothing |
| `Reconciling.FixedIsSettled` | internal/controller/workload_reconciler.go:168-257 | only settled workloads reconcile to the same state |
| `Reconciling.ReconcileIdempotent` | internal/controller/ingress.go:180-183 | a second reconcile changes nothing, whatever the first one did |
| `Effects.OutcomeExact` | internal/controller/workload_reconciler.go:147-196 | fails iff someone else owns a media object, asks to be called again iff port or service of the upstream is missing |
| `Effects.MediaServiceSelects` | internal/controller/workload_reconciler.go:199-220 | the media service exists, selects the workload's pods, belongs to it and carries its group label |
| `Effects.MediaIngressRoutes` | internal/controller/ingress.go:61-98 | one rule, one backend for all paths, to the media service by its port serve; TLS names the rule's host |
| `Effects.InheritedHostLabels` | internal/controller/ingress.go:221-230 | the first label of an inherited host gets the suffix, all others stay |
| `Effects.ShapeExact` | internal/controller/ingress.go:32-59 | class, host, issuer and secret each come from their own annotation, else from their part of the source, else from the default |
| `Effects.MediaIngressShaped` | internal/controller/ingress.go:61-98 | and end up as class, host, annotation and TLS entry of the media ingress, whose other annotations stay |
| `Effects.TemplateShowsHost` | internal/controller/ingress.go:114-170 | a Deployment without explicit public URL gets the https URL of its media ingress into every sidecar container, unless one has it |
| `Effects.UpstreamPortExact` | internal/controller/workload_reconciler.go:223-243 | the annotated port, else the first port of the first container with ports |
| `Effects.UpstreamTurned` | internal/controller/workload_reconciler.go:244-248 | exactly the ports with the upstream number, as an int32, are turned to the proxy |
| `Controller.WorkloadReconciler.EnsureMediaService` | internal/controller/workload_reconciler.go:199-220 | creates or updates the media service, refused when someone else owns it |
| `Controller.WorkloadReconciler.ChooseShape` | internal/controller/ingress.go:32-59 | annotations first, then the source ingress, then the defaults |
| `Controller.WorkloadReconciler.EnsureMediaIngress` | internal/controller/ingress.go:21-108 | creates or updates the media ingress and carries its host into the sidecar's public URL |
| `Controller.WorkloadReconciler.EnsureSidecarPublicUrl` | internal/controller/ingress.go:114-170 | patches Deployments without an explicit public URL only |
| `Controller.WorkloadReconciler.PatchUpstreamService` | internal/controller/workload_reconciler.go:223-257 | retargets the service, or asks for a requeue when port or service is missing |
| `Controller.WorkloadReconciler.ReconcileWorkload` | internal/controller/workload_reconciler.go:147-196 | the code that fetches and writes back has the effect and the outcome of the reconcile function |
| `Inheritance.OwnershipStays` | internal/controller/workload_reconciler.go:199-206 | no reconcile changes who owns the media objects of a workload |
| `Inheritance.OriginStays` | internal/controller/ingress.go:172-206 | whom a workload inherits from is known before any media object exists, and no reconcile changes it |
| `Inheritance.OriginIsSource` | internal/controller/ingress.go:172-206 | once every workload has been reconciled, the search finds the media ingress of that workload |
| `Inheritance.PairAgrees` | internal/controller/ingress.go:32-108 | of two ingresses that inherit from each other, one host annotated, rewriting the second leaves the first as it should be |
| `Inheritance.StepKeepsSettled` | internal/controller/workload_reconciler.go:168-257 | reconciling one workload leaves another settled one settled, unless that inherits from it, it is not settled, and it does not inherit back with a host annotated |
| `Convergence.FixpointIsForever` | internal/controller/ingress.go:175-230 | from a fixed point no schedule changes anything, so hosts stay bounded |
| `Divergence.Converges` | internal/controller/ingress.go:21-108 | enough rounds in any order, with any selectors, owners and existing objects, reach a fixed point iff no proxied workload clashes with a media service and every two workloads that inherit from each other have a host annotated; enough is two and one for each step until the chains of inheritance end or run into such a pair |
| `Divergence.ConvergesWhenListed` | internal/controller/ingress.go:172-206 | the same with no condition on the chains, when the listing is sorted by name |
| `Divergence.ConvergesWhenDistinct` | internal/controller/ingress.go:172-206 | with pairwise different selectors and any listing a clash is the only obstacle, and name lengths bound the rounds |
| `Divergence.OriginIsKin` | internal/controller/ingress.go:184-230 | a workload inherits only from one with its selector or from the one called like itself without -media |
| `Divergence.LoopNeverSettles` | internal/controller/ingress.go:175-230 | while a set of workloads, hosts not annotated, inherit from within the set, no state is a fixed point, whatever else there is |
| `Divergence.LoopDiverges` | internal/controller/ingress.go:175-230 | and each round after the first adds six characters or more to each of their hosts |
| `Divergence.ClashNeverSettles` | internal/controller/workload_reconciler.go:206-248 | while a proxied workload is called like a media service and forwards to one of its ports there is no fixed point |
| `Divergence.RingNeverSettles` | internal/controller/ingress.go:32-59 | three workloads that inherit in a ring, classes different and not annotated, are never settled by reconciling them in that direction, whatever hosts are annotated |
| `Instances.TwinsLoop` | internal/controller/ingress.go:175-230 | any two fresh workloads with one selector and no annotated shape are such a set |
| `Instances.ClashExists` | internal/controller/workload_reconciler.go:206-248 | a clash on port 8090 |
| `Instances.RingExists` | internal/controller/ingress.go:172-206 | a ring with every host annotated and no clash that a schedule covering it never settles |
| `Webhook.MountContainer` | internal/webhook/v1/inject.go:196-207 | adds a read-write mount unless volume or path is in use |
| `Webhook.BuildProxyEnv` | internal/webhook/v1/inject.go:84-125 | the variables of the proxy container |
| `Webhook.PodObject.AddMediaVolume` | internal/webhook/v1/inject.go:152-170 | declares the media volume unless one of that name exists |
| `Webhook.PodObject.MountWorkloadContainers` | internal/webhook/v1/inject.go:177-192 | mounts into every container that is not an injected one |
| `Webhook.PodObject.AddSidecar` | internal/webhook/v1/inject.go:34-77 | appends sidecar, volume and mounts unless the sidecar exists |
| `Webhook.PodObject.AddProxy` | internal/webhook/v1/inject.go:80-133 | appends the proxy unless it exists |
| `Webhook.PodObject.Inject` | internal/webhook/v1/inject.go:14-31 | the pod after injection, labelled if anything was asked for |
| `Webhook.RequestIsMet` | internal/webhook/v1/inject.go:14-31 | afterwards the pod has what was requested, and only requests label it |
| `Webhook.InjectIdempotent` | internal/webhook/v1/inject.go:11-13 | injecting twice is injecting once |
| `Webhook.ExistingContainersStay` | internal/webhook/v1/inject.go:172-207 | existing containers keep order and content and gain at most one mount, exactly when; new ones come last |
| `Webhook.InitContainersStay` | internal/webhook/v1/inject.go:177-207 | init containers too, and none is added to them |
| `Webhook.InjectKeepsWellFormed` | internal/webhook/v1/inject.go:14-217 | unique container, volume and mount path names and declared mounts are kept iff no init container has an appended name |
| `Agreement.InjectedPod` | internal/webhook/v1/inject.go:34-133 | the appended containers have the configured images, the programs' ports, their mounts, and the environment their configuration is read from |
| `Agreement.InjectedVolumes` | internal/webhook/v1/inject.go:152-170 | the media volume is the claim asked for, read-only, or an empty directory, unless one is there; no other volume is added |
| `Agreement.AnnotatedPod` | internal/webhook/v1/annotations.go:109-140 | who is injected and which claim is mounted, from the annotations; accepted claim and secret names are labels |
| `Agreement.AnnotatedSidecar` | internal/webhook/v1/inject.go:43-57 | volume path and public URL annotations and the secrets reach the sidecar's configuration |
| `Agreement.AnnotatedProxyUrls` | internal/webhook/v1/inject.go:88-125 | mint URL, group and upstream port annotations reach the proxy's configuration |
| `Agreement.AnnotatedProxySettings` | internal/webhook/v1/inject.go:88-125 | and mode, expression, tokens and inline limit |
| `Agreement.ProxyMintsAtSidecar` | internal/webhook/v1/inject.go:34-133 | in one pod the proxy mints at the address the sidecar listens on, with the token it expects |
| `Agreement.IngressReachesFileServer` | internal/controller/ingress.go:70-74 | the media ingress leads to the address on which the injected sidecar serves files, and not to the one on which it mints |
| `Agreement.ServiceReachesProxy` | internal/controller/workload_reconciler.go:244-248 | the upstream port of a proxied workload's service leads to the address the injected proxy listens on |
| `Agreement.DefaultUrlNamesMediaService` | internal/webhook/v1/inject.go:51-55 | the default public URL names the media service the controller keeps, by its port for files |
| `Annotations.IsRfc1123Label` | internal/webhook/v1/annotations.go:144-161 | the loop decides the label syntax |
| `Annotations.Parse` | internal/webhook/v1/annotations.go:109-140 | rejected iff a value the request would use is malformed, with the matching reason |
| `ProxyConfig.LoadMode` | cmd/mcp-media-proxy/main.go:105-142 | mode and upstream agree, or a genuine problem is reported |
| `ProxyConfig.LoadConfig` | cmd/mcp-media-proxy/main.go:104-192 | accepts exactly the environments without a problem, and reports a problem the environment has |
| `ProxyConfig.InjectedValue` | internal/webhook/v1/inject.go:88-125 | each injected variable reads as chosen, whatever else is set |
| `ProxyConfig.InjectedProxyStarts` | internal/webhook/v1/inject.go:80-148 | an injected proxy starts iff mode, port, expression, mint URL, limit and secrets are good, and then runs as requested |
| `ProxyConfig.StandaloneIsClean` | internal/webhook/v1/inject.go:93-110 | a standalone proxy never carries an upstream URL or a tool expression |
| `ProxyConfig.FullNeedsUpstreamPort` | cmd/mcp-media-proxy/main.go:136-142 | a full-mode proxy without the port annotation is rejected |
| `SidecarConfig.LoadRoots` | cmd/media-sidecar/main.go:112-128 | the roots are the trimmed non-blank entries, accepted iff there is one and all are absolute |
| `SidecarConfig.RootsOfList` | cmd/media-sidecar/main.go:112-128 | entries are taken in order, without the white space around them and only that, blank ones left out |
| `SidecarConfig.LoadConfig` | cmd/media-sidecar/main.go:75-155 | accepts exactly the sound environments, and reports a problem the environment has |
| `SidecarConfig.LoadedIsValid` | cmd/media-sidecar/main.go:116-152 | what loads meets all that resolution and the TTL arithmetic require |
| `SidecarConfig.TrimSlashesExact` | internal/mint/handler.go:123 | all trailing slashes of the base are trimmed, and nothing else |
| `SidecarConfig.LoadedPassesNewHandler` | internal/mint/handler.go:95-119 | what loads passes the mint handler's validation, which would also pass a relative root |
| `SidecarConfig.InjectedSidecarStarts` | internal/webhook/v1/inject.go:43-57 | an injected sidecar starts iff secrets, public URL and every path entry are good, and listens where the mint URL points |
| `SidecarConfig.MountedPathIsTheRoot` | internal/webhook/v1/inject.go:46-72 | an ordinary absolute path is the sidecar's only root, the directory that is mounted |
| `Inline.ToolResult.IncludeInline` | internal/proxy/tools.go:116-146 | appends exactly one item and reports whether it is media |
| `Inline.CallTool` | internal/proxy/tools.go:75-112 | unknown modes and failed mints are errors; only inline modes attempt a fetch |
| `Inline.WholeOrError` | internal/proxy/tools.go:150-175 | below the largest limit a fetch gives the whole body within the limit or an error |
| `Inline.FetchErrorExact` | internal/proxy/tools.go:167-173 | too long iff one byte beyond the limit arrives, a failed read iff the stream breaks off before that |
| `Inline.FetchRefusals` | internal/proxy/tools.go:150-166 | which error an unusable base, no answer and another status give |
| `Inline.NoteExact` | internal/proxy/tools.go:116-146 | why a file is not included: type, announced size, or a failed fetch |
| `Inline.LargestLimitReadsNothing` | internal/proxy/tools.go:167 | at the largest int64 any answered fetch reads as empty |
| `Inline.WholeExactly` | internal/proxy/tools.go:167-173 | a complete body within the limit comes back whole iff the limit is not the largest int64 or the body is empty |
| `Inline.IncludedIsWhole` | internal/proxy/tools.go:116-146 | inline_included holds iff all conditions do, and then the item holds the whole body, as an image or as audio by its type |
| `Inline.MintedFileIsFetched` | internal/proxy/tools.go:150-175 | minting a file and fetching it through the file server gives its whole content while the URL lives, iff its resolved path is lexically under a root |

## Left out

- HTTP serving, request decoding and authentication, shutdown, logging and the MCP transports: a mint request arrives decoded, and range requests and response headers are not modelled.
- HMAC internals and constant-time comparison: the MAC is any function, and unforgeability is not claimed.
- Full URL parsing, regular expressions and durations: an http or https URL is split into scheme, user info, host and the rest, and re-encoding of user info, hosts and rests that are not in canonical form is not modelled, nor is escaping in a redirect of anything but percent signs; validity of other URLs, expressions and durations are parameters of the loaders.
- Full agreement of minting and serving is stated for a public base URL of scheme and host, after the trailing slashes that the handler trims; for what stands behind the host MediaUrl.BaseMustBeBare and MediaUrl.BaseMustComeDownToRoot say when the URL is read back at all.
- internal/mime, the Content-Disposition file name filter, the response enricher and the mode wiring: table lookups, a character filter and single branches.
- Changes of the file system between resolving and opening: the code declares that race out of scope.
- Mirror.Upstream.SyncTools: the downstream server handle is one object, and JSON schemas are values; tool calls themselves are opaque.
- MirrorProtocol: a sync applies in one step, so registry states halfway through its loops, which the SDK's own lock exposes to downstream listings, are not distinguished; notifications sent before a dial returns are not distinguished from changes before it.
- Kubernetes conflicts, caches, garbage collection and access rights: each reconcile reads the latest objects and its writes succeed; ingresses have service backends.
- Controller.WorkloadReconciler.ReconcileWorkload: the objects are values in maps; deep copies are new arrays, and aliasing between fetched objects is not modelled.
- Divergence.Converges: the objects of users and the list order stay as they are while the rounds run, and chains of inheritance end or run into a pair; on a ring of three or more the outcome depends on the schedule and the classes and issuers at hand, and only failing ones are shown.
- Nil and empty maps are the same in labels, annotations and selectors.
- Webhook.PodObject.Inject: the namespace gate before it is left out, as are variables that Kubernetes or the image add to a container and expansion of `$(NAME)` in values.
- A group mint URL is only required to be a valid URL; whether a service of that name exists is not claimed.
- SidecarConfig.LoadRoots: only ASCII white space is trimmed.
- Whether a workload can write to its mount of a claim that the volume itself declares read-only.
