# Adaptive throttle, cache-cluster routing and MySQL field selection of goa

A Dafny model of three parts of the goa Go toolkit:

- **Breaker** (`google_breaker.dfy`) — the client-side throttle from the
  "Client-Side Throttling" section of the chapter "Handling Overload" in
  Google's SRE book. `Accept` sums the request and accept counters of the
  rolling window. It computes
  `dropRatio = max(0, (requests − 5 − 1.5·accepts)/(requests + 1))`, sets the
  informational `Closed`/`Open` flag and rejects with `ServiceUnavailable`
  when the ratio is positive and the sampler says true. `Allow` and `DoReq`
  wrap that decision and record each admitted request's outcome back into
  the window: `Add(1)` for a success, `Add(0)` for a failure.
- **Container** (`container.dfy`) — the rolling window, modelled as a ring of
  `Bucket(requests, accepts)` with a current slot, and the error window.
- **Throttle** (`logged_throttle.dfy`) — the logged throttle. It records
  failure reasons in an error window and sends one report to a sink each
  time a call answers `ServiceUnavailable`.
- **CacheCluster** (`cache_cluster.dfy`) — `Del` groups keys by owning node.
  The single-key operations route one key, or answer `errNotFound`.
- **MysqlGen** (`mysql_gen.dfy`) — which fields `genInsert` turns into
  insert columns, and which fields `genFindOneByField` writes finders for.

How Go maps onto the model:

- The random sampler `TrueOnProb(dropRatio)` is a boolean argument `sample`.
- The protected `req`, the classifier `acceptable` and the `fallback` are
  arguments. Each of them may panic.
- A Go panic is the `Panics` outcome of
  `Call<T> = Returns(value) | Panics(cause)`.
- `DoReq` also returns `invoked`: whether `req` was run.
- The consistent-hash dispatcher is an arbitrary `Key -> Option<N>` function.
  A node's answers are function arguments.
- `ToCamel`, `UnTitle` and template execution are the function arguments
  `Naming` and `execute`.
- The drop ratio is computed on exact reals. Since `K = 3/2`, "ratio > 0" is
  exactly `2·(requests − 5) > 3·accepts` (`Breaker.DropRatioPositive`).

Behaviour of the Go code that the model keeps:

- A rejection by `accept` adds nothing to the error window. It only triggers
  the report. Entries come only from failed classifications in `doReq` and
  from `promiseWithReason.Reject`.
- `loggedThrottle.doReq` reports whenever the error it returns is the
  sentinel. That includes a sentinel coming from `req` or from the fallback.
- `fallback(err)` runs before `doReq` installs its deferred recover. A panic
  in the fallback therefore propagates with nothing recorded, and the logged
  throttle's `logError` does not run.
- Suppose the caller's `acceptable` says "not acceptable" for a nil error.
  The recording wrapper then reads `err.Error()` on nil, which panics inside
  the inner `doReq`. The deferred recover there marks a failure and
  re-panics. `Throttle.Recording` models this as a `NilDereference` panic.
- `loggedThrottle.allow` always returns a `promiseWithReason`, even around a
  nil inner promise. Calling `Accept` or `Reject` on such a wrapper panics.
  `Reject` first appends the reason.

## Model

| member | source | states |
|---|---|---|
| `Container.TotalUpdate` | lib/breaker/google_breaker.go:119-124 | replacing one bucket changes the summed requests and accepts by exactly that bucket's difference |
| `Container.TotalOfEmptyBuckets` | lib/breaker/google_breaker.go:34-36 | a freshly created window sums to zero requests and zero accepts |
| `Container.RollingWindow.constructor` | lib/breaker/google_breaker.go:35-36 | a new window has the requested number of empty buckets and totals of zero |
| `Container.RollingWindow.Added` | lib/breaker/google_breaker.go:127-133 | after recording weight v, the current bucket has one more request and v more accepts, the other buckets are unchanged, and the totals grow by (1, v) |
| `Container.RollingWindow.Add` | lib/breaker/google_breaker.go:127-133 | updates the window to exactly `Added(v)` and keeps the current slot |
| `Container.ErrorWindow.constructor` | lib/breaker/logged_throttle.go:37 | a new error window is empty |
| `Container.ErrorWindow.Add` | lib/breaker/logged_throttle.go:53 | appends exactly one message at the end |
| `Breaker.DropRatio` | lib/breaker/google_breaker.go:93-95 | the drop ratio always lies in [0, 1) |
| `Breaker.DropRatioPositive` | lib/breaker/google_breaker.go:93-98 | the ratio is positive iff 2·(requests − 5) > 3·accepts |
| `Breaker.ColdStart` | lib/breaker/google_breaker.go:93-103 | with at most 5 requests the ratio is 0, whatever the accepts |
| `Breaker.ExampleAllAccepted` | lib/breaker/google_breaker.go:93-95 | 10 requests with 10 accepts give ratio 0 |
| `Breaker.ExampleNoneAccepted` | lib/breaker/google_breaker.go:93-95 | 1000 requests with 0 accepts give ratio 995/1001 |
| `Breaker.Decide` | lib/breaker/google_breaker.go:98-115 | rejects, always with `ServiceUnavailable`, iff 2·(requests − 5) > 3·accepts and the sampler says true |
| `Breaker.NextState` | lib/breaker/google_breaker.go:98-108 | the flag after `accept` is `Open` iff the ratio is positive, otherwise `Closed` |
| `Breaker.AllAcceptedNeverThrottles` | lib/breaker/google_breaker.go:93-103 | if accepts ≥ requests, nothing is rejected and the flag ends `Closed` |
| `Breaker.SuccessesKeepClosed` | lib/breaker/google_breaker.go:75-80 | if every recorded request succeeded, recording one more success leaves the next decision admitting and `Closed` |
| `Breaker.Fallback` | lib/breaker/google_breaker.go:59-63 | a rejected call's outcome: the fallback's outcome on the rejection error, a panic included, or the rejection error itself when there is no fallback |
| `Breaker.Admitted` | lib/breaker/google_breaker.go:67-83 | an admitted call's outcome: a panicking request's panic, the classifier's panic if it panics on the request's error, otherwise the request's own error; a normal return is always the request's own |
| `Breaker.Succeeded` | lib/breaker/google_breaker.go:75-80 | an admitted call counts as a success only if the request returned normally and its outcome is passed back; a panicking request never counts as a success |
| `Breaker.AdmittedPassesErrorThrough` | lib/breaker/google_breaker.go:75-83 | a request that returns normally gets its error back unchanged; it is marked a success iff `acceptable` said true |
| `Breaker.GoogleBreaker.constructor` | lib/breaker/google_breaker.go:34-43 | a new breaker is `Closed` over a fresh window of 40 empty buckets |
| `Breaker.GoogleBreaker.History` | lib/breaker/google_breaker.go:119-125 | returns the sums of requests and accepts over all buckets |
| `Breaker.GoogleBreaker.Accept` | lib/breaker/google_breaker.go:87-116 | the result is `Decide(totals, sample)`, which does not depend on the prior flag; the flag becomes `NextState(totals)`; the window is untouched |
| `Breaker.GoogleBreaker.Allow` | lib/breaker/google_breaker.go:46-53 | gives a fresh promise bound to this breaker and nil iff `accept` admits; otherwise nil and the same error |
| `Breaker.GoogleBreaker.DoReq` | lib/breaker/google_breaker.go:55-84 | on rejection `req` is not run, nothing is recorded and the result is the outcome of `fallback(err)`, a panic included, or `err`; on admission exactly one outcome is recorded, a success iff `req` returned and `acceptable` said true; a panic is recorded as a failure and propagated; the result is `req`'s error |
| `Breaker.GoogleBreaker.MarkSuccess` | lib/breaker/google_breaker.go:127-129 | records one request and one accept |
| `Breaker.GoogleBreaker.MarkFailure` | lib/breaker/google_breaker.go:131-133 | records one request and no accept |
| `Breaker.GooglePromise.constructor` | lib/breaker/google_breaker.go:52 | the promise is bound to the breaker that admitted the request |
| `Breaker.GooglePromise.Accept` | lib/breaker/google_breaker.go:135-137 | adds one request and one accept to the owning breaker's window and keeps its current slot |
| `Breaker.GooglePromise.Reject` | lib/breaker/google_breaker.go:139-141 | adds one request and zero accepts to the owning breaker's window and keeps its current slot |
| `Throttle.Recording` | lib/breaker/logged_throttle.go:50-56 | the classifier handed to the inner breaker: for every non-nil error, and for every answer other than "not acceptable", it gives the caller's classification unchanged; "not acceptable" for a nil error becomes a nil-dereference panic (`err.Error()` on nil) |
| `Throttle.ErrorText` | lib/breaker/logged_throttle.go:53 | `err.Error()`: a failure's own message, or the sentinel's text |
| `Throttle.ReportSink.constructor` | lib/breaker/logged_throttle.go:61-63 | the report sink standing for `stat.Report` starts with no reports |
| `Throttle.ReportSink.Emit` | lib/breaker/logged_throttle.go:61-63 | one `stat.Report` call appends exactly one report at the end |
| `Throttle.RecordingKeepsSuccess` | lib/breaker/logged_throttle.go:49-57 | the wrapper never changes which admitted requests are recorded as successes |
| `Throttle.PromiseWithReason.constructor` | lib/breaker/logged_throttle.go:43-46 | wraps exactly the given inner promise and error window |
| `Throttle.PromiseWithReason.Accept` | lib/breaker/logged_throttle.go:68-70 | forwards once to the inner `Accept` (one request, one accept) and leaves the error window unchanged; the inner window keeps its current slot; panics on a nil inner promise |
| `Throttle.PromiseWithReason.Reject` | lib/breaker/logged_throttle.go:72-75 | appends the reason to the error window, then forwards once to the inner `Reject` (one request, no accept), the inner window keeping its current slot; panics on a nil inner promise after the append |
| `Throttle.LoggedThrottle.constructor` | lib/breaker/logged_throttle.go:33-39 | keeps the name and the wrapped breaker, with a new empty error window |
| `Throttle.LoggedThrottle.LogError` | lib/breaker/logged_throttle.go:59-66 | returns its argument unchanged; emits exactly one report, carrying the throttle's name and the error window, iff the error is `ServiceUnavailable` |
| `Throttle.LoggedThrottle.Allow` | lib/breaker/logged_throttle.go:41-47 | always returns a new wrapper around the inner promise, which is nil on rejection, together with the inner error unchanged; reports once per rejection |
| `Throttle.LoggedThrottle.DoReq` | lib/breaker/logged_throttle.go:49-57 | returns what the inner `DoReq` returns with the recording classifier, and the inner window keeps its current slot; appends `err.Error()` exactly when the request returned a non-nil error that `acceptable` rejected; reports once iff the result is `ServiceUnavailable`; on rejection the result is the fallback's outcome, and a panicking fallback gives no report |
| `CacheCluster.KeysOfMembership` | lib/store/cache/cluster.go:64-71 | a key is in a node's group iff it is an input key that the dispatcher routes to that node |
| `CacheCluster.OwnersMembership` | lib/store/cache/cluster.go:64-72 | a node is contacted iff some input key routes to it, and then its group is non-empty |
| `CacheCluster.MissingErrorsCount` | lib/store/cache/cluster.go:64-69 | an unroutable key occurring m times among the keys has exactly m `KeyMissing` errors, and every error names an input key that has no node |
| `CacheCluster.Del` | lib/store/cache/cluster.go:50-81 | no keys: nil, no node contacted; one key: `errNotFound` if it has no node, else that key alone delegated to its node and that node's answer returned; several keys: each owning node is called exactly once with its keys in input order, unroutable keys go nowhere, the error collector is applied to the missing-key errors followed by one error per failing node |
| `CacheCluster.GroupByNode` | lib/store/cache/cluster.go:62-72 | the groups are exactly the owning nodes, each with the keys routed to it in input order; the errors are one `KeyMissing` per unroutable key, in input order |
| `CacheCluster.DelGroups` | lib/store/cache/cluster.go:73-77 | every group's node is called exactly once with its keys; the errors are one per failing node call, in call order |
| `CacheCluster.Dispatch` | lib/store/cache/cluster.go:83-126 | `Get`/`Set`/`SetEx`/`Take`/`TakeEx` answer `errNotFound` when the key has no node, otherwise the owning node's answer to the unchanged operation |
| `CacheCluster.RoutingAgrees` | lib/store/cache/cluster.go:56-71 | a single-key operation goes to the node whose `Del` group holds the key; a key it cannot route is one `Del` reports as missing |
| `MysqlGen.InsertColumnsMembership` | tools/goa/mysql/gen/insert.go:14-22 | a field is an insert column iff it is a table field whose camel name is neither `CreatedAt` nor `UpdatedAt` and which is not an auto-increment primary key |
| `MysqlGen.InsertColumnsExclusions` | tools/goa/mysql/gen/insert.go:15-21 | timestamp fields are never columns; the primary key is a column iff it is not auto-increment |
| `MysqlGen.InsertArgs` | tools/goa/mysql/gen/insert.go:11-25 | `args` and `values` have one entry per insert column, in field order: each arg is `?` and each value is `data.` + the field's camel name |
| `MysqlGen.InsertDataFor` | tools/goa/mysql/gen/insert.go:26-33 | the insert template's map: `withCache`, the camel table name and its un-titled form, and the two column lists joined, both empty when there is no insert column |
| `MysqlGen.GenInsert` | tools/goa/mysql/gen/insert.go:10-38 | renders the template with both lists joined by `", "`; on a template error the result is `("", err)` |
| `MysqlGen.FinderFieldsMembership` | tools/goa/mysql/gen/find_one_by_field.go:15-18 | exactly the unique keys that are not the primary key get a finder |
| `MysqlGen.CacheKeyOf` | tools/goa/mysql/gen/find_one_by_field.go:25-27 | a cache-key lookup: the table's entry for the name, or the zero value with empty strings when there is none |
| `MysqlGen.FinderDataFor` | tools/goa/mysql/gen/find_one_by_field.go:19-33 | the 12 entries of one finder's template map: camel and un-titled table and field names, the parameter `lowerField dataType`, `withCache`, the field's cache key name and expression, the primary key's cache-key `left`, the camel primary key and both original names |
| `MysqlGen.SnippetsSuccess` | tools/goa/mysql/gen/find_one_by_field.go:15-37 | a successful rendering has one snippet per finder field, in field order, each the template's output for that field |
| `MysqlGen.SnippetsFailure` | tools/goa/mysql/gen/find_one_by_field.go:20-36 | a failed rendering carries the error of the first field whose template fails, all earlier ones having succeeded |
| `MysqlGen.SnippetsFailureSticks` | tools/goa/mysql/gen/find_one_by_field.go:34-36 | once a template has failed, later fields do not change the outcome |
| `MysqlGen.SnippetsStep` | tools/goa/mysql/gen/find_one_by_field.go:15-37 | a loop step that does not return keeps the list equal to the rendering of the finder fields seen so far: unchanged for a skipped field, one more snippet for a rendered one |
| `MysqlGen.SnippetsExit` | tools/goa/mysql/gen/find_one_by_field.go:34-36 | when the first failing template is at field i, the rendering of all finder fields fails with that error |
| `MysqlGen.GenFindOneByField` | tools/goa/mysql/gen/find_one_by_field.go:11-40 | the snippets of the finder fields joined by `"\n"` and nil, or `("", err)` with the first template error |
| `MysqlGen.NoFinderFields` | tools/goa/mysql/gen/find_one_by_field.go:39 | with no qualifying field the snippets are empty and the result is `""`, nil |

## Left out

- Rolling-window aging is not modelled: bucket rotation after elapsed time, zeroing of skipped buckets and the staleness filter of `Reduce`. `Container.RollingWindow` stands in for the Go `container.RollingWindow` without its aging: it is a ring whose current slot never moves.
- The sampler's probability distribution (`mathx.Prob`): each decision takes the sampler's answer as an argument.
- Concurrency is not modelled: the atomic compare-and-swap on `state` and the window's mutex. Calls are treated as sequential, so each CAS is an assignment.
- Floating point: `float64` rounding in the drop ratio is not modelled. The ratio is an exact real.
- `googleBreaker.k` always equals `K` (google_breaker.go:38), so the model uses the constant `K` rather than a field.
- Report contents: the model does not produce the formatted message, the process name or the pid. A report is the throttle's name plus the error window's entries. The global `stat.Report` sink is an object handed to the throttle's constructor.
- `Container.ErrorWindow` stands in for the Go `container.ErrorWindow` without its timestamps and its bounded eviction: it is a growing sequence.
- The sentinel's message text is defined in a file that is not part of this model. `Throttle.ServiceUnavailableText` is a placeholder for it.
- `LoggedThrottle` wraps a `GoogleBreaker` directly rather than any implementation of the `internalThrottle` interface: traits are not used here.
- `Throttle.LoggedThrottle.DoReq` appends the failure reason after the inner call returns, not in the middle of it. The error window and the breaker's window are separate objects, so the final state is the same.
- `NewCacheCluster` is not modelled: it exits the process when no node is configured, and it builds consistent-hash internals that are not part of this model.
- `errorx.Errors.Error()` is not part of this model. It is the function argument `collect` of `CacheCluster.Del`, so the model promises nothing about its result (for instance, that it is nil only for an empty list).
- `CacheCluster.Del` fixes no order for its node calls, because the order of Go map iteration is unspecified.
- `CacheCluster.Dispatch` does not carry the `dest` and `queryFn` arguments of the node calls. Their effects belong to the node, which is abstract here.
- `ToCamel`, `UnTitle`, template parsing and execution are arbitrary functions. Parse errors are not modelled.
