# terraform-provider-azresourcegraph: query pagination and credential selection

This project models, in Dafny, the two pieces of logic in the
`azresourcegraph` Terraform provider that do more than forward values:

- **The `azresourcegraph_query` data source** (`DataSourceQuery`, file
  `data_source_query.dfy`). `BuildRequest` builds the Resource Graph request
  from the `query`, `subscription_ids` and `management_group_ids` attributes.
  The result format is always object-array and no skip token is set. Each scope
  list is copied slot by slot into a fresh slice (`CollectIds`).
  `DoResourceQuery` is the pagination loop. It calls the service. It appends a
  page's rows only when the page's count is present and positive and its data is
  present. It forwards the page's skip token into the next request. It stops at
  the first page without a token. On the first error it aborts and drops every
  row gathered so far. `ReadQuery` puts the two together and turns a failure
  into one error diagnostic, as the read function does before serialising the
  rows.
- **The provider's `configure` step** (`Provider`, file `provider.dfy`).
  `ChoosePath` is the credential choice. If any of tenant id, client id or
  client secret is empty, the CLI authorizer is used. Otherwise the
  client-credentials authorizer is used, built from exactly those three values.
  `ProviderState.Configure` sets the client's transport settings. It applies the
  chosen authorizer constructor, and only that one. On failure it appends one
  error diagnostic to the package-level `diags` list, which outlives the call,
  and returns no client together with the whole list. A second failed call
  therefore also reports the first call's diagnostic.

The remote `Resources` operation is a scripted service. `service[i]` is the
reply to the i-th call, either a page or the SDK's error text. `DoResourceQuery`
returns the requests it sent (`calls`), so its contract can say how many calls
it made and what each one carried. The Go loop ends only if the service
eventually fails or returns a page without a skip token. The model states this
as the precondition `EventuallyStops(service)`. `FirstStop` gives the position
of that reply. The two authorizer constructors are function parameters that
return an authorizer or an error text.

Shared modules: `Wrappers` (`Option` for nil pointers, `Result` for Go's
`(value, err)` pairs) and `Diagnostics` (the host's diagnostic: severity and
summary).

Durations are Go `time.Duration` values, counted in nanoseconds. The code sets
`PollingDelay` to the bare value 20, which is 20 nanoseconds, and
`RetryDuration` to 5 seconds. The model keeps both exactly as written.

A few facts about the code that the model keeps:

- The code has no default-credential flag and no ambient credential chain. A missing value falls back to the CLI authorizer.
- A missing credential is not a configuration error: the CLI authorizer is always tried.
- Query errors carry no page number. The message is `"query failed: "` followed by the cause.
- Nothing at run time rejects both scope attributes being set. The read function sets both fields, and only the schema's `ConflictsWith` keeps them apart.

## Model

| member | source | states |
|---|---|---|
| `DataSourceQuery.CollectIds` | internal/provider/data_source_query.go:71-75 | the slice has the list's length and slot i holds list element i |
| `DataSourceQuery.BuildRequest` | internal/provider/data_source_query.go:59-87 | the request carries the query unchanged, result format object-array and no skip token; each scope field is set exactly when its attribute is a non-empty set, and then equals the attribute's list element by element; both may be set, and neither when neither attribute is given |
| `DataSourceQuery.FirstStop` | internal/provider/data_source_query.go:112-121 | the returned position holds an error or a tokenless page, and no earlier reply does |
| `DataSourceQuery.DoResourceQuery` | internal/provider/data_source_query.go:108-126 | the number of calls is one plus the position of the first error or tokenless page; the first call sends the request unchanged, each later call carries the previous page's skip token and the same query, format and scopes; an error at the last call yields only `"query failed: "` plus the cause, with no rows; otherwise the result is the rows of all replies up to the last, in fetch order, counting only pages with a positive count and non-nil data |
| `DataSourceQuery.ReadQuery` | internal/provider/data_source_query.go:55-92 | every call sent carries the input query, object-array format, and each scope field equal to its attribute's list when that list is non-empty and nil otherwise; the first call has no skip token and later calls forward the previous token; a query failure becomes one error diagnostic with the error's text, and success yields the aggregated rows |
| `DataSourceQuery.CollectedAppend` | internal/provider/data_source_query.go:116-117 | aggregating two runs of replies equals concatenating their aggregates, so rows keep fetch order across pages |
| `DataSourceQuery.CollectedMembership` | internal/provider/data_source_query.go:116-117 | a row is in the aggregate if and only if some reply holds it in a page with a positive count and non-nil data |
| `DataSourceQuery.SilentRepliesAddNothing` | internal/provider/data_source_query.go:116-122 | replies with a nil or non-positive count or nil data add no rows to the aggregate |
| `DataSourceQuery.FirstStopIgnoresLaterReplies` | internal/provider/data_source_query.go:119-121 | replies after the first tokenless page or error never change where the loop stops, because they are never requested |
| `DataSourceQuery.TwoPageExample` | internal/provider/data_source_query.go:111-123 | a two-row page with token "tok1" followed by a one-row tokenless page stops at the second call and yields the three rows in order |
| `Provider.ChoosePath` | internal/provider/provider.go:72-82 | the CLI path is chosen exactly when the tenant id, client id or client secret is empty; otherwise the client-credentials configuration holds exactly those three values and the management resource |
| `Provider.BaseClient.constructor` | internal/provider/provider.go:67 | a new client has no authorizer yet |
| `Provider.ProviderState.constructor` | internal/provider/provider.go:13 | the package-level diagnostics start empty |
| `Provider.ProviderState.Configure` | internal/provider/provider.go:59-95 | only the selected constructor's outcome matters; on success the result holds a fresh client with that authorizer, polling delay 20, 20 retry attempts and a retry duration of 5 s, and no diagnostics, with the package list unchanged; on failure there is no client, exactly one error diagnostic with the path's message is appended to the package list, and the whole list is returned |
| `Provider.AccumulatedNeverShrinks` | internal/provider/provider.go:74-86 | the package-level diagnostics after any further calls still begin with the diagnostics recorded so far |
| `Provider.AccumulatedMembership` | internal/provider/provider.go:74-86 | a diagnostic is in the package-level list if and only if some earlier configure call failed with it |

## Left out

- The Terraform schemas of the data source and the provider, the provider's `New` and the package's `init`. They are host configuration with no logic. The scope exclusion (`ConflictsWith`) and `MinItems` live there.
- The Azure SDK calls themselves. `client.Resources` is the scripted reply sequence, and the two authorizer constructors are function parameters. The script gives the replies of one run in order, so a service whose answer depends on the request it receives is covered only through the run it produces.
- The cancellation context passed to `client.Resources`.
- JSON marshalling of the rows, including the fact that an empty result is a nil slice and marshals to `null`. Also left out: the random id from `uuid.New()`, `d.Set`, and reading attributes with `d.Get`. The model takes the set attributes' `List()` as given sequences, in whatever order the set yields them.
- `DataSourceQuery.DoResourceQuery`: the request's options are shared through a pointer, so the caller's options also see the last skip token. The model updates a value instead. The read function never reads the options after the call.
- The type assertion `resp.Data.([]interface{})`, which would panic on a non-array payload. With the object-array format the data is always an array, so the model stores it as a sequence of rows.
- `Count` is an `int64` in the SDK. Only its sign matters here, so it is modelled as an unbounded integer.
- The meaning of the polling and retry settings, and the defaults `resourcegraph.New()` gives them. These belong to the transport library. Only the values that configure assigns are modelled.
- The different client types stored by configure and used by the read function. The client is one opaque handle, and the read function's use of it is the scripted service.
- `Provider.ProviderState.Configure`: the claim that only one constructor is invoked is stated as "the outcome depends only on the selected constructor". Pure function parameters cannot record that a call was made.
