# Catalogue service: request observation and the logging decorator

This project models two parts of the catalogue ("socks") service's request pipeline and
proves properties of them in Dafny.

1. **The HTTP entry point's request observer** (`cmd/cataloguesvc/main.go`). Every request
   goes to the router through a response-writer wrapper. The wrapper starts at status 200,
   keeps the last code given to `WriteHeader`, and adds up the bytes the connection reports
   for each `Write`. When the handler is done, the middleware records one histogram sample,
   labelled with the method, the matched route's path template (or `""`) and the decimal
   status. It also writes one log line, whose severity is error from 500 up, warning from
   400 up and info below. A request whose URI is exactly `/healthz` goes straight to the
   router and is neither sampled nor logged.
2. **The logging decorator** (`logging.go`). `LoggingMiddleware()` wraps a service. Each of
   the five operations (`List`, `Count`, `Get`, `Tags`, `Health`) is handed unchanged to the
   wrapped service. The decorator returns that service's results as they are, then emits one
   key/value log record built from the arguments and the results.

Modules:

- `Wrappers` (`wrappers.dfy`): `Option`.
- `Decimal` (`decimal.dfy`): `strconv.Itoa`, modelled as `Itoa`, plus a parser that inverts it.
- `Strings` (`strings.dfy`): `strings.Join`, plus a splitter that recovers a comma-free tag
  list from its joined form.
- `CatalogueSvc` (`cataloguesvc.dfy`): the response writer and the middleware.
  - The response writer is class `ResponseWriter`, with the mutable fields `status` and
    `size`.
  - The connection's own writer is class `Downstream`. It keeps the `Write` and
    `WriteHeader` calls it is sent in one ordered sequence, `sent`. Its answer to each
    `Write` is the function `reply`.
  - The router is the datatype `Router`. `handle` gives the writer calls its handler makes
    for a request: writes, status codes, and header fields set through `Header()`.
    `matchTemplate` gives the route match and the template.
  - The histogram and the request log are ghost sequences of records in
    `RequestMiddleware`.
  - A pure trace model (`Event`, `Recorded`, `Run`) carries the lemmas about what the
    wrapper ends up holding.
- `Logging` (`logging.dfy`): the decorator wraps the wrapped service in class
  `LoggingMiddleware`.
  - The wrapped service is class `Service`. It answers as its `Behaviour` functions say,
    indexed by call number, so it may be stateful. It records every call made of it.
  - The log is class `Logger`, a sequence of records.
  - A record is the ordered list of key/value operands passed to `klog.Infoln`.

Clock readings (`time.Since`) are inputs: `latency` of `ServeHTTP` and `took` of each
decorated operation, as whole nanoseconds. The host split of `net.SplitHostPort` is the
parameter function `splitHostPort` of `RequestMiddleware`.

The bypass follows the code, which compares the whole `RequestURI` with `/healthz`. So
`/health`, and `/healthz` with a query string, are observed like any other request.

## Model

| member | source | states |
|---|---|---|
| `CatalogueSvc.ResponseWriter.constructor` | cmd/cataloguesvc/main.go:118 | a new wrapper is over the given writer with status 200 and size 0 |
| `CatalogueSvc.ResponseWriter.Write` | cmd/cataloguesvc/main.go:156-160 | the bytes go to the underlying writer; its (n, err) is returned unchanged; size grows by n; status is untouched |
| `CatalogueSvc.ResponseWriter.WriteHeader` | cmd/cataloguesvc/main.go:162-165 | the code is forwarded to the underlying writer, then becomes the status; size is untouched |
| `CatalogueSvc.Downstream.Write` | cmd/cataloguesvc/main.go:157 | the connection's writer appends the Write after every call it was sent before, and answers with its own reply for its k-th write |
| `CatalogueSvc.Downstream.WriteHeader` | cmd/cataloguesvc/main.go:163 | the connection's writer appends the WriteHeader after every call it was sent before; its count of writes is unchanged |
| `CatalogueSvc.RunSize` | cmd/cataloguesvc/main.go:156-160 | after any mix of Write and WriteHeader calls, size is the start size plus the sum of the byte counts reported |
| `CatalogueSvc.RunStatus` | cmd/cataloguesvc/main.go:162-165 | after any mix of calls, status is the code of the last WriteHeader, or the start status if there was none |
| `CatalogueSvc.DefaultStatusIsOK` | cmd/cataloguesvc/main.go:118 | a handler that never calls WriteHeader is recorded with status 200, and its size is the sum of the byte counts the connection reported |
| `CatalogueSvc.LastHeaderWins` | cmd/cataloguesvc/main.go:162-165 | a later WriteHeader overrides every earlier one, whatever writes come before or after it |
| `CatalogueSvc.SeverityOf` | cmd/cataloguesvc/main.go:136-142 | error if and only if status >= 500; warning if and only if 400 <= status < 500; info if and only if status < 400 |
| `CatalogueSvc.ObservationAgreesWithLog` | cmd/cataloguesvc/main.go:134-143 | the histogram's status label parses back to the status in the log line |
| `CatalogueSvc.StatusLabelsDistinguish` | cmd/cataloguesvc/main.go:134 | two samples with the same status label come from the same final status |
| `CatalogueSvc.ServeVia` | cmd/cataloguesvc/main.go:120 | the router's Write and WriteHeader calls reach the connection as one sequence, in exactly the order the handler made them; its header fields land in the connection's header map; and the wrapper ends in the state the trace model gives for them |
| `CatalogueSvc.ForwardedKeepsCodesAndChunks` | cmd/cataloguesvc/main.go:156-165 | what the connection is sent holds every status code and every byte slice of the handler's calls, each in its order |
| `CatalogueSvc.SetHeaderVia` | cmd/cataloguesvc/main.go:152-154 | a header field set through the map the wrapper's Header() returns is set in the connection's own header map |
| `CatalogueSvc.ServeDirect` | cmd/cataloguesvc/main.go:112-113 | the router's Write and WriteHeader calls reach the connection's writer directly, as one sequence in the order made, and its header fields land in the header map |
| `CatalogueSvc.RequestMiddleware.constructor` | cmd/cataloguesvc/main.go:98-109 | a new middleware over the router starts with an empty histogram and an empty log |
| `CatalogueSvc.RequestMiddleware.ServeHTTP` | cmd/cataloguesvc/main.go:111-144 | the request is routed once, and its Write and WriteHeader calls reach the connection in the order made. For exactly "/healthz" nothing is recorded. Otherwise one sample is added, labelled with the method, the matched template or "" when no route matches, and the decimal final status. One log line is added with the split-off host (the whole remote address when splitting fails), the final status and size, and the severity for that status. The final status is the last WriteHeader code or 200. The size is the sum of the reported byte counts |
| `Decimal.NatToDecimal` | cmd/cataloguesvc/main.go:134 | the decimal form of a natural number is a non-empty string of digits; zero is exactly "0", a one-digit number is its digit, and a larger number has no leading zero |
| `Decimal.Itoa` | cmd/cataloguesvc/main.go:134 | the status label is non-empty; it starts with '-' exactly for negative values, and is digits otherwise |
| `Decimal.ParseItoa` | cmd/cataloguesvc/main.go:134 | parsing the decimal label gives back the integer it was made from |
| `Decimal.ItoaInjective` | cmd/cataloguesvc/main.go:134 | distinct integers get distinct labels |
| `Strings.Join` | logging.go:26 | joining no tags gives "" |
| `Strings.JoinLength` | logging.go:26 | the ", "-joined tag text is exactly as long as the tags plus one separator between each two |
| `Strings.JoinStartsWithFirst` | logging.go:26 | the joined tag text starts with the first tag |
| `Strings.UnjoinJoin` | logging.go:26 | a non-empty list of comma-free tags is recovered from its ", "-joined form |
| `Logging.ListEntry` | logging.go:24-33 | the List record has exactly the keys method, tags, order, pageNum, pageSize, result, err, took, in that order: method "List", the tags joined with ", ", order, pageNum and pageSize as given, the number of socks as result, the returned error and the elapsed time |
| `Logging.CountEntry` | logging.go:40-46 | the Count record has exactly the keys method, tags, result, err, took, in that order: method "Count", the joined tags, the returned count as result, the returned error and the elapsed time |
| `Logging.GetEntry` | logging.go:53-59 | the Get record has exactly the keys method, id, sock, err, took, in that order: method "Get", the requested id, the returned sock's ID, the returned error and the elapsed time |
| `Logging.TagsEntry` | logging.go:66-71 | the Tags record has exactly the keys method, result, err, took, in that order: method "Tags", the number of tags returned, the returned error and the elapsed time |
| `Logging.HealthEntry` | logging.go:78-82 | the Health record has exactly the keys method, result, took, in that order, so no "err" key: method "Health", the number of entries returned and the elapsed time |
| `Logging.TagsRecoverable` | logging.go:26-43 | the tags of a record can be read back from its "tags" value when there is at least one tag and none contains a comma |
| `Logging.Logger.Infoln` | logging.go:24 | each log call appends exactly its record to the log |
| `Logging.Service.List` | logging.go:35 | the wrapped service answers List as its behaviour says and records the call |
| `Logging.Service.Count` | logging.go:48 | the wrapped service answers Count as its behaviour says and records the call |
| `Logging.Service.Get` | logging.go:61 | the wrapped service answers Get as its behaviour says and records the call |
| `Logging.Service.Tags` | logging.go:73 | the wrapped service answers Tags as its behaviour says and records the call |
| `Logging.Service.Health` | logging.go:84 | the wrapped service answers Health as its behaviour says and records the call |
| `Logging.LoggingMiddleware.constructor` | logging.go:10-16 | the decorator holds the given service as next |
| `Logging.LoggingMiddleware.List` | logging.go:22-36 | calls next.List once with the same arguments, returns its socks and error unchanged, and appends exactly one List record made from those results |
| `Logging.LoggingMiddleware.Count` | logging.go:38-49 | calls next.Count once with the same tags, returns its count and error unchanged, and appends exactly one Count record |
| `Logging.LoggingMiddleware.Get` | logging.go:51-62 | calls next.Get once with the same id, returns its sock and error unchanged, and appends exactly one Get record |
| `Logging.LoggingMiddleware.Tags` | logging.go:64-74 | calls next.Tags once, returns its tags and error unchanged, and appends exactly one Tags record |
| `Logging.LoggingMiddleware.Health` | logging.go:76-85 | calls next.Health once, returns its entries unchanged, and appends exactly one Health record |

## Left out

- Process start-up (`main`): flag parsing, opening and pinging the database, listing the
  image directory and logging paths. This is start-up I/O.
- The listener goroutine, the signal goroutine and the error channel. This is concurrency
  and process plumbing.
- Building and registering the Prometheus histogram, and its buckets. A sample is a record
  appended to `histogram`.
- Wall-clock time. `latency` and `took` are inputs in whole nanoseconds, and the log line's
  milliseconds are `latency / 1000000`.
- `CatalogueSvc.RequestMiddleware.ServeHTTP`: the histogram sample keeps the latency in
  nanoseconds rather than the float seconds the histogram observes, because floating point
  is not modelled.
- `net.SplitHostPort`, request matching inside the router, and `GetPathTemplate`. These are
  library code. They appear as the abstract functions `splitHostPort` and
  `Router.matchTemplate`.
- The text layout of log lines (klog's format string and its operand spacing). Only the
  fields are kept.
- `CatalogueSvc.ServeVia`: the router's handler is a fixed list of writer calls per request.
  It cannot react to the result of an earlier `Write`. Reading header fields, and header
  operations other than `Set`, are not modelled.
- `CatalogueSvc.ServeVia`: what the client receives is not modelled. net/http sends status
  200 on a Write that comes before any WriteHeader, and ignores a later WriteHeader. The
  model keeps the ordered calls the connection's writer is sent, so that status can be read
  off them, but it does not model the connection's own rule.
- `CatalogueSvc.SetHeaderVia`: `http.Header.Set` canonicalises the key's letter case; here
  the key is used as given.
- `CatalogueSvc.ResponseWriter.Write`: `size` is an unbounded integer. Go's `int` is 64 bits
  on 64-bit targets, where it could wrap only after 2^63 bytes on one response. On 32-bit
  targets it is 32 bits, and `w.size += n` would wrap after about 2 GiB; that wrap is not
  modelled.
- `Logging.LoggingMiddleware.List`: a panic in the wrapped service is not modelled. Go's
  `defer` would still log and then re-raise it; here every call returns.
- The same holds for `Count`, `Get`, `Tags` and `Health`.
- Nesting several decorators. Dafny traits are not used, so `next` has the concrete class
  `Service`, not the service interface.
- The wrapped service's implementation, the endpoints and the HTTP transport are not part of
  this model. The wrapped service is represented by its `Behaviour`.
- A sock's price is a `real`, not a 32-bit float.
