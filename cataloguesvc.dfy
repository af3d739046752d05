/** The request-observing wrapper of the catalogue service's HTTP entry point: a response
    writer that remembers the status code and counts the bytes written through it, and the
    middleware that routes each request, then records one histogram observation and one
    log line for it (the liveness probe "/healthz" excepted). */
module CatalogueSvc {
  import opened Wrappers
  import Decimal

  newtype Byte = x: int | 0 <= x < 256

  const StatusOK := 200
  const StatusBadRequest := 400
  const StatusInternalServerError := 500

  /** The one request URI that bypasses observation. */
  const HealthzURI := "/healthz"

  const NanosPerMilli := 1000000

  // ---------------------------------------------------------------------------------
  // What the wrapper sees: a trace of events and the (status, size) pair it keeps.
  // ---------------------------------------------------------------------------------

  /** One call that reached the wrapper: a Write the underlying writer answered with n
      bytes, or a WriteHeader with a status code. */
  datatype Event = Wrote(n: nat) | HeaderWritten(code: int)

  /** The two fields the wrapper keeps. */
  datatype Recorded = Recorded(status: int, size: int)

  /** A freshly made wrapper: status 200 until WriteHeader says otherwise, nothing written. */
  const Fresh := Recorded(StatusOK, 0)

  function Step(r: Recorded, e: Event): Recorded {
    match e
    case Wrote(n) => r.(size := r.size + n)
    case HeaderWritten(code) => r.(status := code)
  }

  function Run(r: Recorded, es: seq<Event>): Recorded
    decreases |es|
  {
    if es == [] then r else Run(Step(r, es[0]), es[1..])
  }

  /** Sum of the byte counts the underlying writer reported. */
  function BytesWritten(es: seq<Event>): nat
    decreases |es|
  {
    if es == [] then 0
    else (if es[0].Wrote? then es[0].n else 0) + BytesWritten(es[1..])
  }

  /** The code of the last WriteHeader in the trace, or dflt if there is none. */
  function LastCode(es: seq<Event>, dflt: int): int
    decreases |es|
  {
    if es == [] then dflt
    else if es[|es| - 1].HeaderWritten? then es[|es| - 1].code
    else LastCode(es[..|es| - 1], dflt)
  }

  predicate NoHeaderWritten(es: seq<Event>) {
    forall k :: 0 <= k < |es| ==> es[k].Wrote?
  }

  lemma {:induction false} RunAppend(r: Recorded, a: seq<Event>, b: seq<Event>)
    ensures Run(r, a + b) == Run(Run(r, a), b)
    decreases |a|
  {
    if a != [] {
      assert (a + b)[0] == a[0] && (a + b)[1..] == a[1..] + b;
      RunAppend(Step(r, a[0]), a[1..], b);
    } else {
      assert a + b == b;
    }
  }

  /** The size after any trace is the starting size plus every byte count reported;
      WriteHeader never changes it. */
  lemma {:induction false} RunSize(r: Recorded, es: seq<Event>)
    ensures Run(r, es).size == r.size + BytesWritten(es)
    decreases |es|
  {
    if es != [] {
      RunSize(Step(r, es[0]), es[1..]);
    }
  }

  /** The status after any trace is the last code written, or the starting status if
      WriteHeader was never called; Write never changes it. */
  lemma {:induction false} RunStatus(r: Recorded, es: seq<Event>)
    ensures Run(r, es).status == LastCode(es, r.status)
    decreases |es|
  {
    if es != [] {
      var init, last := es[..|es| - 1], es[|es| - 1];
      assert es == init + [last];
      RunAppend(r, init, [last]);
      RunStatus(r, init);
    }
  }

  lemma {:induction false} LastCodeWithoutHeader(es: seq<Event>, dflt: int)
    requires NoHeaderWritten(es)
    ensures LastCode(es, dflt) == dflt
    decreases |es|
  {
    if es != [] {
      LastCodeWithoutHeader(es[..|es| - 1], dflt);
    }
  }

  /** A handler that never calls WriteHeader is recorded with status 200. */
  lemma DefaultStatusIsOK(es: seq<Event>)
    requires NoHeaderWritten(es)
    ensures Run(Fresh, es).status == StatusOK
    ensures Run(Fresh, es).size == BytesWritten(es)
  {
    RunStatus(Fresh, es);
    RunSize(Fresh, es);
    LastCodeWithoutHeader(es, Fresh.status);
  }

  /** A later WriteHeader overrides an earlier one: the last code wins, whatever was
      written before it or after it. */
  lemma LastHeaderWins(r: Recorded, before: seq<Event>, code: int, after: seq<Event>)
    requires NoHeaderWritten(after)
    ensures Run(r, before + [HeaderWritten(code)] + after).status == code
  {
    var s := Run(r, before + [HeaderWritten(code)]);
    RunAppend(r, before + [HeaderWritten(code)], after);
    RunAppend(r, before, [HeaderWritten(code)]);
    RunStatus(s, after);
    LastCodeWithoutHeader(after, s.status);
  }

  // ---------------------------------------------------------------------------------
  // Requests, labels, severities.
  // ---------------------------------------------------------------------------------

  datatype Request = Request(verb: string, requestURI: string, remoteAddr: string, proto: string)

  datatype Severity = Info | Warning | Error

  /** The histogram sample: the three label values and the latency in nanoseconds. */
  datatype Observation = Observation(verb: string, path: string, statusCode: string, latency: nat)

  /** The fields of the per-request log line, without its text layout. */
  datatype LogLine = LogLine(severity: Severity, host: string, verb: string, requestURI: string,
                             proto: string, status: int, size: int, millis: nat)

  /** The log function chosen for a final status: error from 500 up, warning from 400
      up, info below. */
  function SeverityOf(status: int): (s: Severity)
    ensures s == Error <==> status >= StatusInternalServerError
    ensures s == Warning <==> StatusBadRequest <= status < StatusInternalServerError
    ensures s == Info <==> status < StatusBadRequest
  {
    if status >= StatusInternalServerError then Error
    else if status >= StatusBadRequest then Warning
    else Info
  }

  function ObservationOf(r: Request, path: string, final: Recorded, latency: nat): Observation {
    Observation(r.verb, path, Decimal.Itoa(final.status), latency)
  }

  function LogLineOf(r: Request, host: string, final: Recorded, latency: nat): LogLine {
    LogLine(SeverityOf(final.status), host, r.verb, r.requestURI, r.proto,
            final.status, final.size, latency / NanosPerMilli)
  }

  /** The observation and the log line of one request carry the same final status: the
      status label parses back to the status in the log line. */
  lemma ObservationAgreesWithLog(r: Request, path: string, host: string, final: Recorded, latency: nat)
    ensures Decimal.ParseDecimal(ObservationOf(r, path, final, latency).statusCode)
            == Some(LogLineOf(r, host, final, latency).status)
  {
    Decimal.ParseItoa(final.status);
  }

  /** Two observations with the same status label come from the same final status. */
  lemma StatusLabelsDistinguish(r1: Request, p1: string, f1: Recorded, l1: nat,
                                r2: Request, p2: string, f2: Recorded, l2: nat)
    requires ObservationOf(r1, p1, f1, l1).statusCode == ObservationOf(r2, p2, f2, l2).statusCode
    ensures f1.status == f2.status
  {
    Decimal.ItoaInjective(f1.status, f2.status);
  }

  // ---------------------------------------------------------------------------------
  // The underlying writer and the wrapper.
  // ---------------------------------------------------------------------------------

  datatype IoError = IoError(message: string)

  /** What the underlying writer answers to one Write. */
  datatype Reply = Reply(n: nat, err: Option<IoError>)

  /** A call a handler makes on the writer it was given: a Write, a WriteHeader, or
      setting one header field through the map Header() returns (http.Header.Set). */
  datatype WriterCall = Write(data: seq<Byte>) | WriteHeader(code: int) | SetHeader(key: string, value: string)

  /** The header map shared by the underlying writer and every wrapper around it. */
  class Header {
    var fields: map<string, seq<string>>

    constructor ()
      ensures fields == map[]
    {
      fields := map[];
    }

    /** http.Header.Set: key now holds the single value given. */
    method Set(key: string, value: string)
      modifies this
      ensures fields == old(fields)[key := [value]]
    {
      fields := fields[key := [value]];
    }
  }

  /** The connection's own http.ResponseWriter. It keeps the Write and WriteHeader calls it
      is sent, in the order they arrive. How it answers a Write (bytes taken, error) is not
      visible here: `reply(k, b)` is its answer to its k-th Write, of b. */
  class Downstream {
    const header: Header
    const reply: (nat, seq<Byte>) -> Reply
    var sent: seq<WriterCall>

    constructor (header: Header, reply: (nat, seq<Byte>) -> Reply)
      ensures this.header == header && this.reply == reply
      ensures sent == []
    {
      this.header := header;
      this.reply := reply;
      sent := [];
    }

    /** The number of Writes taken so far. */
    function Writes(): nat
      reads this
    {
      |Chunks(sent)|
    }

    method Write(b: seq<Byte>) returns (n: nat, err: Option<IoError>)
      modifies this
      ensures Reply(n, err) == reply(old(Writes()), b)
      ensures sent == old(sent) + [WriterCall.Write(b)]
      ensures Writes() == old(Writes()) + 1
    {
      var answer := reply(|Chunks(sent)|, b);
      ChunksAppend(sent, [WriterCall.Write(b)]);
      sent := sent + [WriterCall.Write(b)];
      n, err := answer.n, answer.err;
    }

    method WriteHeader(code: int)
      modifies this
      ensures sent == old(sent) + [WriterCall.WriteHeader(code)]
      ensures Writes() == old(Writes())
    {
      ChunksAppend(sent, [WriterCall.WriteHeader(code)]);
      sent := sent + [WriterCall.WriteHeader(code)];
    }
  }

  /** The wrapper handed to the router: it forwards everything to w and keeps the final
      status and the number of bytes written. */
  class ResponseWriter {
    const w: Downstream
    var status: int
    var size: int

    constructor (w: Downstream)
      ensures this.w == w
      ensures State() == Fresh
    {
      this.w := w;
      status := StatusOK;
      size := 0;
    }

    function State(): Recorded
      reads this
    {
      Recorded(status, size)
    }

    /** The header map is the underlying writer's own (see SetHeaderVia). */
    method Header() returns (h: Header)
      ensures h == w.header
    {
      h := w.header;
    }

    /** Forwards b, returns the underlying writer's answer unchanged and adds its byte
        count to size; status is untouched. */
    method Write(b: seq<Byte>) returns (n: nat, err: Option<IoError>)
      modifies this, w
      ensures Reply(n, err) == w.reply(old(w.Writes()), b)
      ensures w.sent == old(w.sent) + [WriterCall.Write(b)] && w.Writes() == old(w.Writes()) + 1
      ensures State() == Step(old(State()), Wrote(n))
      ensures status == old(status) && size == old(size) + n
    {
      n, err := w.Write(b);
      size := size + n;
    }

    /** Forwards the code first, then records it; size is untouched. */
    method WriteHeader(statusCode: int)
      modifies this, w
      ensures w.sent == old(w.sent) + [WriterCall.WriteHeader(statusCode)] && w.Writes() == old(w.Writes())
      ensures State() == Step(old(State()), HeaderWritten(statusCode))
      ensures status == statusCode && size == old(size)
    {
      w.WriteHeader(statusCode);
      status := statusCode;
    }
  }

  // ---------------------------------------------------------------------------------
  // The effect of a handler's calls.
  // ---------------------------------------------------------------------------------

  /** The events the wrapper sees when the handler makes `calls` on it and the underlying
      writer has already taken k Writes. */
  function Events(reply: (nat, seq<Byte>) -> Reply, k: nat, calls: seq<WriterCall>): seq<Event>
    decreases |calls|
  {
    if calls == [] then []
    else match calls[0]
      case Write(b) => [Wrote(reply(k, b).n)] + Events(reply, k + 1, calls[1..])
      case WriteHeader(code) => [HeaderWritten(code)] + Events(reply, k, calls[1..])
      case SetHeader(_, _) => Events(reply, k, calls[1..])
  }

  /** The status codes the calls forward, in order. */
  function Codes(calls: seq<WriterCall>): seq<int>
    decreases |calls|
  {
    if calls == [] then []
    else if calls[0].WriteHeader? then [calls[0].code] + Codes(calls[1..])
    else Codes(calls[1..])
  }

  /** The byte slices the calls forward, in order. */
  function Chunks(calls: seq<WriterCall>): seq<seq<Byte>>
    decreases |calls|
  {
    if calls == [] then []
    else if calls[0].Write? then [calls[0].data] + Chunks(calls[1..])
    else Chunks(calls[1..])
  }

  /** The Write and WriteHeader calls, in their order; header fields set through the map
      are not calls on the writer. */
  function Forwarded(calls: seq<WriterCall>): (r: seq<WriterCall>)
    ensures forall j :: 0 <= j < |r| ==> !r[j].SetHeader?
    ensures |r| <= |calls|
    decreases |calls|
  {
    if calls == [] then []
    else if calls[0].SetHeader? then Forwarded(calls[1..])
    else [calls[0]] + Forwarded(calls[1..])
  }

  lemma {:induction false} ChunksAppend(s: seq<WriterCall>, t: seq<WriterCall>)
    ensures Chunks(s + t) == Chunks(s) + Chunks(t)
    decreases |s|
  {
    if s == [] {
      assert s + t == t;
    } else {
      assert (s + t)[0] == s[0] && (s + t)[1..] == s[1..] + t;
      ChunksAppend(s[1..], t);
    }
  }

  /** Dropping the header settings keeps every status code and every byte slice, in order:
      the connection sees the same codes and the same writes the handler made. */
  lemma {:induction false} ForwardedKeepsCodesAndChunks(calls: seq<WriterCall>)
    ensures Codes(Forwarded(calls)) == Codes(calls)
    ensures Chunks(Forwarded(calls)) == Chunks(calls)
    decreases |calls|
  {
    if calls != [] {
      ForwardedKeepsCodesAndChunks(calls[1..]);
      if !calls[0].SetHeader? {
        var f := [calls[0]] + Forwarded(calls[1..]);
        assert f[0] == calls[0] && f[1..] == Forwarded(calls[1..]);
      }
    }
  }

  /** The header map after the calls' SetHeader steps, in order, starting from fields. */
  function HeaderFields(fields: map<string, seq<string>>, calls: seq<WriterCall>): map<string, seq<string>>
    decreases |calls|
  {
    if calls == [] then fields
    else if calls[0].SetHeader? then HeaderFields(fields[calls[0].key := [calls[0].value]], calls[1..])
    else HeaderFields(fields, calls[1..])
  }

  /** What the first of the remaining calls contributes to what is forwarded, to the
      wrapper's events and to the header map. */
  lemma StepAt(reply: (nat, seq<Byte>) -> Reply, k: nat, fields: map<string, seq<string>>,
               calls: seq<WriterCall>, i: nat)
    requires i < |calls|
    ensures calls[i..][1..] == calls[i + 1..]
    ensures Forwarded(calls[i..])
      == (if calls[i].SetHeader? then [] else [calls[i]]) + Forwarded(calls[i + 1..])
    ensures calls[i].Write? ==>
      Events(reply, k, calls[i..]) == [Wrote(reply(k, calls[i].data).n)] + Events(reply, k + 1, calls[i + 1..])
    ensures calls[i].WriteHeader? ==>
      Events(reply, k, calls[i..]) == [HeaderWritten(calls[i].code)] + Events(reply, k, calls[i + 1..])
    ensures calls[i].SetHeader? ==> Events(reply, k, calls[i..]) == Events(reply, k, calls[i + 1..])
    ensures HeaderFields(fields, calls[i..]) == if calls[i].SetHeader?
      then HeaderFields(fields[calls[i].key := [calls[i].value]], calls[i + 1..])
      else HeaderFields(fields, calls[i + 1..])
  {
  }

  /** A handler setting a header field through the wrapper (rw.Header().Set(key, value)):
      the field lands in the underlying writer's header map, and nothing the wrapper
      records or forwards changes. */
  method SetHeaderVia(rw: ResponseWriter, key: string, value: string)
    modifies rw.w.header
    ensures rw.w.header.fields == old(rw.w.header.fields)[key := [value]]
  {
    var h := rw.Header();
    h.Set(key, value);
  }

  /** The router: the writer calls its handler makes for a request, and the route it
      matches (the matched route's path template; None when nothing matches). */
  datatype Router = Router(handle: Request -> seq<WriterCall>, matchTemplate: Request -> Option<string>)

  /** The router serving a request through the wrapper rw. */
  method ServeVia(rw: ResponseWriter, calls: seq<WriterCall>)
    modifies rw, rw.w, rw.w.header
    ensures rw.w.header.fields == HeaderFields(old(rw.w.header.fields), calls)
    ensures rw.w.sent == old(rw.w.sent) + Forwarded(calls)
    ensures rw.State() == Run(old(rw.State()), Events(rw.w.reply, old(rw.w.Writes()), calls))
  {
    var i := 0;
    while i < |calls|
      invariant 0 <= i <= |calls|
      invariant HeaderFields(rw.w.header.fields, calls[i..]) == HeaderFields(old(rw.w.header.fields), calls)
      invariant rw.w.sent + Forwarded(calls[i..]) == old(rw.w.sent) + Forwarded(calls)
      invariant Run(rw.State(), Events(rw.w.reply, rw.w.Writes(), calls[i..]))
                == Run(old(rw.State()), Events(rw.w.reply, old(rw.w.Writes()), calls))
      decreases |calls| - i
    {
      StepAt(rw.w.reply, rw.w.Writes(), rw.w.header.fields, calls, i);
      match calls[i] {
        case Write(b) =>
          var _, _ := rw.Write(b);
        case WriteHeader(code) =>
          rw.WriteHeader(code);
        case SetHeader(key, value) =>
          SetHeaderVia(rw, key, value);
      }
      i := i + 1;
    }
    assert calls[i..] == [];
  }

  /** The router serving a request directly on the underlying writer. */
  method ServeDirect(w: Downstream, calls: seq<WriterCall>)
    modifies w, w.header
    ensures w.header.fields == HeaderFields(old(w.header.fields), calls)
    ensures w.sent == old(w.sent) + Forwarded(calls)
  {
    var i := 0;
    while i < |calls|
      invariant 0 <= i <= |calls|
      invariant HeaderFields(w.header.fields, calls[i..]) == HeaderFields(old(w.header.fields), calls)
      invariant w.sent + Forwarded(calls[i..]) == old(w.sent) + Forwarded(calls)
      decreases |calls| - i
    {
      StepAt(w.reply, w.Writes(), w.header.fields, calls, i);
      match calls[i] {
        case Write(b) =>
          var _, _ := w.Write(b);
        case WriteHeader(code) =>
          w.WriteHeader(code);
        case SetHeader(key, value) =>
          w.header.Set(key, value);
      }
      i := i + 1;
    }
    assert calls[i..] == [];
  }

  // ---------------------------------------------------------------------------------
  // The middleware.
  // ---------------------------------------------------------------------------------

  /** The handler installed in front of the router. The histogram's samples and the log's
      lines are kept as sequences of records. splitHostPort stands for net.SplitHostPort's
      host result (None when the address does not split). */
  class RequestMiddleware {
    const router: Router
    const splitHostPort: string -> Option<string>
    ghost var histogram: seq<Observation>
    ghost var log: seq<LogLine>

    constructor (router: Router, splitHostPort: string -> Option<string>)
      ensures this.router == router && this.splitHostPort == splitHostPort
      ensures histogram == [] && log == []
    {
      this.router := router;
      this.splitHostPort := splitHostPort;
      histogram := [];
      log := [];
    }

    /** Serves r on w; latency is the clock's reading of the time routing took. */
    method ServeHTTP(w: Downstream, r: Request, latency: nat)
      modifies this, w, w.header
      ensures w.header.fields == HeaderFields(old(w.header.fields), router.handle(r))
      ensures w.sent == old(w.sent) + Forwarded(router.handle(r))
      ensures r.requestURI == HealthzURI ==> histogram == old(histogram) && log == old(log)
      ensures r.requestURI != HealthzURI ==>
        var final := Run(Fresh, Events(w.reply, old(w.Writes()), router.handle(r)));
        var path := if router.matchTemplate(r).Some? then router.matchTemplate(r).value else "";
        var host := if splitHostPort(r.remoteAddr).Some? then splitHostPort(r.remoteAddr).value else r.remoteAddr;
        histogram == old(histogram) + [ObservationOf(r, path, final, latency)] &&
        log == old(log) + [LogLineOf(r, host, final, latency)]
      ensures r.requestURI != HealthzURI ==>
        var es := Events(w.reply, old(w.Writes()), router.handle(r));
        log[|log| - 1].status == LastCode(es, StatusOK) &&
        log[|log| - 1].size == BytesWritten(es) &&
        log[|log| - 1].severity == SeverityOf(LastCode(es, StatusOK)) &&
        histogram[|histogram| - 1].statusCode == Decimal.Itoa(LastCode(es, StatusOK))
    {
      if r.requestURI == HealthzURI {
        ServeDirect(w, router.handle(r));
        return;
      }

      var rw := new ResponseWriter(w);
      ServeVia(rw, router.handle(r));
      ghost var es := Events(w.reply, old(w.Writes()), router.handle(r));
      RunStatus(Fresh, es);
      RunSize(Fresh, es);

      var handler := "";
      var routeMatch := router.matchTemplate(r);
      if routeMatch.Some? {
        handler := routeMatch.value;
      }
      var host := r.remoteAddr;
      var split := splitHostPort(r.remoteAddr);
      if split.Some? {
        host := split.value;
      }
      histogram := histogram + [Observation(r.verb, handler, Decimal.Itoa(rw.status), latency)];

      var f := Info;
      if rw.status >= StatusInternalServerError {
        f := Error;
      } else if rw.status >= StatusBadRequest {
        f := Warning;
      }
      log := log + [LogLine(f, host, r.verb, r.requestURI, r.proto, rw.status, rw.size, latency / NanosPerMilli)];
    }
  }
}
