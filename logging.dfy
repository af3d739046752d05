/** The logging decorator of the catalogue service: a service that delegates each of the
    five operations, unchanged, to the service it wraps and then emits one structured log
    record built from the arguments and the results. */
module Logging {
  import opened Wrappers
  import Strings

  datatype ServiceError = ServiceError(message: string)

  /** A catalogue item. Price is a 32-bit float in the service; here a real. */
  datatype Sock = Sock(id: string, name: string, description: string, imageURL: seq<string>,
                       price: real, count: int, tags: seq<string>)

  /** One health-check entry. */
  datatype Health = Health(service: string, status: string, time: string)

  // ---------------------------------------------------------------------------------
  // Log records: the key/value operands of one log call, without their text layout.
  // ---------------------------------------------------------------------------------

  datatype Value = Str(s: string) | Int(i: int) | Err(e: Option<ServiceError>) | Took(nanos: nat)

  type Entry = seq<(string, Value)>

  /** The value stored under key (the first one, should the key repeat). */
  function Lookup(entry: Entry, key: string): Option<Value>
    decreases |entry|
  {
    if entry == [] then None
    else if entry[0].0 == key then Some(entry[0].1)
    else Lookup(entry[1..], key)
  }

  /** The record made of the pair (key, value) followed by rest. */
  function Field(key: string, value: Value, rest: Entry): Entry {
    [(key, value)] + rest
  }

  /** The keys of a record, in order. */
  function Keys(entry: Entry): seq<string>
    decreases |entry|
  {
    if entry == [] then [] else [entry[0].0] + Keys(entry[1..])
  }

  /** Looking a key up in a record, or listing its keys, starts at its first pair. */
  lemma LookupField()
    ensures forall key, value, rest, k {:trigger Lookup(Field(key, value, rest), k)} ::
      Lookup(Field(key, value, rest), k) == if key == k then Some(value) else Lookup(rest, k)
    ensures forall key, value, rest {:trigger Keys(Field(key, value, rest))} ::
      Keys(Field(key, value, rest)) == [key] + Keys(rest)
  {
  }

  const TagSeparator := ", "

  function ListEntry(tags: seq<string>, order: string, pageNum: int, pageSize: int,
                     socks: seq<Sock>, err: Option<ServiceError>, took: nat): (entry: Entry)
    ensures Lookup(entry, "method") == Some(Str("List"))
    ensures Lookup(entry, "tags") == Some(Str(Strings.Join(tags, TagSeparator)))
    ensures Lookup(entry, "order") == Some(Str(order))
    ensures Lookup(entry, "pageNum") == Some(Int(pageNum))
    ensures Lookup(entry, "pageSize") == Some(Int(pageSize))
    ensures Lookup(entry, "result") == Some(Int(|socks|))
    ensures Lookup(entry, "err") == Some(Err(err))
    ensures Lookup(entry, "took") == Some(Took(took))
    ensures Keys(entry) == ["method", "tags", "order", "pageNum", "pageSize", "result", "err", "took"]
  {
    LookupField();
    Field("method", Str("List"),
    Field("tags", Str(Strings.Join(tags, TagSeparator)),
    Field("order", Str(order),
    Field("pageNum", Int(pageNum),
    Field("pageSize", Int(pageSize),
    Field("result", Int(|socks|),
    Field("err", Err(err),
    Field("took", Took(took), []))))))))
  }

  function CountEntry(tags: seq<string>, n: int, err: Option<ServiceError>, took: nat): (entry: Entry)
    ensures Lookup(entry, "method") == Some(Str("Count"))
    ensures Lookup(entry, "tags") == Some(Str(Strings.Join(tags, TagSeparator)))
    ensures Lookup(entry, "result") == Some(Int(n))
    ensures Lookup(entry, "err") == Some(Err(err))
    ensures Lookup(entry, "took") == Some(Took(took))
    ensures Keys(entry) == ["method", "tags", "result", "err", "took"]
  {
    LookupField();
    Field("method", Str("Count"),
    Field("tags", Str(Strings.Join(tags, TagSeparator)),
    Field("result", Int(n),
    Field("err", Err(err),
    Field("took", Took(took), [])))))
  }

  function GetEntry(id: string, s: Sock, err: Option<ServiceError>, took: nat): (entry: Entry)
    ensures Lookup(entry, "method") == Some(Str("Get"))
    ensures Lookup(entry, "id") == Some(Str(id))
    ensures Lookup(entry, "sock") == Some(Str(s.id))
    ensures Lookup(entry, "err") == Some(Err(err))
    ensures Lookup(entry, "took") == Some(Took(took))
    ensures Keys(entry) == ["method", "id", "sock", "err", "took"]
  {
    LookupField();
    Field("method", Str("Get"),
    Field("id", Str(id),
    Field("sock", Str(s.id),
    Field("err", Err(err),
    Field("took", Took(took), [])))))
  }

  function TagsEntry(tags: seq<string>, err: Option<ServiceError>, took: nat): (entry: Entry)
    ensures Lookup(entry, "method") == Some(Str("Tags"))
    ensures Lookup(entry, "result") == Some(Int(|tags|))
    ensures Lookup(entry, "err") == Some(Err(err))
    ensures Lookup(entry, "took") == Some(Took(took))
    ensures Keys(entry) == ["method", "result", "err", "took"]
  {
    LookupField();
    Field("method", Str("Tags"),
    Field("result", Int(|tags|),
    Field("err", Err(err),
    Field("took", Took(took), []))))
  }

  /** Health has no error result, so its record has no "err" key. */
  function HealthEntry(health: seq<Health>, took: nat): (entry: Entry)
    ensures Lookup(entry, "method") == Some(Str("Health"))
    ensures Lookup(entry, "result") == Some(Int(|health|))
    ensures Lookup(entry, "err") == None
    ensures Lookup(entry, "took") == Some(Took(took))
    ensures Keys(entry) == ["method", "result", "took"]
  {
    LookupField();
    Field("method", Str("Health"),
    Field("result", Int(|health|),
    Field("took", Took(took), [])))
  }

  /** The tags a List or Count record was made from can be read back from its "tags"
      value, when they are not empty and none contains a comma. */
  lemma TagsRecoverable(tags: seq<string>, order: string, pageNum: int, pageSize: int,
                         socks: seq<Sock>, n: int, err: Option<ServiceError>, took: nat)
    requires |tags| > 0
    requires forall k :: 0 <= k < |tags| ==> Strings.NoComma(tags[k])
    ensures Strings.Unjoin(Lookup(ListEntry(tags, order, pageNum, pageSize, socks, err, took), "tags").value.s) == tags
    ensures Strings.Unjoin(Lookup(CountEntry(tags, n, err, took), "tags").value.s) == tags
  {
    Strings.UnjoinJoin(tags);
  }

  /** The process-wide logger: every record it was given, in order. */
  class Logger {
    var entries: seq<Entry>

    constructor ()
      ensures entries == []
    {
      entries := [];
    }

    method Infoln(entry: Entry)
      modifies this
      ensures entries == old(entries) + [entry]
    {
      entries := entries + [entry];
    }
  }

  // ---------------------------------------------------------------------------------
  // The wrapped service.
  // ---------------------------------------------------------------------------------

  /** A request made of the wrapped service. */
  datatype ServiceCall =
    | ListCall(tags: seq<string>, order: string, pageNum: int, pageSize: int)
    | CountCall(tags: seq<string>)
    | GetCall(id: string)
    | TagsCall
    | HealthCall

  /** How the wrapped service answers: the result of its k-th call, given the arguments. */
  datatype Behaviour = Behaviour(
    list: (nat, seq<string>, string, int, int) -> (seq<Sock>, Option<ServiceError>),
    count: (nat, seq<string>) -> (int, Option<ServiceError>),
    get: (nat, string) -> (Sock, Option<ServiceError>),
    tags: nat -> (seq<string>, Option<ServiceError>),
    health: nat -> seq<Health>)

  /** The service being decorated. Its implementation is not part of this model: it
      answers as `answer` says and remembers the calls made of it. */
  class Service {
    const answer: Behaviour
    var calls: seq<ServiceCall>

    constructor (answer: Behaviour)
      ensures this.answer == answer && calls == []
    {
      this.answer := answer;
      calls := [];
    }

    method List(tags: seq<string>, order: string, pageNum: int, pageSize: int)
      returns (socks: seq<Sock>, err: Option<ServiceError>)
      modifies this
      ensures (socks, err) == answer.list(|old(calls)|, tags, order, pageNum, pageSize)
      ensures calls == old(calls) + [ListCall(tags, order, pageNum, pageSize)]
    {
      socks, err := answer.list(|calls|, tags, order, pageNum, pageSize).0,
                    answer.list(|calls|, tags, order, pageNum, pageSize).1;
      calls := calls + [ListCall(tags, order, pageNum, pageSize)];
    }

    method Count(tags: seq<string>) returns (n: int, err: Option<ServiceError>)
      modifies this
      ensures (n, err) == answer.count(|old(calls)|, tags)
      ensures calls == old(calls) + [CountCall(tags)]
    {
      n, err := answer.count(|calls|, tags).0, answer.count(|calls|, tags).1;
      calls := calls + [CountCall(tags)];
    }

    method Get(id: string) returns (s: Sock, err: Option<ServiceError>)
      modifies this
      ensures (s, err) == answer.get(|old(calls)|, id)
      ensures calls == old(calls) + [GetCall(id)]
    {
      s, err := answer.get(|calls|, id).0, answer.get(|calls|, id).1;
      calls := calls + [GetCall(id)];
    }

    method Tags() returns (tags: seq<string>, err: Option<ServiceError>)
      modifies this
      ensures (tags, err) == answer.tags(|old(calls)|)
      ensures calls == old(calls) + [TagsCall]
    {
      tags, err := answer.tags(|calls|).0, answer.tags(|calls|).1;
      calls := calls + [TagsCall];
    }

    method Health() returns (health: seq<Health>)
      modifies this
      ensures health == answer.health(|old(calls)|)
      ensures calls == old(calls) + [HealthCall]
    {
      health := answer.health(|calls|);
      calls := calls + [HealthCall];
    }
  }

  // ---------------------------------------------------------------------------------
  // The decorator.
  // ---------------------------------------------------------------------------------

  /** The service LoggingMiddleware() makes of next. Each operation takes one extra
      argument, took: the clock's reading of the time the delegated call took. */
  class LoggingMiddleware {
    const next: Service
    const logger: Logger

    constructor (next: Service, logger: Logger)
      ensures this.next == next && this.logger == logger
    {
      this.next := next;
      this.logger := logger;
    }

    method List(tags: seq<string>, order: string, pageNum: int, pageSize: int, took: nat)
      returns (socks: seq<Sock>, err: Option<ServiceError>)
      modifies next, logger
      ensures (socks, err) == next.answer.list(|old(next.calls)|, tags, order, pageNum, pageSize)
      ensures next.calls == old(next.calls) + [ListCall(tags, order, pageNum, pageSize)]
      ensures logger.entries == old(logger.entries) + [ListEntry(tags, order, pageNum, pageSize, socks, err, took)]
    {
      socks, err := next.List(tags, order, pageNum, pageSize);
      logger.Infoln(ListEntry(tags, order, pageNum, pageSize, socks, err, took));
    }

    method Count(tags: seq<string>, took: nat) returns (n: int, err: Option<ServiceError>)
      modifies next, logger
      ensures (n, err) == next.answer.count(|old(next.calls)|, tags)
      ensures next.calls == old(next.calls) + [CountCall(tags)]
      ensures logger.entries == old(logger.entries) + [CountEntry(tags, n, err, took)]
    {
      n, err := next.Count(tags);
      logger.Infoln(CountEntry(tags, n, err, took));
    }

    method Get(id: string, took: nat) returns (s: Sock, err: Option<ServiceError>)
      modifies next, logger
      ensures (s, err) == next.answer.get(|old(next.calls)|, id)
      ensures next.calls == old(next.calls) + [GetCall(id)]
      ensures logger.entries == old(logger.entries) + [GetEntry(id, s, err, took)]
    {
      s, err := next.Get(id);
      logger.Infoln(GetEntry(id, s, err, took));
    }

    method Tags(took: nat) returns (tags: seq<string>, err: Option<ServiceError>)
      modifies next, logger
      ensures (tags, err) == next.answer.tags(|old(next.calls)|)
      ensures next.calls == old(next.calls) + [TagsCall]
      ensures logger.entries == old(logger.entries) + [TagsEntry(tags, err, took)]
    {
      tags, err := next.Tags();
      logger.Infoln(TagsEntry(tags, err, took));
    }

    method Health(took: nat) returns (health: seq<Health>)
      modifies next, logger
      ensures health == next.answer.health(|old(next.calls)|)
      ensures next.calls == old(next.calls) + [HealthCall]
      ensures logger.entries == old(logger.entries) + [HealthEntry(health, took)]
    {
      health := next.Health();
      logger.Infoln(HealthEntry(health, took));
    }
  }
}
