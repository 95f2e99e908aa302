/** The record of one outgoing API call, filled in step by step: a fresh
    record in status `Started`, the request details, then either the response
    details (status `Completed`) or an error (status `Failed`), and finally a
    plain copy with every `undefined` replaced by `null`. A JavaScript `Date`
    is held as its `getTime()`, in milliseconds; the clock, `uuidv4` and
    `JSON.stringify` are parameters. */
module ApiExecution {
  import opened Results
  import opened Json

  /** `ApiExecutionStatus` */
  datatype Status = Started | InProgress | Completed | Failed

  function StatusText(s: Status): string
  {
    match s
    case Started => "Started"
    case InProgress => "In-Progress"
    case Completed => "Completed"
    case Failed => "Failed"
  }

  /** The columns of `ApiExecutionSchema`. */
  datatype Column =
    | Uuid | ExecutionStartTime | ExecutionEndTime | ExecutionStatus
    | ExecutionTimeTaken | ExecutionResponseSize
    | NamespaceMethodId | NamespaceId | NamespaceAccountId
    | Method | Url | QueryParams | Headers | Body
    | ResponseStatus | ResponseHeaders | ResponseBody

  /** The property name a column has in the record. */
  function ColumnName(c: Column): string
  {
    match c
    case Uuid => "uuid"
    case ExecutionStartTime => "execution-start-time"
    case ExecutionEndTime => "execution-end-time"
    case ExecutionStatus => "execution-status"
    case ExecutionTimeTaken => "execution-time-taken"
    case ExecutionResponseSize => "execution-response-size"
    case NamespaceMethodId => "namespace-method-id"
    case NamespaceId => "namespace-id"
    case NamespaceAccountId => "namespace-account-id"
    case Method => "method"
    case Url => "url"
    case QueryParams => "queryParams"
    case Headers => "headers"
    case Body => "body"
    case ResponseStatus => "response-status"
    case ResponseHeaders => "response-headers"
    case ResponseBody => "response-body"
  }

  /** An execution record, by column. */
  type Execution = map<Column, Value>

  predicate InStatus(execution: Execution, s: Status)
  {
    ExecutionStatus in execution && execution[ExecutionStatus] == Str(StatusText(s))
  }

  /** The columns `setRequestDetails` writes. */
  const RequestColumns: set<Column> := {
    NamespaceMethodId, NamespaceId, NamespaceAccountId, Method, Url, QueryParams, Headers, Body}

  /** The columns `setResponseDetails` writes. */
  const ResponseColumns: set<Column> := {
    ResponseStatus, ResponseHeaders, ResponseBody, ExecutionEndTime, ExecutionStatus,
    ExecutionTimeTaken, ExecutionResponseSize}

  /** The columns a new record holds as `null`. */
  const NullAtStart: set<Column> := {
    NamespaceMethodId, NamespaceId, NamespaceAccountId, Method, Url,
    Body, ResponseHeaders, ResponseBody, ExecutionEndTime}

  /** A record none of whose fields is `undefined`. */
  predicate Defined(d: Execution)
  {
    forall k :: k in d ==> !d[k].Undefined?
  }

  /** The record carries the start time its time-taken is measured from. */
  predicate HasStart(execution: Execution)
  {
    ExecutionStartTime in execution && execution[ExecutionStartTime].Num?
  }

  function StartTime(execution: Execution): int
    requires HasStart(execution)
  {
    execution[ExecutionStartTime].n
  }

  /** The record of `new ApiExecutionBuilder()` with id `uuid` at time `start`. */
  function Initial(uuid: string, start: int): Execution
  {
    map[
      Uuid := Str(uuid),
      ExecutionStartTime := Num(start),
      ExecutionStatus := Str(StatusText(Started)),
      NamespaceMethodId := Null,
      NamespaceId := Null,
      NamespaceAccountId := Null,
      Method := Null,
      Url := Null,
      QueryParams := Arr([]),
      Headers := Arr([]),
      Body := Null,
      ResponseHeaders := Null,
      ResponseBody := Null,
      ExecutionEndTime := Null,
      ExecutionTimeTaken := Num(0),
      ExecutionResponseSize := Num(0)]
  }

  /** The record after `setRequestDetails(request)`, or the TypeError of
      reading `request.namespaceMethodId` when `request` is null or undefined. */
  function WithRequest(execution: Execution, request: Value): Result<Execution>
  {
    match Member(request, "namespaceMethodId")
    case Failure(e) => Failure(e)
    case Success(namespaceMethodId) =>
      Success(execution
        [NamespaceMethodId := Or(namespaceMethodId, Null)]
        [NamespaceId := Or(Prop(request, "namespaceId"), Null)]
        [NamespaceAccountId := Or(Prop(request, "namespaceAccountId"), Null)]
        [Method := Or(Prop(request, "method"), Str("GET"))]
        [Url := Or(Prop(request, "url"), Str(""))]
        [QueryParams := Or(Prop(request, "queryParams"), Arr([]))]
        [Headers := Or(Prop(request, "headers"), Arr([]))]
        [Body := Or(Prop(request, "body"), Null)])
  }

  /** The record after `setResponseDetails(response)` at time `now`, or the
      TypeError of reading `response.status`. */
  function WithResponse(execution: Execution, response: Value, now: int, stringify: Value -> string): Result<Execution>
    requires HasStart(execution)
  {
    match Member(response, "status")
    case Failure(e) => Failure(e)
    case Success(status) =>
      Success(execution
        [ResponseStatus := Or(status, Num(500))]
        [ResponseHeaders := Or(Prop(response, "headers"), Obj(map[]))]
        [ResponseBody := Or(Prop(response, "data"), Null)]
        [ExecutionEndTime := Num(now)]
        [ExecutionStatus := Str(StatusText(Completed))]
        [ExecutionTimeTaken := Num(now - StartTime(execution))]
        [ExecutionResponseSize := Num(|stringify(Or(Prop(response, "data"), Obj(map[])))|)])
  }

  /** The record after `setError()` at time `now`. */
  function WithError(execution: Execution, now: int): Execution
    requires HasStart(execution)
  {
    execution
      [ExecutionEndTime := Num(now)]
        [ExecutionStatus := Str(StatusText(Failed))]
        [ExecutionTimeTaken := Num(now - StartTime(execution))]
        [ResponseBody := Null]
        [ResponseHeaders := Null]
  }

  // ---- what the steps promise ----

  /** A new record is `Started`, has taken no time and sent nothing, has
      empty parameter and header lists, and holds null in every other
      request and response field (InitialNulls); it has no `response-status` yet. */
  lemma InitialRecord(uuid: string, start: int)
    ensures var r := Initial(uuid, start);
      && InStatus(r, Started) && HasStart(r) && StartTime(r) == start
      && r[Uuid] == Str(uuid)
      && r[ExecutionTimeTaken] == Num(0) && r[ExecutionResponseSize] == Num(0)
      && r[QueryParams] == Arr([]) && r[Headers] == Arr([])
      && ResponseStatus !in r && Defined(r)
  {
  }

  /** Every other request and response field of a new record is null. */
  lemma InitialNulls(uuid: string, start: int)
    ensures forall k :: k in NullAtStart ==> k in Initial(uuid, start) && Initial(uuid, start)[k] == Null
  {
  }

  /** `setRequestDetails` throws exactly on a null or undefined request.
      Otherwise it falls back to `GET`, the empty url, empty lists and null
      for whatever the request leaves falsy, and copies what it sets. */
  lemma RequestDetailsDefaults(execution: Execution, request: Value)
    ensures WithRequest(execution, request).Failure? <==> Nullish(request)
    ensures !Nullish(request) ==> var r := WithRequest(execution, request).value;
      && r[Method] == (if Truthy(Prop(request, "method")) then Prop(request, "method") else Str("GET"))
      && r[Url] == (if Truthy(Prop(request, "url")) then Prop(request, "url") else Str(""))
      && r[QueryParams] == (if Truthy(Prop(request, "queryParams")) then Prop(request, "queryParams") else Arr([]))
      && r[Headers] == (if Truthy(Prop(request, "headers")) then Prop(request, "headers") else Arr([]))
      && r[Body] == (if Truthy(Prop(request, "body")) then Prop(request, "body") else Null)
      && r[NamespaceMethodId] == (if Truthy(Prop(request, "namespaceMethodId")) then Prop(request, "namespaceMethodId") else Null)
      && r[NamespaceId] == (if Truthy(Prop(request, "namespaceId")) then Prop(request, "namespaceId") else Null)
      && r[NamespaceAccountId] == (if Truthy(Prop(request, "namespaceAccountId")) then Prop(request, "namespaceAccountId") else Null)
  {
  }

  /** `setRequestDetails` adds the request columns and leaves every other
      column (id, start time, status, response) as it was. */
  lemma RequestDetailsKeep(execution: Execution, request: Value)
    requires !Nullish(request)
    ensures var r := WithRequest(execution, request).value;
      && (forall k :: k in r <==> k in execution || k in RequestColumns)
      && (forall k :: k in execution && k !in RequestColumns ==> r[k] == execution[k])
  {
  }

  /** `setResponseDetails` throws exactly on a null or undefined response.
      Otherwise it marks the record `Completed`, reports status 500 when the
      response has none, defaults the headers to `{}` and the body to null,
      measures the time from the start and the size of the serialized data. */
  lemma ResponseDetailsEffect(execution: Execution, response: Value, now: int, stringify: Value -> string)
    requires HasStart(execution)
    ensures WithResponse(execution, response, now, stringify).Failure? <==> Nullish(response)
    ensures !Nullish(response) ==> var r := WithResponse(execution, response, now, stringify).value;
      && InStatus(r, Completed) && HasStart(r) && StartTime(r) == StartTime(execution)
      && r[ResponseStatus] == (if Truthy(Prop(response, "status")) then Prop(response, "status") else Num(500))
      && r[ResponseHeaders] == (if Truthy(Prop(response, "headers")) then Prop(response, "headers") else Obj(map[]))
      && r[ResponseBody] == (if Truthy(Prop(response, "data")) then Prop(response, "data") else Null)
      && r[ExecutionEndTime] == Num(now)
      && r[ExecutionTimeTaken] == Num(now - StartTime(execution))
      && r[ExecutionResponseSize] == Num(|stringify(if Truthy(Prop(response, "data")) then Prop(response, "data") else Obj(map[]))|)
  {
  }

  /** `setResponseDetails` adds the response columns and leaves every other
      column (id, start time, request) as it was. */
  lemma ResponseDetailsKeep(execution: Execution, response: Value, now: int, stringify: Value -> string)
    requires HasStart(execution) && !Nullish(response)
    ensures var r := WithResponse(execution, response, now, stringify).value;
      && (forall k :: k in r <==> k in execution || k in ResponseColumns)
      && (forall k :: k in execution && k !in ResponseColumns ==> r[k] == execution[k])
  {
  }

  /** `setError` marks the record `Failed`, clears the response body and
      headers, and leaves the request fields, id and start time as they were. */
  lemma ErrorEffect(execution: Execution, now: int)
    requires HasStart(execution)
    ensures var r := WithError(execution, now);
      && InStatus(r, Failed) && HasStart(r) && StartTime(r) == StartTime(execution)
      && r[ResponseBody] == Null && r[ResponseHeaders] == Null
      && r[ExecutionEndTime] == Num(now)
      && r[ExecutionTimeTaken] == Num(now - StartTime(execution))
      && (forall k :: k in execution && k in RequestColumns + {Uuid} ==> r[k] == execution[k])
  {
  }

  /** The two ways a call ends: a record that was sent and answered is
      `Completed`, one that failed is `Failed`; writing the request details
      keeps `Started`. */
  lemma Lifecycle(uuid: string, start: int, request: Value, response: Value, now: int, stringify: Value -> string)
    requires !Nullish(request) && !Nullish(response)
    ensures var sent := WithRequest(Initial(uuid, start), request).value;
      && InStatus(sent, Started) && HasStart(sent)
      && InStatus(WithResponse(sent, response, now, stringify).value, Completed)
      && InStatus(WithError(sent, now), Failed)
  {
    InitialRecord(uuid, start);
    var sent := WithRequest(Initial(uuid, start), request).value;
    assert ExecutionStatus !in RequestColumns;
    assert ExecutionStartTime !in RequestColumns;
    RequestDetailsKeep(Initial(uuid, start), request);
    assert sent[ExecutionStatus] == Str(StatusText(Started));
    ResponseDetailsEffect(sent, response, now, stringify);
    ErrorEffect(sent, now);
  }

  /** Falling back on a defined value never yields `undefined`, so no step
      writes one. */
  lemma RequestStaysDefined(execution: Execution, request: Value)
    requires Defined(execution)
    ensures WithRequest(execution, request).Success? ==> Defined(WithRequest(execution, request).value)
  {
  }

  lemma ResponseStaysDefined(execution: Execution, response: Value, now: int, stringify: Value -> string)
    requires Defined(execution) && HasStart(execution)
    ensures WithResponse(execution, response, now, stringify).Success? ==>
      Defined(WithResponse(execution, response, now, stringify).value)
  {
  }

  lemma ErrorStaysDefined(execution: Execution, now: int)
    requires Defined(execution) && HasStart(execution)
    ensures Defined(WithError(execution, now))
  {
  }

  /** Builds one API-execution record; `this.execution` is replaced by each setter. */
  class ApiExecutionBuilder {
    var execution: Execution
    /** `JSON.stringify`, which measures the response size. */
    const stringify: Value -> string

    /** The record has its start time and no `undefined` field. */
    ghost predicate Valid()
      reads this
    {
      HasStart(execution) && Defined(execution)
    }

    /** `new ApiExecutionBuilder()` drawing id `uuid` at time `now`. */
    constructor (uuid: string, now: int, stringify: Value -> string)
      ensures Valid()
      ensures execution == Initial(uuid, now) && this.stringify == stringify
    {
      execution := Initial(uuid, now);
      this.stringify := stringify;
      InitialRecord(uuid, now);
    }

    /** `setRequestDetails(request)`: returns the builder itself, so calls chain. */
    method SetRequestDetails(request: Value) returns (r: Result<ApiExecutionBuilder>)
      requires Valid()
      modifies this
      ensures Valid()
      ensures match WithRequest(old(execution), request)
        case Failure(e) => r == Failure(e) && execution == old(execution)
        case Success(after) => r == Success(this) && execution == after
    {
      match WithRequest(execution, request) {
        case Failure(e) =>
          r := Failure(e);
        case Success(after) =>
          RequestStaysDefined(execution, request);
          assert ExecutionStartTime !in RequestColumns;
          execution := after;
          r := Success(this);
      }
    }

    /** `setResponseDetails(response)` at time `now`. */
    method SetResponseDetails(response: Value, now: int) returns (r: Result<ApiExecutionBuilder>)
      requires Valid()
      modifies this
      ensures Valid()
      ensures match WithResponse(old(execution), response, now, stringify)
        case Failure(e) => r == Failure(e) && execution == old(execution)
        case Success(after) => r == Success(this) && execution == after
    {
      match WithResponse(execution, response, now, stringify) {
        case Failure(e) =>
          r := Failure(e);
        case Success(after) =>
          ResponseStaysDefined(execution, response, now, stringify);
          execution := after;
          r := Success(this);
      }
    }

    /** `setError()` at time `now`. */
    method SetError(now: int) returns (r: ApiExecutionBuilder)
      requires Valid()
      modifies this
      ensures Valid()
      ensures r == this && execution == WithError(old(execution), now)
    {
      ErrorStaysDefined(execution, now);
      execution := WithError(execution, now);
      r := this;
    }

    /** `build()`: a copy of the record with the same fields, `undefined`
        replaced by `null` and every other value kept; on a record the
        builder produced, that is the record itself. */
    method Build() returns (r: Execution)
      ensures r.Keys == execution.Keys
      ensures Defined(r)
      ensures forall k :: k in execution && !execution[k].Undefined? ==> r[k] == execution[k]
      ensures forall k :: k in execution && execution[k].Undefined? ==> r[k] == Null
      ensures Defined(execution) ==> r == execution
    {
      r := map[];
      var remaining := execution.Keys;
      while remaining != {}
        invariant remaining <= execution.Keys
        invariant r.Keys == execution.Keys - remaining
        invariant forall k :: k in r ==> r[k] == (if execution[k].Undefined? then Null else execution[k])
        decreases remaining
      {
        var key :| key in remaining;
        var value := execution[key];
        r := r[key := if value.Undefined? then Null else value];
        remaining := remaining - {key};
      }
    }
  }
}
