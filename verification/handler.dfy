/**
 The serverless entry point: check the request, hand the query to the query
 library, and turn the outcome or the thrown value into a status code and a
 body. The query library (parsing and evaluating the query against the
 records) is not part of this model; it is the parameter `library`, which
 either returns its result or throws an Error that has a message and no
 status code.
 */
module Handler {
  import opened Js

  const PathMessage: string := "/ is the only supported path"
  const MethodMessage: string := "GET is the only supported method"
  const QueryMessage: string := "query string parameter \"query\" is required"

  /** A thrown object, seen through the two properties the catch block reads;
      a missing property is `Undefined`. */
  datatype Thrown = Thrown(statusCode: Value, message: Value)

  /** What `validate` does: return normally, or throw. */
  datatype Check = Pass | Fail(error: Thrown)

  /** What the query library does: return its result, or throw an Error
      carrying `message` and no `statusCode`. */
  datatype Outcome<R> = Returned(result: R) | Failed(message: Value)

  /** The `message` field of an error body is either the thrown value's
      truthy `message` or, failing that, the thrown value itself. */
  datatype ErrorBody = Message(message: Value) | ThrownItself(thrown: Thrown)

  /** The status code and body the catch block builds. */
  datatype Failure = Failure(statusCode: Value, body: ErrorBody)

  datatype Body<R> = Results(result: R) | Error(error: ErrorBody)

  datatype Response<R> = Response(statusCode: Value, body: Body<R>)

  /** `event.queryStringParameters && event.queryStringParameters.query`:
      the query text when the parameters object is present. */
  function QueryOf(event: Object): (r: Value)
    ensures Truthy(r) <==>
              var params := Get(event, "queryStringParameters");
              params.Obj? && "query" in params.props && Truthy(params.props["query"])
    ensures Truthy(r) ==> r == Get(event, "queryStringParameters").props["query"]
  {
    var params := Get(event, "queryStringParameters");
    if Truthy(params) then Prop(params, "query") else params
  }

  /** The one request shape the service answers: `GET /` with a non-empty
      `query` parameter. */
  predicate Acceptable(event: Object)
    ensures Acceptable(event) ==>
              && Get(event, "queryStringParameters").Obj?
              && "query" in Get(event, "queryStringParameters").props
              && Truthy(Get(event, "queryStringParameters").props["query"])
  {
    && Get(event, "path") == Str("/")
    && Get(event, "httpMethod") == Str("GET")
    && Truthy(QueryOf(event))
  }

  /** `validate(event)`: three checks in order, the first one that fails
      decides the error. */
  function Validate(event: Object): (r: Check)
    ensures r.Pass? <==> Acceptable(event)
    ensures Get(event, "path") != Str("/") ==>
              r == Fail(Thrown(Num(404.0), Str(PathMessage)))
    ensures Get(event, "path") == Str("/") && Get(event, "httpMethod") != Str("GET") ==>
              r == Fail(Thrown(Num(405.0), Str(MethodMessage)))
    ensures Get(event, "path") == Str("/") && Get(event, "httpMethod") == Str("GET") && !Truthy(QueryOf(event)) ==>
              r == Fail(Thrown(Num(400.0), Str(QueryMessage)))
  {
    var path := Get(event, "path");
    var httpMethod := Get(event, "httpMethod");
    var params := Get(event, "queryStringParameters");
    if path != Str("/") then
      Fail(Thrown(Num(404.0), Str(PathMessage)))
    else if httpMethod != Str("GET") then
      Fail(Thrown(Num(405.0), Str(MethodMessage)))
    else if !Truthy(params) || !Truthy(Prop(params, "query")) then
      Fail(Thrown(Num(400.0), Str(QueryMessage)))
    else
      Pass
  }

  /** The catch block: a truthy `statusCode` is kept, anything else becomes
      500; a truthy `message` is reported, otherwise the thrown value is. */
  function Catch(e: Thrown): (r: Failure)
    ensures Truthy(e.statusCode) ==> r.statusCode == e.statusCode
    ensures !Truthy(e.statusCode) ==> r.statusCode == Num(500.0)
    ensures Truthy(e.message) ==> r.body == Message(e.message)
    ensures !Truthy(e.message) ==> r.body == ThrownItself(e)
  {
    Failure(if Truthy(e.statusCode) then e.statusCode else Num(500.0),
            if Truthy(e.message) then Message(e.message) else ThrownItself(e))
  }

  /** `handler(event)`, with the query library and the records as parameters.
      `data` stands for the dataset as the module load left it, that is the
      `Ok` value of `Dataset.NormalizeData` applied to the raw records. A
      rejected request is answered with the status and message `validate`
      threw. */
  function Handle<R>(event: Object, data: seq<Object>, library: (Value, seq<Object>) -> Outcome<R>): (r: Response<R>)
    ensures r.statusCode == Num(200.0) <==> Acceptable(event) && library(QueryOf(event), data).Returned?
    ensures r.statusCode == Num(500.0) <==> Acceptable(event) && library(QueryOf(event), data).Failed?
    ensures r.statusCode in {Num(400.0), Num(404.0), Num(405.0)} <==> !Acceptable(event)
    ensures r.body.Results? <==> r.statusCode == Num(200.0)
    ensures r.statusCode == Num(200.0) ==> r.body == Results(library(QueryOf(event), data).result)
    ensures Acceptable(event) && library(QueryOf(event), data).Failed? ==>
              var m := library(QueryOf(event), data).message;
              r.body == Error(if Truthy(m) then Message(m) else ThrownItself(Thrown(Undefined, m)))
    ensures Validate(event).Fail? ==>
              r == Response(Validate(event).error.statusCode, Error(Message(Validate(event).error.message)))
  {
    match Validate(event)
    case Fail(e) =>
      var f := Catch(e);
      Response(f.statusCode, Error(f.body))
    case Pass =>
      match library(Prop(Get(event, "queryStringParameters"), "query"), data)
      case Returned(result) => Response(Num(200.0), Results(result))
      case Failed(m) =>
        var f := Catch(Thrown(Undefined, m));
        Response(f.statusCode, Error(f.body))
  }

  /** A rejected request never reaches the query library: whatever the
      library would do, the response is the same, and it is the client error
      of the first check that fails, with that check's message. */
  lemma RejectedBeforeLibrary<R>(event: Object, data: seq<Object>,
                                 library1: (Value, seq<Object>) -> Outcome<R>,
                                 library2: (Value, seq<Object>) -> Outcome<R>)
    requires !Acceptable(event)
    ensures Handle(event, data, library1) == Handle(event, data, library2)
    ensures Get(event, "path") != Str("/") ==>
              Handle(event, data, library1) == Response(Num(404.0), Error(Message(Str(PathMessage))))
    ensures Get(event, "path") == Str("/") && Get(event, "httpMethod") != Str("GET") ==>
              Handle(event, data, library1) == Response(Num(405.0), Error(Message(Str(MethodMessage))))
    ensures Get(event, "path") == Str("/") && Get(event, "httpMethod") == Str("GET") ==>
              Handle(event, data, library1) == Response(Num(400.0), Error(Message(Str(QueryMessage))))
  {
  }

  /** An empty event fails the path check first. */
  lemma EmptyEventIsNotFound<R>(data: seq<Object>, library: (Value, seq<Object>) -> Outcome<R>)
    ensures Handle(map[], data, library) == Response(Num(404.0), Error(Message(Str(PathMessage))))
  {
  }

  /** `{path: "/"}` fails the method check. */
  lemma MissingMethodIsNotAllowed<R>(data: seq<Object>, library: (Value, seq<Object>) -> Outcome<R>)
    ensures Handle(map["path" := Str("/")], data, library) == Response(Num(405.0), Error(Message(Str(MethodMessage))))
  {
  }

  /** `{path: "/", httpMethod: "GET"}` fails the query check, and so does an
      empty query or a parameters object without one. */
  lemma MissingQueryIsBadRequest<R>(params: Value, data: seq<Object>, library: (Value, seq<Object>) -> Outcome<R>)
    requires params == Undefined || params == Obj(map[]) || params == Obj(map["query" := Str("")])
    ensures Handle(map["path" := Str("/"), "httpMethod" := Str("GET"), "queryStringParameters" := params], data, library)
            == Response(Num(400.0), Error(Message(Str(QueryMessage))))
  {
  }

  /** A query the library rejects with a message (a syntax error, say) is
      answered with 500 and that message. */
  lemma LibraryErrorIsServerError<R>(query: string, message: string, data: seq<Object>,
                                     library: (Value, seq<Object>) -> Outcome<R>)
    requires query != "" && message != ""
    requires library(Str(query), data) == Failed(Str(message))
    ensures Handle(map["path" := Str("/"), "httpMethod" := Str("GET"),
                       "queryStringParameters" := Obj(map["query" := Str(query)])], data, library)
            == Response(Num(500.0), Error(Message(Str(message))))
  {
  }
}
