/** The execution side of the extension: each statement is handed to the
    Cassandra driver with the chosen client options, the completion handler
    records the driver's answer in `currentResults` and in the output log,
    and `showResults` either prints the answer to the log or opens a result
    preview.  The driver, the clock and the editor are not modelled; what
    they deliver arrives as parameters. */
module CqlExecutor {
  import opened StatementSplitting
  import opened ConnectionOptions

  datatype Option<T> = None | Some(value: T)

  /** An error passed to the driver callback.  `inspected` is the text
      `util.inspect` renders for it at its default depth (2), as in the status
      line; `inspectedDeep` is the text it renders at depth 64, as in the
      results line.  The two differ for errors nested more deeply. */
  datatype DriverError = DriverError(inspected: string, inspectedDeep: string)

  /** A result set passed to the driver callback: its `rowLength` and the
      text `util.inspect` renders for it at depth 64 (it is only ever
      rendered in the results line). */
  datatype ResultSet = ResultSet(rowLength: int, inspected: string)

  /** The values the module-level `currentResults` takes: the empty object
      it starts as, the last error, or the last result (which the driver
      may leave undefined). */
  datatype Current =
    | Initial
    | Failed(error: DriverError)
    | Returned(result: Option<ResultSet>)

  /** The `cql` settings read for one statement. */
  datatype Settings = Settings(address: string, port: string, connection: JsValue)

  /** The `cql.resultStyle` setting. */
  datatype ResultStyle = ResultStyle(location: string, resultBased: JsValue)

  /** A statement handed to the driver together with its client options. */
  datatype Request = Request(statement: string, options: ClientOptions)

  /** A `vscode.previewHtml` command issued for the result document; it
      always opens in the second column. */
  datatype Preview = Preview(uri: string, title: string)

  const OutputLocation: string := "output"
  const PreviewTitle: string := "Cassandra Execution Results"
  const ResultScheme: string := "cql-result://api/results"
  const ErrorTrue: string := "?error=true"
  const ErrorFalse: string := "?error=false"

  predicate EndsWith(s: string, p: string) { |p| <= |s| && s[|s| - |p|..] == p }

  /** What `util.inspect(..., {depth: 64})` shows in the results line:
      an error at depth 64, a result set, or the JavaScript renderings of
      `{}` and `undefined`. */
  function Inspect(c: Current): (r: string)
    ensures c.Failed? ==> r == c.error.inspectedDeep
    ensures c.Returned? && c.result.Some? ==> r == c.result.value.inspected
    ensures c == Initial ==> r == "{}"
    ensures c == Returned(None) ==> r == "undefined"
  {
    match c
    case Initial => "{}"
    case Failed(e) => e.inspectedDeep
    case Returned(None) => "undefined"
    case Returned(Some(r)) => r.inspected
  }

  /** The value `currentResults` takes when the driver answers `(err, result)`. */
  function Recorded(err: Option<DriverError>, result: Option<ResultSet>): (c: Current)
    ensures c.Failed? <==> err.Some?
    ensures err.Some? ==> c.error == err.value
    ensures err.None? ==> c == Returned(result)
  {
    if err.Some? then Failed(err.value) else Returned(result)
  }

  /** The one status line the completion handler writes. */
  function StatusLine(err: Option<DriverError>): (line: string)
    ensures err.Some? ==> StartsWith(line, "Error executing statement: ")
                          && EndsWith(line, err.value.inspected)
    ensures err.None? ==> line == "Execution successful."
  {
    if err.Some? then "Error executing statement: " + err.value.inspected
    else "Execution successful."
  }

  /** The line written before a statement is handed to the driver. */
  function ExecutingLine(statement: string, settings: Settings): (line: string)
    ensures StartsWith(line, "Executing statement:\"" + statement + "\"")
    ensures EndsWith(line, settings.address + ":" + settings.port)
  {
    var head := "Executing statement:\"" + statement + "\"";
    var tail := settings.address + ":" + settings.port;
    var line := head + " against Cassandra @  + " + tail;
    assert line[..|head|] == head;
    assert line[|line| - |tail|..] == tail;
    line
  }

  /** The requests issued for `statements`, one each, in order. */
  function RequestsFor(statements: seq<string>, settings: Settings): (r: seq<Request>)
    ensures |r| == |statements|
    ensures forall i :: 0 <= i < |r| ==> r[i].statement == statements[i]
    ensures forall i :: 0 <= i < |r| ==>
      r[i].options == ChooseClientOptions(settings.connection, settings.address)
  {
    if statements == [] then []
    else
      var last := statements[|statements| - 1];
      RequestsFor(statements[..|statements| - 1], settings)
        + [Request(last, ChooseClientOptions(settings.connection, settings.address))]
  }

  /** The lines logged while issuing the requests for `statements`. */
  function ExecutingLines(statements: seq<string>, settings: Settings): (r: seq<string>)
    ensures |r| == |statements|
    ensures forall i :: 0 <= i < |r| ==> r[i] == ExecutingLine(statements[i], settings)
  {
    if statements == [] then []
    else
      var last := statements[|statements| - 1];
      ExecutingLines(statements[..|statements| - 1], settings) + [ExecutingLine(last, settings)]
  }

  /** Issuing the next statement extends the requests and the lines by
      that statement's own. */
  lemma IssuedOneMore(statements: seq<string>, i: nat, settings: Settings)
    requires i < |statements|
    ensures RequestsFor(statements[..i + 1], settings) == RequestsFor(statements[..i], settings)
      + [Request(statements[i], ChooseClientOptions(settings.connection, settings.address))]
    ensures ExecutingLines(statements[..i + 1], settings) == ExecutingLines(statements[..i], settings)
      + [ExecutingLine(statements[i], settings)]
  {
    assert statements[..i + 1][..i] == statements[..i];
  }

  /** The uri of the result document.  `id` is the random uuid.  The
      `error` query flag is `true` exactly when the driver reported an
      error. */
  function PreviewUri(id: string, error: bool): (r: string)
    ensures StartsWith(r, ResultScheme + id)
    ensures EndsWith(r, ErrorTrue) <==> error
    ensures EndsWith(r, ErrorFalse) <==> !error
  {
    var flag := if error then ErrorTrue else ErrorFalse;
    var r := ResultScheme + id + flag;
    assert r[..|ResultScheme + id|] == ResultScheme + id;
    assert r[|r| - |flag|..] == flag;
    assert r[|r| - 2] == flag[|flag| - 2];
    assert ErrorTrue[|ErrorTrue| - 2] != ErrorFalse[|ErrorFalse| - 2];
    r
  }

  /** Whether `showResults` opens a preview when it is not in output mode:
      `hasReturnedRows` becomes true only inside the `resultBased` branch,
      and only for a positive `rowLength`. */
  predicate OpensPreview(result: Option<ResultSet>, style: ResultStyle)
    ensures OpensPreview(result, style) ==> result.Some? && result.value.rowLength >= 1
    ensures !Truthy(style.resultBased) ==> !OpensPreview(result, style)
  {
    Truthy(style.resultBased) && result.Some? && result.value.rowLength > 0
  }

  /** The output channel, the module-level `currentResults`, and the
      effects the editor and the driver see. */
  class Session {
    var currentResults: Current
    var log: seq<string>
    var previews: seq<Preview>
    var requests: seq<Request>

    constructor ()
      ensures currentResults == Initial && log == [] && previews == [] && requests == []
    {
      currentResults := Initial;
      log := [];
      previews := [];
      requests := [];
    }

    /** `executeCqlStatement` up to the call into the driver: the client
        options are chosen, one line is logged, the request is issued. */
    method ExecuteStatement(statement: string, settings: Settings)
      modifies this`log, this`requests
      ensures log == old(log) + [ExecutingLine(statement, settings)]
      ensures requests == old(requests)
        + [Request(statement, ChooseClientOptions(settings.connection, settings.address))]
    {
      var clientOptions := ChooseClientOptions(settings.connection, settings.address);
      log := log + [ExecutingLine(statement, settings)];
      requests := requests + [Request(statement, clientOptions)];
    }

    /** The `forEach` over the statements: each is issued once, in order. */
    method ExecuteStatements(statements: seq<string>, settings: Settings)
      modifies this`log, this`requests
      ensures requests == old(requests) + RequestsFor(statements, settings)
      ensures log == old(log) + ExecutingLines(statements, settings)
    {
      var i := 0;
      while i < |statements|
        invariant 0 <= i <= |statements|
        invariant requests == old(requests) + RequestsFor(statements[..i], settings)
        invariant log == old(log) + ExecutingLines(statements[..i], settings)
      {
        ExecuteStatement(statements[i], settings);
        IssuedOneMore(statements, i, settings);
        i := i + 1;
      }
      assert statements[..i] == statements;
    }

    /** The `cql.execute` command on the selected text: the statements of
        the text, each issued once, in text order. */
    method ExecuteText(text: string, settings: Settings)
      modifies this`log, this`requests
      ensures requests == old(requests) + RequestsFor(Statements(text), settings)
      ensures log == old(log) + ExecutingLines(Statements(text), settings)
    {
      var statements := Statements(text);
      ExecuteStatements(statements, settings);
    }

    /** The driver callback: `currentResults` becomes the error if there is
        one and the result otherwise, one status line is logged, and then
        the results are shown.  `threw` is set when showing them raises. */
    method Complete(err: Option<DriverError>, result: Option<ResultSet>, style: ResultStyle,
                    id: string, now: string) returns (threw: bool)
      modifies this`currentResults, this`log, this`previews
      ensures currentResults == Recorded(err, result)
      ensures style.location == OutputLocation ==>
        !threw && previews == old(previews)
        && log == old(log) + [StatusLine(err), "Results:", Inspect(currentResults), now]
      ensures style.location != OutputLocation ==>
        log == old(log) + [StatusLine(err)]
        && threw == (Truthy(style.resultBased) && result.None?)
        && previews == old(previews)
             + (if OpensPreview(result, style) then [Preview(PreviewUri(id, err.Some?), PreviewTitle)] else [])
    {
      if err.Some? {
        currentResults := Failed(err.value);
        log := log + ["Error executing statement: " + err.value.inspected];
      } else {
        currentResults := Returned(result);
        log := log + ["Execution successful."];
      }
      threw := ShowResults(err, result, style, id, now);
    }

    /** `showResults`.  In output mode three lines are logged: a header, the
        error or the current results, and the time.  Otherwise a preview is
        opened when the rows flag is set; reading `rowLength` of an
        undefined result raises a TypeError, reported as `threw`. */
    method ShowResults(err: Option<DriverError>, result: Option<ResultSet>, style: ResultStyle,
                       id: string, now: string) returns (threw: bool)
      modifies this`log, this`previews
      ensures style.location == OutputLocation ==>
        !threw && previews == old(previews)
        && log == old(log) + ["Results:", Inspect(if err.Some? then Failed(err.value) else currentResults), now]
      ensures style.location != OutputLocation ==>
        log == old(log)
        && threw == (Truthy(style.resultBased) && result.None?)
        && previews == old(previews)
             + (if OpensPreview(result, style) then [Preview(PreviewUri(id, err.Some?), PreviewTitle)] else [])
    {
      threw := false;
      if style.location == OutputLocation {
        var shown := if err.Some? then Failed(err.value) else currentResults;
        log := log + ["Results:", Inspect(shown), now];
      } else {
        // `var hasReturnedRows` is hoisted: it is undefined, hence falsy,
        // when the `resultBased` branch is not taken.
        var hasReturnedRows := false;
        if Truthy(style.resultBased) {
          hasReturnedRows := false;
          if result.None? {
            threw := true;
            return;
          }
          if result.value.rowLength > 0 {
            hasReturnedRows := true;
          }
        }
        if hasReturnedRows {
          previews := previews + [Preview(PreviewUri(id, err.Some?), PreviewTitle)];
        }
      }
    }
  }
}
