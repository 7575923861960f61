# vscode-cql: statement splitting and result routing

A model of the logic of its own that the `cql.execute` editor command in
`src/cqlExecutor.ts` has. The model has three parts around the Cassandra
driver call.

- **Statement splitting** (module `StatementSplitting`). This is the expression chain
  `replace(/(\n|\r)/gm, "\r\n").split("\r\n").filter(non-empty).filter(not startsWith "//")`.
  Each stage is a function. JavaScript's `String.prototype.split` with a
  non-empty separator is `Split`. It is checked against an independent
  reference, `Lines`, which cuts the text at every single CR or LF. The
  main theorem (`SplitNormalizedIsLines`) says that splitting the normalised
  text on CRLF gives exactly the lines. Every property of the statements
  follows from it: they are non-empty, no statement begins with `//`, no
  statement holds a line break, LF, CR and CRLF give the same statements,
  nothing is lost or reordered, and split-join-split is a fixed point.
- **Client options** (module `ConnectionOptions`). This is the choice between the
  `connection` setting, used as is when it is truthy, and a record with
  `contactPoints == hosts == [address]`. JavaScript truthiness is modelled
  on a small `JsValue` datatype.
- **Execution and result routing** (module `CqlExecutor`, class `Session`).
  The class holds the module-level `currentResults`, the output channel as
  a `seq<string>` log, the preview commands issued, and the requests handed
  to the driver.
  - `ExecuteText` computes the statements and `ExecuteStatements` runs the
    command's `forEach` over them in order.
  - `ExecuteStatement` chooses the client options, logs the
    "Executing statement" line and issues the request.
  - `Complete` is the driver callback. It records the error or the result
    and logs one status line.
  - `ShowResults` either logs three lines (output mode) or opens a preview.
    A preview opens only when `resultBased` is truthy and `rowLength > 0`,
    and its URI's `error` flag says whether an error occurred.

The code never trims: a line such as `  // note` is a statement, because
the comment test is an exact prefix test.

The source has one edge that the model makes explicit. When `resultBased`
is truthy and the driver passes no result (`results` undefined, as on an
error), reading `results.rowLength` raises a `TypeError`. `ShowResults`
reports that case as `threw` and opens no preview.

## Model

| member | source | states |
|---|---|---|
| `StatementSplitting.NormalizeBreaks` | src/cqlExecutor.ts:22 | after replacing each CR and LF with CRLF, every CR is followed by an LF and every LF follows a CR; the text is empty only if the input was, and it never gets shorter |
| `StatementSplitting.Split` | src/cqlExecutor.ts:23 | `split` with a non-empty separator always returns at least one piece, and a text shorter than the separator is returned whole |
| `StatementSplitting.SplitHeadIsPrefix` | src/cqlExecutor.ts:23 | the first piece of `split` is a prefix of the text |
| `StatementSplitting.SplitPiecesAvoidSeparator` | src/cqlExecutor.ts:23 | no piece of `split` contains the separator anywhere, so every occurrence is cut |
| `StatementSplitting.JoinSplit` | src/cqlExecutor.ts:23 | joining the pieces of `split` with the separator gives the text back, so `split` loses nothing |
| `StatementSplitting.Filter` | src/cqlExecutor.ts:23-24 | `filter` keeps an element exactly when it is in the input and satisfies the predicate, and never lengthens the list |
| `StatementSplitting.Statements` | src/cqlExecutor.ts:22-24 | the whole chain; every statement it yields is non-empty and not `//`-prefixed |
| `StatementSplitting.FilterConcat` | src/cqlExecutor.ts:23-24 | filtering a concatenation is the concatenation of the filtered parts, so `filter` keeps order |
| `StatementSplitting.Lines` | src/cqlExecutor.ts:22-23 | the reference cut of a text at every single CR or LF: at least one line, and no line holds a CR or LF |
| `StatementSplitting.LinesOfBreakFree` | src/cqlExecutor.ts:22-23 | a text without CR or LF is one line |
| `StatementSplitting.LinesAtBreak` | src/cqlExecutor.ts:22-23 | cutting at a CR or LF splits the list of lines into the lines before it and the lines after it |
| `StatementSplitting.InterleaveLines` | src/cqlExecutor.ts:22-23 | the lines, put back together with the breaks between them, give the text, and there is one more line than there are breaks |
| `StatementSplitting.LinesOfInterleave` | src/cqlExecutor.ts:22-23 | any CR/LF-free pieces joined by single CR or LF characters are cut back into exactly those pieces, so the lines are the maximal CR/LF-free segments |
| `StatementSplitting.SplitNormalizedIsLines` | src/cqlExecutor.ts:22-23 | splitting the CRLF-normalised text on CRLF gives exactly the lines of the original text |
| `StatementSplitting.FilterTwice` | src/cqlExecutor.ts:23-24 | the two filters in a row keep exactly the pieces that are non-empty and not `//`-prefixed |
| `StatementSplitting.StatementsAreKeptLines` | src/cqlExecutor.ts:22-24 | the statements are exactly the lines of the text that are non-empty and do not begin with `//`, in text order |
| `StatementSplitting.StatementsWellFormed` | src/cqlExecutor.ts:22-24 | every statement is non-empty, does not begin with `//` and contains no CR or LF |
| `StatementSplitting.LinesAtCrLf` | src/cqlExecutor.ts:22-23 | a CRLF pair cuts the text into the lines before it, one empty line, and the lines after it |
| `StatementSplitting.FilterSkipsEmpty` | src/cqlExecutor.ts:23 | an empty piece never reaches the statements |
| `StatementSplitting.LineEndingsAgree` | src/cqlExecutor.ts:22-23 | a CRLF, a lone CR and a lone LF at the same place give the same statements |
| `StatementSplitting.KeptLinesOfJoin` | src/cqlExecutor.ts:22-24 | statements joined with CRLF have exactly those statements as their kept lines |
| `StatementSplitting.StatementsOfJoin` | src/cqlExecutor.ts:22-24 | splitting well-formed statements joined by CRLF gives exactly those statements back |
| `StatementSplitting.SplitIdempotent` | src/cqlExecutor.ts:22-24 | joining the statements with CRLF and splitting again gives the same statements |
| `ConnectionOptions.Truthy` | src/cqlExecutor.ts:37 | JavaScript's `!!`: false exactly for unset, null, false, 0 and "" |
| `ConnectionOptions.ChooseClientOptions` | src/cqlExecutor.ts:37-42 | a truthy `connection` setting is used unchanged; otherwise the options have `contactPoints == hosts == [address]` |
| `ConnectionOptions.FalsySettingsFallBack` | src/cqlExecutor.ts:37 | the falsy settings are exactly unset, null, false, 0 and "", and each leads to the address-built options |
| `CqlExecutor.ExecutingLine` | src/cqlExecutor.ts:50 | the line logged before a statement is sent starts with `Executing statement:"<statement>"` and ends with `<address>:<port>` |
| `CqlExecutor.Recorded` | src/cqlExecutor.ts:55-59 | `currentResults` becomes the error exactly when there is one, and otherwise the result |
| `CqlExecutor.StatusLine` | src/cqlExecutor.ts:57-60 | with an error the status line is `Error executing statement: ` followed by the error at the default inspect depth; otherwise it is `Execution successful.` |
| `CqlExecutor.Inspect` | src/cqlExecutor.ts:79 | the results line shows an error at inspect depth 64, a result set's rendering, `{}` before any result, or `undefined` |
| `CqlExecutor.OpensPreview` | src/cqlExecutor.ts:83-92 | a preview opens only with a truthy `resultBased` and a result whose `rowLength` is at least 1 |
| `CqlExecutor.RequestsFor` | src/cqlExecutor.ts:26 | one request per statement, the i-th carrying the i-th statement and the options `ChooseClientOptions` picks |
| `CqlExecutor.ExecutingLines` | src/cqlExecutor.ts:26 | one line per statement, the i-th being `ExecutingLine` of the i-th statement |
| `CqlExecutor.IssuedOneMore` | src/cqlExecutor.ts:26 | issuing the next statement extends the requests and the logged lines by exactly that statement's own |
| `CqlExecutor.PreviewUri` | src/cqlExecutor.ts:94 | the preview URI starts with `cql-result://api/results` and the uuid, and ends with `?error=true` exactly when an error occurred (`?error=false` otherwise) |
| `CqlExecutor.Session.constructor` | src/cqlExecutor.ts:8-9 | `currentResults` starts as the empty object, and the log, previews and requests start empty |
| `CqlExecutor.Session.ExecuteStatement` | src/cqlExecutor.ts:33-53 | one "Executing statement" line is logged and one request is issued with the options `ChooseClientOptions` picks |
| `CqlExecutor.Session.ExecuteStatements` | src/cqlExecutor.ts:26 | the `forEach` issues exactly the given statements, in order, each with the chosen options, and logs one "Executing statement" line for each |
| `CqlExecutor.Session.ExecuteText` | src/cqlExecutor.ts:22-26 | the requests issued are exactly `Statements(text)`, in order, each with the chosen options, and the log gains one "Executing statement" line per statement |
| `CqlExecutor.Session.Complete` | src/cqlExecutor.ts:55-62 | `currentResults` becomes the error if any, else the result; in output mode the log gains the status line and three more lines (the second is the just-recorded value, an error shown at depth 64 where the status line shows it at the default depth) and no preview opens; otherwise the log gains only the status line, and a preview opens exactly when `OpensPreview` holds |
| `CqlExecutor.Session.ShowResults` | src/cqlExecutor.ts:76-101 | output mode: exactly three lines are appended and no preview opens; other modes: the log is unchanged, it raises exactly when `resultBased` is truthy and the result is undefined, and one preview with `error=` the error flag opens exactly when `resultBased` is truthy and `rowLength > 0` |

## Left out

- Host editor APIs are left out because they are I/O; the model takes their values as parameters. These are command registration, reading the selection or the whole document, configuration lookup, `outputChannel.show()`, `registerTextDocumentContentProvider` and `registerAll` (src/cqlExecutor.ts:11-20, 33-35, 49, 67-74).
- The preview command's promise and its `showErrorMessage` on rejection (src/cqlExecutor.ts:95-100) are host I/O. A preview is recorded as the command being issued, with URI and title. The constant `ViewColumn.Two` is not recorded.
- The Cassandra driver's `Client`, `connect` and `execute`, and its asynchronous scheduling, are left out because the driver is a foreign network client (src/cqlExecutor.ts:46, 52-53). The driver may call back in any order. `Complete` models one callback with the `(err, result)` it receives, and the error from `connect` is ignored, as in the source.
- `util.inspect`, `new Date().toTimeString()` and `uuid.v4()` are formatting, the clock and randomness. The inspected text is a field of the error and result values; the time and the uuid are string parameters.
- `console.log` and the unused `stringify` import are left out because they have no observable effect on the model (src/cqlExecutor.ts:6, 31, 44, 48, 54).
- `ConnectionOptions.Truthy`: numbers are integers only. Fractional numbers, `NaN` and `-0` are not modelled, because there is no floating point.
- `CqlExecutor.Session.ShowResults`: `location` is compared as a string. JavaScript's loose `==` against a non-string setting is not modelled. A missing `resultStyle` setting, which would raise on `.location`, is not modelled either.
- `CqlExecutor.Session.Complete`: a `TypeError` raised inside `showResults` is reported as `threw`. Its propagation into the driver is not modelled.
