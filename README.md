# Debug Adapter Protocol data model

A Dafny model of the value objects a Debug Adapter Protocol (DAP) client
builds from the bodies of an adapter's messages: `Thread`, `StackFrame` (with
its `StackFramePresentation` codes), `Scope`, `Variable`, `EvaluateResponse`
and `CompletionItem`, as defined in `main/debug_adapter_client/types.py`.

Each `from_json` takes an already-decoded JSON value (`Json.Json`: null,
booleans, integers, strings, arrays, string-keyed objects) and returns a
`DapTypes.Result`: the record, or the error the Python code would raise
(`MissingKey` for a `KeyError`, `NotAnObject` when `.get` or `[key]` is applied
to something that is not a dictionary). Python truthiness is modelled exactly
by `Json.Truthy`, so `if source:` is false for an absent key, `null`, `0`,
`false`, `""`, `[]` and `{}`, and `if path:` likewise.

Files:
- `json.dfy` (module `Json`): decoded JSON values, `Truthy`, `Get` (`dict.get`).
- `types.dfy` (module `DapTypes`): the records and their constructors and parsers.
- `properties.dfy` (module `DapTypesProperties`): the `source` rules, the
  presentation mapping, which key each parser fails on, round trips through
  reference encoders (`StackFrameToJson`, `ScopeToJson`, `VariableToJson`,
  `CompletionItemToJson`, which build the JSON an adapter would send), and
  worked examples.

Behaviour worth noting:
- A frame with no `source`, or a null or empty one, is not internal: only a
  non-empty `source` whose `path` is falsy sets `internal`
  (`types.py:29-35`). `LabelFrameWithoutSource` states this for
  `{id:1, name:"foo", presentationHint:"label"}`.
- `Variable` stores 0 as `containerVariablesReference` whatever argument it
  is given (`types.py:77`). The model keeps this (`NewVariable`,
  `NewVariableIgnoresContainer`).
- `EvaluateResponse` is the datatype `DapTypes.EvaluateResponse`; the source
  only constructs it, so it has no operation of its own.

## Model

| member | source | states |
|---|---|---|
| DapTypes.NewThread | main/debug_adapter_client/types.py:6-11 | a new thread keeps the given id and name and is not stopped, not selected and not expanded |
| DapTypes.Presentation.Code | main/debug_adapter_client/types.py:13-16 | the stored constants are normal = 1, label = 2, subtle = 3, so the codes are distinct and every code lies in 1..3 |
| DapTypes.PresentationOf | main/debug_adapter_client/types.py:37-44 | the hint selects label exactly when it is the string "label", subtle exactly when it is "subtle", normal for every other value |
| DapTypes.OriginOf | main/debug_adapter_client/types.py:29-35 | the source part succeeds exactly on readable sources; the file is never empty; internal holds exactly for a truthy source object with a falsy path, and then the file is "??"; otherwise the file is the path of a truthy source and "??" for a falsy one |
| DapTypes.StackFrameFromJson | main/debug_adapter_client/types.py:28-53 | succeeds exactly on well-formed frames; copies id and name; line is the given one or 0; file is non-empty; internal exactly for a pathless source; file and internal are exactly what OriginOf derives from the source |
| DapTypes.ScopeFromJson | main/debug_adapter_client/types.py:63-70 | succeeds exactly when name, variablesReference and expensive are all present with their declared JSON kinds (see Left out); copies all three |
| DapTypes.NewVariable | main/debug_adapter_client/types.py:73-78 | keeps name, value and variablesReference; containerVariablesReference is always 0 |
| DapTypes.VariableFromJson | main/debug_adapter_client/types.py:80-87 | succeeds exactly when name and value are present as strings and variablesReference is absent or an integer (see Left out); variablesReference defaults to 0; container reference is 0 |
| DapTypes.CompletionItemFromJson | main/debug_adapter_client/types.py:100-105 | succeeds exactly when label is present as a string and text is absent, null or a string (see Left out); copies label; text is None when the key is missing or null and Some of the given string otherwise |
| DapTypesProperties.NoSourceMeansUnknownFile | main/debug_adapter_client/types.py:29-32 | with no, null or empty-object source the frame parses iff id, name and line do, and then file is "??" and internal is false |
| DapTypesProperties.SourcePathIsFile | main/debug_adapter_client/types.py:31-34 | a source whose path is a non-empty string gives that path as file and internal false |
| DapTypesProperties.PathlessSourceIsInternal | main/debug_adapter_client/types.py:31-35 | a non-empty source with absent, null or empty path gives file "??" and internal true |
| DapTypesProperties.InternalOnlyForPathlessSource | main/debug_adapter_client/types.py:29-35 | internal is true only when the frame has a non-empty source object whose path is falsy |
| DapTypesProperties.SourceNotAnObjectFails | main/debug_adapter_client/types.py:31-33 | a truthy source that is not an object fails, as calling .get on it raises |
| DapTypesProperties.PresentationOfHintName | main/debug_adapter_client/types.py:37-44 | each presentation is selected by its own hint name |
| DapTypesProperties.HintSelectsPresentation | main/debug_adapter_client/types.py:37-44 | a parsed frame is label or subtle exactly when its hint is that string, and normal when the hint is missing |
| DapTypesProperties.FrameMissingIdFails | main/debug_adapter_client/types.py:46-47 | a frame without id fails with a missing-key error for id |
| DapTypesProperties.FrameMissingNameFails | main/debug_adapter_client/types.py:46-49 | a frame with an id but without name fails with a missing-key error for name |
| DapTypesProperties.StackFrameRoundTrip | main/debug_adapter_client/types.py:18-53 | every frame with a non-empty file, "??" when internal, is recovered from the JSON an adapter would send for it |
| DapTypesProperties.ParsedFrameIsParsable | main/debug_adapter_client/types.py:29-35 | every parsed frame has a non-empty file, and "??" when internal, so the round trip covers all parser outputs |
| DapTypesProperties.ScopeMissingKeyFails | main/debug_adapter_client/types.py:64-70 | a scope fails on the first missing key among name, variablesReference, expensive |
| DapTypesProperties.ScopeRoundTrip | main/debug_adapter_client/types.py:56-70 | every scope is recovered from its JSON |
| DapTypesProperties.NewVariableIgnoresContainer | main/debug_adapter_client/types.py:73-77 | the container argument has no effect on the constructed variable |
| DapTypesProperties.VariableDefaults | main/debug_adapter_client/types.py:81-87 | missing name or value fails on that key; missing variablesReference gives 0 |
| DapTypesProperties.VariableRoundTrip | main/debug_adapter_client/types.py:72-87 | a variable is recovered from its JSON exactly when its container reference is 0 |
| DapTypesProperties.CompletionItemDefaults | main/debug_adapter_client/types.py:101-105 | missing label fails on label; missing text gives an item with no text |
| DapTypesProperties.CompletionItemRoundTrip | main/debug_adapter_client/types.py:95-105 | every completion item is recovered from its JSON |
| DapTypesProperties.LabelFrameWithoutSource | main/debug_adapter_client/types.py:28-53 | {id:1, name:"foo", presentationHint:"label"} gives file "??", line 0, internal false, label |
| DapTypesProperties.FrameWithPath | main/debug_adapter_client/types.py:28-53 | {id:2, name:"bar", source:{path:"/a/b.py"}, line:10} gives file "/a/b.py", line 10, internal false, normal |
| DapTypesProperties.CompletionWithoutText | main/debug_adapter_client/types.py:101-105 | {label:"x"} gives an item with no text, not an error |

## Left out

- DapTypes.OriginOf, DapTypes.StackFrameFromJson, DapTypes.ScopeFromJson, DapTypes.VariableFromJson, DapTypes.CompletionItemFromJson: a present value of another JSON kind than the field's declared type (a string `id`, a null `line`, a non-string truthy `path`) fails with `WrongType`, where Python stores whatever value it finds; the records are typed, so the model cannot hold such a value.
- The `client` back-reference that `Scope` and `Variable` hold: an opaque handle to the adapter connection with no behaviour in these types.
- The Python exception classes and messages: a `KeyError` from `json[key]` becomes `MissingKey`; an `AttributeError` (`.get` on a value that is not a dictionary) and a `TypeError` (`[key]` on a list, string or `None`) both become `NotAnObject`. `WrongType` stands for no Python exception: it is the model's failure where Python would store a value of another type (see the first line of this section).
- JSON numbers with a fraction or exponent, and Python's treatment of `True`/`False` as integers: only integer numbers are modelled, and booleans are a kind of their own.
- JSON text decoding and the `Content-Length` framing of messages: the model starts from decoded values.
- Later changes to a thread's `stopped`, `selected` and `expanded` flags: they are made by code outside `types.py`.
- `modules/debugger/debugger_project.py` and `modules/debugger/view_hover.py` are not part of this model: editor window, project data, settings and hover popups.
- The adapter client (`client.py`, imported at `types.py:3` only for type annotations) is not part of this model; only `types.py` is.

