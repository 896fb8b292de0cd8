/**
 * The value objects a Debug Adapter Protocol client builds from the bodies of
 * the adapter's messages: threads, stack frames, scopes, variables, evaluation
 * results and completion items. Each `FromJson` is the model of one
 * `from_json`: a parser over an already-decoded JSON value that either yields
 * the record or fails with the exception the Python code would raise.
 */
module DapTypes {
  import opened Json

  /** The exceptions a `from_json` raises, as values. */
  datatype Error =
    | MissingKey(key: string)    // `KeyError` from `json[key]`
    | NotAnObject(what: string)  // `.get` or `[key]` applied to a value that is not a dictionary
    | WrongType(key: string)     // the value under `key` is not of the field's declared type

  datatype Result<T> = Ok(value: T) | Fail(error: Error) {
    predicate IsFailure() { Fail? }
    function PropagateFailure<U>(): Result<U> requires Fail? { Fail(error) }
    function Extract(): T requires Ok? { value }
  }

  datatype Option<T> = None | Some(value: T)

  // ---------------------------------------------------------------------------
  // Dictionary access with the field types the constructors declare

  predicate HasInt(d: map<string, Json>, key: string) { key in d && d[key].JInt? }
  predicate HasStr(d: map<string, Json>, key: string) { key in d && d[key].JStr? }
  predicate HasBool(d: map<string, Json>, key: string) { key in d && d[key].JBool? }
  /** `d.get(key, default)` can be stored in an `int` field. */
  predicate IntOrAbsent(d: map<string, Json>, key: string) { key !in d || d[key].JInt? }

  function AsObject(v: Json, what: string): Result<map<string, Json>> {
    if v.JObj? then Ok(v.fields) else Fail(NotAnObject(what))
  }

  /** `d[key]` for a field declared `int`. */
  function RequiredInt(d: map<string, Json>, key: string): Result<int> {
    if key !in d then Fail(MissingKey(key))
    else if d[key].JInt? then Ok(d[key].i)
    else Fail(WrongType(key))
  }

  /** `d[key]` for a field declared `str`. */
  function RequiredStr(d: map<string, Json>, key: string): Result<string> {
    if key !in d then Fail(MissingKey(key))
    else if d[key].JStr? then Ok(d[key].s)
    else Fail(WrongType(key))
  }

  /** `d[key]` for a field declared `bool`. */
  function RequiredBool(d: map<string, Json>, key: string): Result<bool> {
    if key !in d then Fail(MissingKey(key))
    else if d[key].JBool? then Ok(d[key].b)
    else Fail(WrongType(key))
  }

  /** `d.get(key, default)` for a field declared `int`. */
  function IntOr(d: map<string, Json>, key: string, default: int): Result<int> {
    if key !in d then Ok(default)
    else if d[key].JInt? then Ok(d[key].i)
    else Fail(WrongType(key))
  }

  // ---------------------------------------------------------------------------
  // Thread

  datatype Thread = Thread(id: int, name: string, stopped: bool, selected: bool, expanded: bool)

  /** `Thread(id, name)`: a new thread is running, unselected and collapsed. */
  function NewThread(id: int, name: string): (t: Thread)
    ensures t.id == id && t.name == name
    ensures !t.stopped && !t.selected && !t.expanded
  {
    Thread(id, name, false, false, false)
  }

  // ---------------------------------------------------------------------------
  // Stack frames

  /** `StackFramePresentation`: how the front end shows a frame. */
  datatype Presentation = Normal | Label | Subtle {
    /** The integer constant the source stores in `StackFrame.presentation`. */
    function Code(): (c: int)
      ensures 1 <= c <= 3
      ensures c == 1 <==> this == Normal
      ensures c == 2 <==> this == Label
    {
      match this
      case Normal => 1
      case Label => 2
      case Subtle => 3
    }
  }

  /** The protocol's `presentationHint` string naming each presentation. */
  function HintName(p: Presentation): string {
    match p
    case Normal => "normal"
    case Label => "label"
    case Subtle => "subtle"
  }

  /** The presentation a `presentationHint` value selects; anything unrecognised is `Normal`. */
  function PresentationOf(hint: Json): (p: Presentation)
    ensures p == Label <==> hint == JStr("label")
    ensures p == Subtle <==> hint == JStr("subtle")
    ensures p == Normal <==> hint !in {JStr("label"), JStr("subtle")}
  {
    if hint == JStr("label") then Label
    else if hint == JStr("subtle") then Subtle
    else Normal
  }

  datatype StackFrame = StackFrame(
    id: int, file: string, name: string, line: int, internal: bool, presentation: Presentation)

  /** The sentinel file name of a frame whose source has no path. */
  const UnknownFile: string := "??"

  /** `frame.get('source')`. */
  function SourceOf(frame: map<string, Json>): Json { Get(frame, "source", JNull) }

  /** `source.get('path')`. */
  function PathOf(source: map<string, Json>): Json { Get(source, "path", JNull) }

  /** The frame names a source (`if source:` holds) but that source has no usable path. */
  predicate PathlessSource(frame: map<string, Json>) {
    var source := SourceOf(frame);
    Truthy(source) && source.JObj? && !Truthy(PathOf(source.fields))
  }

  /** The frame's source, when present, can be read as the code reads it. */
  predicate SourceReadable(frame: map<string, Json>) {
    var source := SourceOf(frame);
    !Truthy(source) || (source.JObj? && (!Truthy(PathOf(source.fields)) || PathOf(source.fields).JStr?))
  }

  /** Exactly the inputs on which `StackFrame.from_json` returns a frame. */
  predicate WellFormedFrame(j: Json) {
    j.JObj? && SourceReadable(j.fields) && HasInt(j.fields, "id") && HasStr(j.fields, "name")
    && IntOrAbsent(j.fields, "line")
  }

  /** The `file` and `internal` values of a frame, derived from its `source`. */
  datatype Origin = Origin(file: string, internal: bool)

  function OriginOf(frame: map<string, Json>): (r: Result<Origin>)
    ensures r.Ok? <==> SourceReadable(frame)
    ensures r.Ok? ==> r.value.file != ""
    ensures r.Ok? ==> (r.value.internal <==> PathlessSource(frame))
    ensures r.Ok? && r.value.internal ==> r.value.file == UnknownFile
    ensures r.Ok? && !r.value.internal ==>
              r.value.file == (if Truthy(SourceOf(frame)) then PathOf(SourceOf(frame).fields).s else UnknownFile)
  {
    var source := SourceOf(frame);
    if !Truthy(source) then Ok(Origin(UnknownFile, false))
    else if !source.JObj? then Fail(NotAnObject("source"))
    else
      var path := PathOf(source.fields);
      if !Truthy(path) then Ok(Origin(UnknownFile, true))
      else if !path.JStr? then Fail(WrongType("path"))
      else Ok(Origin(path.s, false))
  }

  /** `StackFrame.from_json(frame)`. */
  function StackFrameFromJson(j: Json): (r: Result<StackFrame>)
    ensures r.Ok? <==> WellFormedFrame(j)
    ensures r.Ok? ==> r.value.id == j.fields["id"].i && r.value.name == j.fields["name"].s
    ensures r.Ok? ==> r.value.line == (if "line" in j.fields then j.fields["line"].i else 0)
    ensures r.Ok? ==> r.value.file != "" && (r.value.internal <==> PathlessSource(j.fields))
    ensures r.Ok? ==> OriginOf(j.fields) == Ok(Origin(r.value.file, r.value.internal))
  {
    var frame :- AsObject(j, "stackFrame");
    var origin :- OriginOf(frame);
    var presentation := PresentationOf(Get(frame, "presentationHint", JStr("normal")));
    var id :- RequiredInt(frame, "id");
    var name :- RequiredStr(frame, "name");
    var line :- IntOr(frame, "line", 0);
    Ok(StackFrame(id, origin.file, name, line, origin.internal, presentation))
  }

  // ---------------------------------------------------------------------------
  // Scopes

  datatype Scope = Scope(name: string, variablesReference: int, expensive: bool)

  /** Exactly the inputs on which `Scope.from_json` returns a scope. */
  predicate WellFormedScope(j: Json) {
    j.JObj? && HasStr(j.fields, "name") && HasInt(j.fields, "variablesReference")
    && HasBool(j.fields, "expensive")
  }

  /** `Scope.from_json(client, json)`. */
  function ScopeFromJson(j: Json): (r: Result<Scope>)
    ensures r.Ok? <==> WellFormedScope(j)
    ensures r.Ok? ==> r.value.name == j.fields["name"].s
    ensures r.Ok? ==> r.value.variablesReference == j.fields["variablesReference"].i
    ensures r.Ok? ==> r.value.expensive == j.fields["expensive"].b
  {
    var json :- AsObject(j, "scope");
    var name :- RequiredStr(json, "name");
    var variablesReference :- RequiredInt(json, "variablesReference");
    var expensive :- RequiredBool(json, "expensive");
    Ok(Scope(name, variablesReference, expensive))
  }

  // ---------------------------------------------------------------------------
  // Variables

  datatype Variable = Variable(
    name: string, value: string, variablesReference: int, containerVariablesReference: int)

  /**
   * `Variable(client, name, value, variablesReference, containerVariablesReference=0)`.
   * The constructor stores 0 as the container reference whatever it is given.
   */
  function NewVariable(name: string, value: string, variablesReference: int,
                       containerVariablesReference: int := 0): (v: Variable)
    ensures v.name == name && v.value == value && v.variablesReference == variablesReference
    ensures v.containerVariablesReference == 0
  {
    Variable(name, value, variablesReference, 0)
  }

  /** Exactly the inputs on which `Variable.from_json` returns a variable. */
  predicate WellFormedVariable(j: Json) {
    j.JObj? && HasStr(j.fields, "name") && HasStr(j.fields, "value")
    && IntOrAbsent(j.fields, "variablesReference")
  }

  /** `Variable.from_json(client, json)`. */
  function VariableFromJson(j: Json): (r: Result<Variable>)
    ensures r.Ok? <==> WellFormedVariable(j)
    ensures r.Ok? ==> r.value.name == j.fields["name"].s && r.value.value == j.fields["value"].s
    ensures r.Ok? ==>
              r.value.variablesReference ==
              (if "variablesReference" in j.fields then j.fields["variablesReference"].i else 0)
    ensures r.Ok? ==> r.value.containerVariablesReference == 0
  {
    var json :- AsObject(j, "variable");
    var name :- RequiredStr(json, "name");
    var value :- RequiredStr(json, "value");
    var variablesReference :- IntOr(json, "variablesReference", 0);
    Ok(NewVariable(name, value, variablesReference))
  }

  // ---------------------------------------------------------------------------
  // Evaluation results and completions

  /** `EvaluateResponse(result, variablesReference)`: built by the caller, never parsed here. */
  datatype EvaluateResponse = EvaluateResponse(result: string, variablesReference: int)

  /** `label` is a reserved word in Dafny, so the item's label is the field `itemLabel`. */
  datatype CompletionItem = CompletionItem(itemLabel: string, text: Option<string>)

  /** `json.get('text', None)` can be stored in the `text` field. */
  predicate TextReadable(d: map<string, Json>) { Get(d, "text", JNull) == JNull || Get(d, "text", JNull).JStr? }

  /** Exactly the inputs on which `CompletionItem.from_json` returns an item. */
  predicate WellFormedCompletionItem(j: Json) {
    j.JObj? && HasStr(j.fields, "label") && TextReadable(j.fields)
  }

  /** `CompletionItem.from_json(json)`: `text` is `None` when absent or null. */
  function CompletionItemFromJson(j: Json): (r: Result<CompletionItem>)
    ensures r.Ok? <==> WellFormedCompletionItem(j)
    ensures r.Ok? ==> r.value.itemLabel == j.fields["label"].s
    ensures r.Ok? ==>
              r.value.text == (if Get(j.fields, "text", JNull) == JNull then None else Some(j.fields["text"].s))
  {
    var json :- AsObject(j, "completionItem");
    var itemLabel :- RequiredStr(json, "label");
    var text := Get(json, "text", JNull);
    if text == JNull then Ok(CompletionItem(itemLabel, None))
    else if text.JStr? then Ok(CompletionItem(itemLabel, Some(text.s)))
    else Fail(WrongType("text"))
  }
}
