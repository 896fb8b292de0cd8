/**
 * Properties of the protocol data model: how a frame's `source` decides its
 * file and `internal` flag, the presentation mapping, which missing key each
 * parser reports, and round trips through reference encoders that build the
 * JSON an adapter would send for a given record.
 */
module DapTypesProperties {
  import opened Json
  import opened DapTypes

  // ---------------------------------------------------------------------------
  // Stack frames: the `source` rules

  /** No `source`, a null one or an empty one: the file is `"??"` and the frame is not internal. */
  lemma NoSourceMeansUnknownFile(frame: map<string, Json>)
    requires "source" !in frame || frame["source"] == JNull || frame["source"] == JObj(map[])
    ensures StackFrameFromJson(JObj(frame)).Ok? <==>
              HasInt(frame, "id") && HasStr(frame, "name") && IntOrAbsent(frame, "line")
    ensures StackFrameFromJson(JObj(frame)).Ok? ==>
              StackFrameFromJson(JObj(frame)).value.file == UnknownFile
              && !StackFrameFromJson(JObj(frame)).value.internal
  {
  }

  /** A `source` whose `path` is a non-empty string: the file is that path and the frame is not internal. */
  lemma SourcePathIsFile(frame: map<string, Json>, source: map<string, Json>, path: string)
    requires "source" in frame && frame["source"] == JObj(source)
    requires "path" in source && source["path"] == JStr(path) && path != ""
    ensures StackFrameFromJson(JObj(frame)).Ok? ==>
              StackFrameFromJson(JObj(frame)).value.file == path
              && !StackFrameFromJson(JObj(frame)).value.internal
  {
  }

  /** A non-empty `source` whose `path` is absent, null or `""`: the file is `"??"` and the frame is internal. */
  lemma PathlessSourceIsInternal(frame: map<string, Json>, source: map<string, Json>)
    requires "source" in frame && frame["source"] == JObj(source) && source != map[]
    requires "path" !in source || source["path"] == JNull || source["path"] == JStr("")
    ensures StackFrameFromJson(JObj(frame)).Ok? <==>
              HasInt(frame, "id") && HasStr(frame, "name") && IntOrAbsent(frame, "line")
    ensures StackFrameFromJson(JObj(frame)).Ok? ==>
              StackFrameFromJson(JObj(frame)).value.file == UnknownFile
              && StackFrameFromJson(JObj(frame)).value.internal
  {
  }

  /** `internal` is set only for a non-empty `source` object whose `path` is falsy. */
  lemma InternalOnlyForPathlessSource(j: Json)
    requires StackFrameFromJson(j).Ok? && StackFrameFromJson(j).value.internal
    ensures j.JObj? && "source" in j.fields && j.fields["source"].JObj?
    ensures j.fields["source"].fields != map[]
    ensures !Truthy(Get(j.fields["source"].fields, "path", JNull))
  {
  }

  /** A truthy `source` that is not an object fails, as `.get` on it raises. */
  lemma SourceNotAnObjectFails(frame: map<string, Json>)
    requires "source" in frame && Truthy(frame["source"]) && !frame["source"].JObj?
    ensures StackFrameFromJson(JObj(frame)) == Fail(NotAnObject("source"))
  {
  }

  // ---------------------------------------------------------------------------
  // Stack frames: presentation

  /** Each presentation is selected by its own hint name. */
  lemma PresentationOfHintName(p: Presentation)
    ensures PresentationOf(JStr(HintName(p))) == p
  {
  }

  /**
   * A parsed frame's presentation is `label` (2) or `subtle` (3) exactly when
   * its `presentationHint` is that string, and `normal` (1) otherwise,
   * including when the hint is missing.
   */
  lemma HintSelectsPresentation(j: Json)
    requires StackFrameFromJson(j).Ok?
    ensures var p := StackFrameFromJson(j).value.presentation;
            && (p == Label <==> "presentationHint" in j.fields && j.fields["presentationHint"] == JStr("label"))
            && (p == Subtle <==> "presentationHint" in j.fields && j.fields["presentationHint"] == JStr("subtle"))
            && ("presentationHint" !in j.fields ==> p == Normal)
  {
  }

  // ---------------------------------------------------------------------------
  // Stack frames: failures

  /** A readable frame without `id` fails on `id`, before `name` is looked at. */
  lemma FrameMissingIdFails(frame: map<string, Json>)
    requires SourceReadable(frame) && "id" !in frame
    ensures StackFrameFromJson(JObj(frame)) == Fail(MissingKey("id"))
  {
  }

  /** A readable frame with an integer `id` but no `name` fails on `name`. */
  lemma FrameMissingNameFails(frame: map<string, Json>)
    requires SourceReadable(frame) && HasInt(frame, "id") && "name" !in frame
    ensures StackFrameFromJson(JObj(frame)) == Fail(MissingKey("name"))
  {
  }

  // ---------------------------------------------------------------------------
  // Scopes, variables, completion items: failures and defaults

  /** `Scope.from_json` fails on the first of `name`, `variablesReference`, `expensive` that is missing. */
  lemma ScopeMissingKeyFails(json: map<string, Json>)
    ensures "name" !in json ==> ScopeFromJson(JObj(json)) == Fail(MissingKey("name"))
    ensures HasStr(json, "name") && "variablesReference" !in json ==>
              ScopeFromJson(JObj(json)) == Fail(MissingKey("variablesReference"))
    ensures HasStr(json, "name") && HasInt(json, "variablesReference") && "expensive" !in json ==>
              ScopeFromJson(JObj(json)) == Fail(MissingKey("expensive"))
  {
  }

  /** The container reference a `Variable` is given never reaches the record. */
  lemma NewVariableIgnoresContainer(name: string, value: string, reference: int, a: int, b: int)
    ensures NewVariable(name, value, reference, a) == NewVariable(name, value, reference, b)
  {
  }

  /** `Variable.from_json` needs `name` and `value`; a missing `variablesReference` is 0. */
  lemma VariableDefaults(json: map<string, Json>)
    ensures "name" !in json ==> VariableFromJson(JObj(json)) == Fail(MissingKey("name"))
    ensures HasStr(json, "name") && "value" !in json ==>
              VariableFromJson(JObj(json)) == Fail(MissingKey("value"))
    ensures HasStr(json, "name") && HasStr(json, "value") && "variablesReference" !in json ==>
              VariableFromJson(JObj(json)) ==
              Ok(Variable(json["name"].s, json["value"].s, 0, 0))
  {
  }

  /** `CompletionItem.from_json` needs `label`; without `text` the item has none. */
  lemma CompletionItemDefaults(json: map<string, Json>)
    ensures "label" !in json ==> CompletionItemFromJson(JObj(json)) == Fail(MissingKey("label"))
    ensures HasStr(json, "label") && "text" !in json ==>
              CompletionItemFromJson(JObj(json)) == Ok(CompletionItem(json["label"].s, None))
  {
  }

  // ---------------------------------------------------------------------------
  // Reference encoders and round trips

  /** The frames `StackFrame.from_json` can produce: a real file name, and `"??"` for internal ones. */
  predicate ParsableFrame(f: StackFrame) {
    f.file != "" && (f.internal ==> f.file == UnknownFile)
  }

  /**
   * The frame an adapter sends for `f`. An internal frame gets a source that is
   * known only by a `sourceReference`, with no path.
   */
  function StackFrameToJson(f: StackFrame): Json {
    var source := if f.internal then map["sourceReference" := JInt(1)] else map["path" := JStr(f.file)];
    JObj(map[
      "id" := JInt(f.id),
      "name" := JStr(f.name),
      "source" := JObj(source),
      "line" := JInt(f.line),
      "presentationHint" := JStr(HintName(f.presentation))])
  }

  /** Every frame the parser can produce is parsable, and survives a trip through its JSON. */
  lemma StackFrameRoundTrip(f: StackFrame)
    requires ParsableFrame(f)
    ensures StackFrameFromJson(StackFrameToJson(f)) == Ok(f)
  {
    // Either way the source is a non-empty object, so `if source:` holds.
    var source := SourceOf(StackFrameToJson(f).fields).fields;
    if f.internal {
      assert "sourceReference" in source;
    } else {
      assert "path" in source;
    }
  }

  /** Everything `StackFrame.from_json` returns satisfies `ParsableFrame`. */
  lemma ParsedFrameIsParsable(j: Json)
    requires StackFrameFromJson(j).Ok?
    ensures ParsableFrame(StackFrameFromJson(j).value)
  {
  }

  function ScopeToJson(s: Scope): Json {
    JObj(map[
      "name" := JStr(s.name),
      "variablesReference" := JInt(s.variablesReference),
      "expensive" := JBool(s.expensive)])
  }

  lemma ScopeRoundTrip(s: Scope)
    ensures ScopeFromJson(ScopeToJson(s)) == Ok(s)
  {
  }

  function VariableToJson(v: Variable): Json {
    JObj(map[
      "name" := JStr(v.name),
      "value" := JStr(v.value),
      "variablesReference" := JInt(v.variablesReference)])
  }

  /** A variable survives a trip through its JSON exactly when its container reference is 0. */
  lemma VariableRoundTrip(v: Variable)
    ensures VariableFromJson(VariableToJson(v)) == Ok(v) <==> v.containerVariablesReference == 0
  {
  }

  function CompletionItemToJson(c: CompletionItem): Json {
    match c.text
    case None => JObj(map["label" := JStr(c.itemLabel)])
    case Some(t) => JObj(map["label" := JStr(c.itemLabel), "text" := JStr(t)])
  }

  lemma CompletionItemRoundTrip(c: CompletionItem)
    ensures CompletionItemFromJson(CompletionItemToJson(c)) == Ok(c)
  {
  }

  // ---------------------------------------------------------------------------
  // Worked examples

  /** A frame carrying a `label` hint and no source: not internal, as the code is written. */
  lemma LabelFrameWithoutSource()
    ensures StackFrameFromJson(JObj(map["id" := JInt(1), "name" := JStr("foo"),
                                        "presentationHint" := JStr("label")]))
            == Ok(StackFrame(1, UnknownFile, "foo", 0, false, Label))
  {
  }

  lemma FrameWithPath()
    ensures StackFrameFromJson(JObj(map["id" := JInt(2), "name" := JStr("bar"),
                                        "source" := JObj(map["path" := JStr("/a/b.py")]),
                                        "line" := JInt(10)]))
            == Ok(StackFrame(2, "/a/b.py", "bar", 10, false, Normal))
  {
    var frame := map["id" := JInt(2), "name" := JStr("bar"),
                     "source" := JObj(map["path" := JStr("/a/b.py")]), "line" := JInt(10)];
    // The source is a non-empty object, so `if source:` holds.
    assert "path" in SourceOf(frame).fields;
  }

  lemma CompletionWithoutText()
    ensures CompletionItemFromJson(JObj(map["label" := JStr("x")])) == Ok(CompletionItem("x", None))
  {
  }
}
