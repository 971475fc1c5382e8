/** `ScriptProcessingStep`: choosing the script a step runs, and filling in the
    behaviour the script returns. The script engine (`ScriptedResponseService`) and
    `ScriptUtil.resolveScriptPath` are not part of this model; they are parameters. */
module ScriptStep {
  import opened Common
  import opened Config
  import opened ResponseBehaviour

  datatype ScriptStepConfig = ScriptStepConfig(
    scriptCode: Option<string>,
    scriptFile: Option<string>,
    language: Option<string>
  )

  /** `ScriptSource`: the cache key `source`, and either inline code or a file. */
  datatype ScriptSource = ScriptSource(source: string, code: Option<string>, file: Option<string>)

  const INLINE_LANGUAGES: set<Option<string>> := {None, Some("groovy"), Some("js"), Some("javascript")}

  /** The file extension for inline code in the given language. */
  function InlineExtension(language: Option<string>): (r: Result<string>)
    ensures r == Ok("groovy") <==> language == Some("groovy")
    ensures r == Ok("js") <==> language == None || language == Some("js") || language == Some("javascript")
    ensures r.Err? <==> language !in INLINE_LANGUAGES
    ensures r.Err? ==> language.Some? && r.message == "Unsupported script language: " + language.value
  {
    match language
    case None => Ok("js")
    case Some(lang) =>
      if lang == "groovy" then Ok("groovy")
      else if lang == "js" || lang == "javascript" then Ok("js")
      else Err("Unsupported script language: " + lang)
  }

  function InlineSourceId(stepId: string, ext: string): string {
    stepId + "_inline." + ext
  }

  /** `parseScriptSource`: inline code wins over a file; the language is checked only
      for inline code; a file's resolved path is both its cache key and its file. */
  function ParseScriptSource(stepId: string, config: ScriptStepConfig,
                             resolveScriptPath: string -> string): (r: Result<ScriptSource>)
    ensures config.scriptCode.Some? ==>
              (r.Ok? <==> InlineExtension(config.language).Ok?) &&
              (r.Ok? ==> r.value == ScriptSource(InlineSourceId(stepId, InlineExtension(config.language).value),
                                                 config.scriptCode, None)) &&
              (r.Err? ==> r == Err(InlineExtension(config.language).message))
    ensures config.scriptCode.None? && config.scriptFile.Some? ==>
              r == Ok(ScriptSource(resolveScriptPath(config.scriptFile.value), None,
                                   Some(resolveScriptPath(config.scriptFile.value))))
    ensures config.scriptCode.None? && config.scriptFile.None? ==> r == Err("Script file or code not set")
  {
    match config.scriptCode
    case Some(code) =>
      (match InlineExtension(config.language)
       case Ok(ext) => Ok(ScriptSource(InlineSourceId(stepId, ext), Some(code), None))
       case Err(message) => Err(message))
    case None =>
      match config.scriptFile
      case Some(file) =>
        var resolvedPath := resolveScriptPath(file);
        Ok(ScriptSource(resolvedPath, None, Some(resolvedPath)))
      case None => Err("Script file or code not set")
  }

  /** The behaviour `execute` returns, given the one the script produced: populated by
      the factory only when the script set no type or the default type. */
  function ExecutedState(kind: FactoryKind, base: BaseFactory, statusCode: int, rc: ResourceConfig,
                         scripted: BehaviourState): BehaviourState
  {
    if scripted.behaviourType.None? || scripted.behaviourType == Some(DefaultBehaviour)
    then Populated(kind, base, statusCode, rc, scripted) else scripted
  }

  /** `execute`: parse the script source (failing as it fails), run the script, and
      populate the script's own behaviour object when its type asks for defaults. */
  method Execute(stepId: string, config: ScriptStepConfig, resolveScriptPath: string -> string,
                 determineResponseFromScript: ScriptSource -> BehaviourState,
                 kind: FactoryKind, base: BaseFactory, statusCode: int, rc: ResourceConfig)
    returns (r: Result<ReadWriteResponseBehaviour>)
    ensures ParseScriptSource(stepId, config, resolveScriptPath).Err? ==>
              r == Err(ParseScriptSource(stepId, config, resolveScriptPath).message)
    ensures ParseScriptSource(stepId, config, resolveScriptPath).Ok? ==>
              r.Ok? && fresh(r.value) &&
              r.value.State() == ExecutedState(kind, base, statusCode, rc,
                                   determineResponseFromScript(ParseScriptSource(stepId, config, resolveScriptPath).value))
  {
    var script := ParseScriptSource(stepId, config, resolveScriptPath);
    if script.Err? {
      return Err(script.message);
    }
    var responseBehaviour := new ReadWriteResponseBehaviour(determineResponseFromScript(script.value));
    if responseBehaviour.behaviourType.None? || responseBehaviour.behaviourType == Some(DefaultBehaviour) {
      Populate(kind, base, statusCode, rc, responseBehaviour);
    }
    r := Ok(responseBehaviour);
  }

  // ---------------------------------------------------------------------------
  // Properties

  /** Inline code takes precedence: when code is set, the file plays no part. */
  lemma InlinePrecedence(stepId: string, config: ScriptStepConfig, resolveScriptPath: string -> string)
    requires config.scriptCode.Some?
    ensures ParseScriptSource(stepId, config, resolveScriptPath)
            == ParseScriptSource(stepId, config.(scriptFile := None), resolveScriptPath)
  {
  }

  /** The language of a file-based script is never checked. */
  lemma FileLanguageUnchecked(stepId: string, config: ScriptStepConfig, resolveScriptPath: string -> string,
                              language: Option<string>)
    requires config.scriptCode.None?
    ensures ParseScriptSource(stepId, config, resolveScriptPath)
            == ParseScriptSource(stepId, config.(language := language), resolveScriptPath)
  {
  }

  /** The inline cache key is stable per step: it depends on the step id and the
      language, not on the code, and two steps in the same language get two keys. */
  lemma {:induction false} InlineSourceIdsDistinct(stepA: string, stepB: string, ext: string)
    requires stepA != stepB
    ensures InlineSourceId(stepA, ext) != InlineSourceId(stepB, ext)
  {
    var tail := "_inline." + ext;
    assert InlineSourceId(stepA, ext) == stepA + tail;
    assert InlineSourceId(stepB, ext) == stepB + tail;
    if stepA + tail == stepB + tail {
      CommonTail(stepA, stepB, tail);
      assert false;
    }
  }

  /** Two strings that become equal once the same tail is appended were equal. */
  lemma CommonTail(a: string, b: string, tail: string)
    requires a + tail == b + tail
    ensures a == b
  {
    assert |a| == |b|;
    assert a == (a + tail)[..|a|];
    assert b == (b + tail)[..|b|];
  }

  /** A script that short-circuits keeps exactly the behaviour it produced. */
  lemma ShortCircuitUntouched(kind: FactoryKind, base: BaseFactory, statusCode: int, rc: ResourceConfig,
                              scripted: BehaviourState)
    requires scripted.behaviourType == Some(ShortCircuit)
    ensures ExecutedState(kind, base, statusCode, rc, scripted) == scripted
  {
  }
}
