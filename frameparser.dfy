/** JSON::FrameParser: the user's JavaScript frame parser. A script is
    evaluated and its global parse() function is probed; only a script that
    passes every check replaces the cached parse function handle, so a
    broken edit never loses the handle of the last working one. Every
    script runs in the same engine, so what that handle computes may still
    change; the JavaScript engine and the call of a handle are oracles
    passed in as functions. */
module JsonFrameParser {
  import opened Wrappers

  /** QJSValue::ErrorType */
  datatype ErrorType =
    | NoError
    | GenericError
    | EvalError
    | RangeError
    | ReferenceError
    | SyntaxError
    | TypeError
    | URIError

  /** What the probe call parse("", ",") returned: a value, or an error
      object of some kind. */
  datatype ProbeResult = Value | Error(kind: ErrorType)

  /** A handle on a JavaScript function value. */
  datatype Callable = Callable(id: nat)

  /** What the engine reports for one script: the global "parse" if it is a
      callable function, the evaluation errors, and the probe's result. */
  datatype Evaluation = Evaluation(parse: Option<Callable>, errors: seq<string>, probe: ProbeResult)

  /** QJSEngine::evaluate followed by the lookup and probe of parse(). */
  type Engine = string -> Evaluation

  /** Calling a parse function with (frame, separator), as a string list. */
  type Caller = (Callable, string, string) -> seq<string>

  /** The result of loadScript: the function now cached, or the message the
      user is shown. */
  datatype LoadOutcome =
    | Loaded(fn: Callable)
    | MissingParse
    | EvaluationFailed(message: string)
    | ProbeFailed(message: string)

  /** The message for an error kind of the probe call. */
  function ErrorMessage(kind: ErrorType): string {
    match kind
    case GenericError => "Generic error"
    case EvalError => "Evaluation error"
    case RangeError => "Range error"
    case ReferenceError => "Reference error"
    case SyntaxError => "Syntax error"
    case TypeError => "Type error"
    case URIError => "URI error"
    case NoError => "Unknown error"
  }

  /** Each of the seven error kinds has a message of its own, and only a
      kind outside them is reported as "Unknown error". */
  lemma ErrorMessagesDistinct(a: ErrorType, b: ErrorType)
    ensures ErrorMessage(a) == "Unknown error" <==> a == NoError
    ensures ErrorMessage(a) == ErrorMessage(b) ==> a == b
  {
  }

  /** The checks of loadScript, in their order: a callable parse(), then no
      evaluation error, then a probe that is not an error. */
  function Load(ev: Evaluation): LoadOutcome {
    if ev.parse.None? then MissingParse
    else if ev.errors != [] then EvaluationFailed("Error on line " + ev.errors[0] + ".")
    else if ev.probe.Error? then ProbeFailed(ErrorMessage(ev.probe.kind))
    else Loaded(ev.parse.value)
  }

  /** The cached parse function after loading one script. */
  function LoadStep(cached: Option<Callable>, ev: Evaluation): Option<Callable> {
    if Load(ev).Loaded? then Some(Load(ev).fn) else cached
  }

  /** A script loads exactly when parse() is callable, the evaluation
      reported no error and the probe returned no error; the new function is
      the script's parse(). Each failure is reported with its own message. */
  lemma LoadMeaning(ev: Evaluation)
    ensures Load(ev).Loaded? <==> ev.parse.Some? && ev.errors == [] && !ev.probe.Error?
    ensures Load(ev).Loaded? ==> Load(ev).fn == ev.parse.value
    ensures ev.parse.None? ==> Load(ev) == MissingParse
    ensures ev.parse.Some? && ev.errors != [] ==> Load(ev) == EvaluationFailed("Error on line " + ev.errors[0] + ".")
    ensures ev.parse.Some? && ev.errors == [] && ev.probe.Error? ==> Load(ev) == ProbeFailed(ErrorMessage(ev.probe.kind))
  {
  }

  /** A failed load keeps the cached function; a successful one replaces it. */
  lemma LoadStepKeepsOnFailure(cached: Option<Callable>, ev: Evaluation)
    ensures !Load(ev).Loaded? ==> LoadStep(cached, ev) == cached
    ensures Load(ev).Loaded? ==> LoadStep(cached, ev) == ev.parse
  {
  }

  /** The cached function after loading a series of scripts in order. */
  function CachedAfter(initial: Option<Callable>, evs: seq<Evaluation>): Option<Callable>
    decreases |evs|
  {
    if evs == [] then initial else LoadStep(CachedAfter(initial, evs[..|evs| - 1]), evs[|evs| - 1])
  }

  /** Fail-safe: after any series of loads the cached function is the one of
      the last script that loaded, or the initial one if none did; once a
      function is cached there always is one. */
  lemma CachedAfterMeaning(initial: Option<Callable>, evs: seq<Evaluation>)
    ensures (forall k :: 0 <= k < |evs| ==> !Load(evs[k]).Loaded?) ==> CachedAfter(initial, evs) == initial
    ensures forall k :: 0 <= k < |evs| && Load(evs[k]).Loaded?
                        && (forall m :: k < m < |evs| ==> !Load(evs[m]).Loaded?)
                        ==> CachedAfter(initial, evs) == evs[k].parse
    ensures initial.Some? ==> CachedAfter(initial, evs).Some?
  {
    if forall k :: 0 <= k < |evs| ==> !Load(evs[k]).Loaded? {
      NoLoadKeeps(initial, evs);
    }
    forall k | 0 <= k < |evs| && Load(evs[k]).Loaded? && (forall m :: k < m < |evs| ==> !Load(evs[m]).Loaded?)
      ensures CachedAfter(initial, evs) == evs[k].parse
    {
      LastLoadWins(initial, evs, k);
    }
    if initial.Some? {
      NeverLost(initial, evs);
    }
  }

  lemma {:induction false} NoLoadKeeps(initial: Option<Callable>, evs: seq<Evaluation>)
    requires forall k :: 0 <= k < |evs| ==> !Load(evs[k]).Loaded?
    ensures CachedAfter(initial, evs) == initial
    decreases |evs|
  {
    if evs != [] {
      NoLoadKeeps(initial, evs[..|evs| - 1]);
    }
  }

  lemma {:induction false} LastLoadWins(initial: Option<Callable>, evs: seq<Evaluation>, k: nat)
    requires k < |evs| && Load(evs[k]).Loaded?
    requires forall m :: k < m < |evs| ==> !Load(evs[m]).Loaded?
    ensures CachedAfter(initial, evs) == evs[k].parse
    decreases |evs|
  {
    if k < |evs| - 1 {
      LastLoadWins(initial, evs[..|evs| - 1], k);
    }
  }

  lemma {:induction false} NeverLost(initial: Option<Callable>, evs: seq<Evaluation>)
    requires initial.Some?
    ensures CachedAfter(initial, evs).Some?
    decreases |evs|
  {
    if evs != [] {
      NeverLost(initial, evs[..|evs| - 1]);
    }
  }

  /** JSON::ProjectModel as far as the frame parser uses it. */
  class ProjectModel {
    var frameParserCode: string

    constructor(code: string)
      ensures frameParserCode == code
    {
      frameParserCode := code;
    }
  }

  class FrameParser {
    /** the editor's text and its modified flag */
    var text: string
    var modified: bool
    /** m_parseFunction: None until a script has loaded */
    var parseFunction: Option<Callable>
    const project: ProjectModel

    /** The constructor loads the default template into the editor and
        saves it silently, as reload() does with an unmodified document. */
    constructor(project: ProjectModel, defaultCode: string, engine: Engine)
      modifies project
      ensures this.project == project && text == defaultCode
      ensures parseFunction == LoadStep(None, engine(defaultCode))
      ensures Load(engine(defaultCode)).Loaded? ==> !modified && project.frameParserCode == defaultCode
      ensures !Load(engine(defaultCode)).Loaded? ==> !modified && project.frameParserCode == old(project.frameParserCode)
    {
      this.project := project;
      text := defaultCode;
      modified := false;
      parseFunction := None;
      new;
      var _ := Save(true, engine);
    }

    function Text(): string
      reads this
    {
      text
    }

    function IsModified(): bool
      reads this
    {
      modified
    }

    /** loadScript: evaluates script and replaces the cached function only
        when every check passes. It returns true exactly when it loaded. */
    method LoadScript(script: string, engine: Engine) returns (outcome: LoadOutcome)
      modifies this`parseFunction
      ensures outcome == Load(engine(script))
      ensures parseFunction == LoadStep(old(parseFunction), engine(script))
    {
      var ev := engine(script);
      if ev.parse.None? {
        return MissingParse;
      }
      var fn := ev.parse.value;
      var probe := ev.probe;
      if ev.errors != [] {
        return EvaluationFailed("Error on line " + ev.errors[0] + ".");
      } else if probe.Error? {
        var errorStr := ErrorMessage(probe.kind);
        return ProbeFailed(errorStr);
      }
      parseFunction := Some(fn);
      outcome := Loaded(fn);
    }

    /** save: a script that loads clears the modified flag and becomes the
        project's parser code; one that does not changes neither. The silent
        flag only chooses whether a message box is shown. */
    method Save(silent: bool, engine: Engine) returns (ok: bool)
      modifies this`modified, this`parseFunction, project`frameParserCode
      ensures ok == Load(engine(text)).Loaded?
      ensures text == old(text)
      ensures parseFunction == LoadStep(old(parseFunction), engine(text))
      ensures ok ==> !modified && project.frameParserCode == text
      ensures !ok ==> modified == old(modified) && project.frameParserCode == old(project.frameParserCode)
    {
      var outcome := LoadScript(text, engine);
      if outcome.Loaded? {
        modified := false;
        project.frameParserCode := text;
        return true;
      }
      return false;
    }

    /** apply: a silent save. */
    method Apply(engine: Engine)
      modifies this`modified, this`parseFunction, project`frameParserCode
      ensures text == old(text)
      ensures parseFunction == LoadStep(old(parseFunction), engine(text))
      ensures Load(engine(text)).Loaded? ==> !modified && project.frameParserCode == text
      ensures !Load(engine(text)).Loaded? ==> modified == old(modified) && project.frameParserCode == old(project.frameParserCode)
    {
      var _ := Save(true, engine);
    }

    /** readCode: the editor takes the project's code and is unmodified
        whether or not the code loads. */
    method ReadCode(engine: Engine)
      modifies this`text, this`modified, this`parseFunction
      ensures text == project.frameParserCode && !modified
      ensures parseFunction == LoadStep(old(parseFunction), engine(project.frameParserCode))
    {
      text := project.frameParserCode;
      modified := false;
      var _ := LoadScript(text, engine);
    }

    /** parse: the cached function's result for (frame, separator), element
        for element; with no function cached the call yields nothing. */
    method Parse(frame: string, separator: string, call: Caller) returns (list: seq<string>)
      ensures parseFunction.Some? ==> list == call(parseFunction.value, frame, separator)
      ensures parseFunction.None? ==> list == []
    {
      var out: seq<string> := [];
      if parseFunction.Some? {
        out := call(parseFunction.value, frame, separator);
      }
      list := [];
      var i := 0;
      while i < |out|
        invariant 0 <= i <= |out|
        invariant list == out[..i]
      {
        list := list + [out[i]];
        i := i + 1;
      }
      assert out[..i] == out;
    }
  }
}
