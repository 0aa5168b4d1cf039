/** The WebView runner for the Douyin signature and a_bogus scripts: it initialises a hidden
    WebView once, evaluates one call expression per request, treats a thrown error or an
    `ERROR:` answer as a failure, and after a first failure resets the WebView and tries once
    more. Awaits are taken in sequence; the WebView is a numbered view and the script engine's
    answers are a parameter. */
module DouyinScriptRunner {
  import opened Wrappers
  import opened Text
  import opened JsEscape
  import opened ScriptRuntime

  // ---------------------------------------------------------------------------------------------
  // The call expression

  const ScriptHead: string := "(function(){ try { return "
  const ScriptTail: string := "); } catch(e) { return \"ERROR:\" + e.message; } })()"
  const ErrorPrefix: string := "ERROR:"

  /** The expression evaluated for one call: both arguments escaped into single-quoted
      literals, any JavaScript error turned into a string starting with `ERROR:`. */
  function Script(functionName: string, arg1: Option<string>, arg2: Option<string>): string {
    ScriptHead + functionName + "('" + EscapeJsString(arg1) + "','" + EscapeJsString(arg2) + "'" +
      ScriptTail
  }

  /** How the engine reads the two arguments of the call in such an expression. */
  function ScriptArguments(e: string, functionName: string): Option<(string, string)> {
    var open := ScriptHead + functionName + "('";
    if !StartsWith(e, open) then None
    else match ReadLiteral(e[|open|..]) {
      case None => None
      case Some(first) =>
        if !StartsWith(first.1, ",'") then None
        else match ReadLiteral(first.1[2..]) {
          case None => None
          case Some(second) => if second.1 == ScriptTail then Some((first.0, second.0)) else None
        }
    }
  }

  /** The two escaped literals are read back as the two values. */
  lemma ScriptRead(functionName: string, x: string, y: string)
    ensures ScriptArguments(ScriptHead + functionName + "('" + EscapeLines(x) + "','" +
                            EscapeLines(y) + "'" + ScriptTail, functionName) == Some((x, y))
  {
    var open := ScriptHead + functionName + "('";
    var tailB := EscapeLines(y) + "'" + ScriptTail;
    var afterA := ",'" + tailB;
    var tailA := EscapeLines(x) + "'" + afterA;
    var e := ScriptHead + functionName + "('" + EscapeLines(x) + "','" + EscapeLines(y) + "'" +
      ScriptTail;
    assert e == open + tailA;
    assert e[|open|..] == tailA;
    ReadLinesEscaped(x, afterA);
    assert afterA[2..] == tailB;
    ReadLinesEscaped(y, ScriptTail);
  }

  /** The function receives exactly the two values passed (null as ""), whatever backslashes,
      quotes and line breaks they hold. */
  lemma ScriptPassesArguments(functionName: string, arg1: Option<string>, arg2: Option<string>)
    ensures ScriptArguments(Script(functionName, arg1, arg2), functionName) ==
      Some((arg1.GetOr(""), arg2.GetOr("")))
  {
    LinesUnchanged("");
    ScriptRead(functionName, arg1.GetOr(""), arg2.GetOr(""));
  }

  // ---------------------------------------------------------------------------------------------
  // One evaluation

  /** What one evaluation gives back to the retry logic. */
  datatype Attempt = Failed | Returned(value: string)

  /** The engine's answer judged: a throw or a non-empty answer starting with `ERROR:` fails, a
      null answer is "". */
  function Judge(answer: EvalResult): Attempt {
    match answer
    case Threw => Failed
    case Value(None) => Returned("")
    case Value(Some(v)) => if v != "" && StartsWith(v, ErrorPrefix) then Failed else Returned(v)
  }

  /** An answer is passed on exactly when it is not an error text; null reads as "". */
  lemma JudgeSpec(answer: EvalResult)
    ensures Judge(answer).Returned? <==>
      answer.Value? && (answer.result.None? || answer.result.value == "" ||
                        !StartsWith(answer.result.value, ErrorPrefix))
    ensures Judge(answer).Returned? ==> Judge(answer).value == answer.result.GetOr("")
  {
  }

  // ---------------------------------------------------------------------------------------------
  // Initialisation state

  /** The runner's fields: the initialised flag, the initialisation task (by number) if one was
      started and not cleared, the number the next task gets, and the WebView (numbered by the
      task that created it) if one is attached. */
  datatype RunnerState = RunnerState(initialized: bool, initTask: Option<nat>, nextTask: nat,
                                     webView: Option<nat>)

  /** What awaiting `EnsureInitializedAsync` waits for. */
  datatype Task = Done | Running(id: nat)

  /** How an initialisation ends: it either completes, or fails (its own handler logs the error)
      possibly after it created its WebView. */
  datatype InitOutcome = InitOk | InitFailed(viewCreated: bool)

  /** The answers of the environment: each initialisation task's outcome and the engine's answer
      to each expression evaluated in each WebView. */
  datatype RunnerEnv = RunnerEnv(init: nat -> InitOutcome, eval: (string, nat) -> EvalResult)

  /** `EnsureInitializedAsync`: a completed task once initialised, otherwise the initialisation
      task already started, otherwise a new one. */
  function EnsureStep(s: RunnerState): (RunnerState, Task) {
    if s.initialized then (s, Done)
    else if s.initTask.Some? then (s, Running(s.initTask.value))
    else (s.(initTask := Some(s.nextTask), nextTask := s.nextTask + 1), Running(s.nextTask))
  }

  /** The end of `InitializeAsync` for task `id`: on success its WebView is attached and the flag
      set; on failure a WebView it created stays attached, and the task is cleared when the
      runner is still not initialised. */
  function CompleteStep(s: RunnerState, id: nat, outcome: InitOutcome): RunnerState {
    match outcome
    case InitOk => s.(webView := Some(id), initialized := true)
    case InitFailed(viewCreated) =>
      var s1 := if viewCreated then s.(webView := Some(id)) else s;
      if !s1.initialized then s1.(initTask := None) else s1
  }

  /** `ResetWebViewAsync`: flag and task cleared, WebView detached. */
  function ResetStep(s: RunnerState): RunnerState {
    s.(initialized := false, initTask := None, webView := None)
  }

  /** The state once `EnsureInitializedAsync` has been awaited. */
  function Ready(s: RunnerState, env: RunnerEnv): RunnerState {
    var (s1, t) := EnsureStep(s);
    if t.Running? then CompleteStep(s1, t.id, env.init(t.id)) else s1
  }

  /** A WebView is attached whenever the runner counts as initialised. */
  predicate Consistent(s: RunnerState) {
    s.initialized ==> s.webView.Some?
  }

  /** Once initialised the runner hands out a completed task and changes nothing; while a task is
      in flight every caller gets that same task; so asking twice starts at most one. */
  lemma EnsureSharesTask(s: RunnerState)
    ensures s.initialized ==> EnsureStep(s) == (s, Done)
    ensures EnsureStep(EnsureStep(s).0) == EnsureStep(s)
    ensures !s.initialized ==> EnsureStep(s).0.initTask == Some(EnsureStep(s).1.id)
  {
  }

  /** A failed initialisation clears its task, so the next request starts a new one. */
  lemma FailedInitRetried(s: RunnerState, id: nat, viewCreated: bool)
    requires !s.initialized
    ensures var s1 := CompleteStep(s, id, InitFailed(viewCreated));
      !s1.initialized && EnsureStep(s1).1 == Running(s.nextTask)
  {
  }

  /** Every step keeps a WebView attached to an initialised runner. */
  lemma StepsConsistent(s: RunnerState, id: nat, outcome: InitOutcome, env: RunnerEnv)
    requires Consistent(s)
    ensures Consistent(EnsureStep(s).0) && Consistent(CompleteStep(s, id, outcome))
    ensures Consistent(ResetStep(s)) && Consistent(Ready(s, env))
  {
  }

  /** After a reset the next request initialises afresh with a new task, and any WebView it
      uses is the one that task created. */
  lemma ResetReinitializes(s: RunnerState, env: RunnerEnv)
    ensures var r := Ready(ResetStep(s), env);
      r.nextTask == s.nextTask + 1 &&
      (r.webView.Some? <==> env.init(s.nextTask) != InitFailed(false)) &&
      (r.webView.Some? ==> r.webView.value == s.nextTask)
  {
  }

  // ---------------------------------------------------------------------------------------------
  // Requests

  /** One try: initialise if needed, then evaluate in the attached WebView; none attached is a
      failure. */
  function Once(s: RunnerState, script: string, env: RunnerEnv): (RunnerState, Attempt) {
    var s1 := Ready(s, env);
    if s1.webView.None? then (s1, Failed) else (s1, Judge(env.eval(script, s1.webView.value)))
  }

  /** `ExecuteScriptInternalAsync`: the first value returned, with a reset between a failed
      first try and the second; "" after a failed last try. Also the number of tries. */
  function Run(s: RunnerState, script: string, retryOnFailure: bool, env: RunnerEnv):
    (r: (RunnerState, string, nat))
    ensures 1 <= r.2 <= (if retryOnFailure then 2 else 1)
    decreases if retryOnFailure then 1 else 0
  {
    var (s1, o) := Once(s, script, env);
    match o
    case Returned(v) => (s1, v, 1)
    case Failed =>
      if retryOnFailure then
        var (s2, v, n) := Run(ResetStep(s1), script, false, env);
        (s2, v, n + 1)
      else (s1, "", 1)
  }

  /** A request gives "" or an answer the engine really returned for that expression, never an
      error text. */
  lemma RunAnswers(s: RunnerState, script: string, retryOnFailure: bool, env: RunnerEnv)
    ensures var (_, v, _) := Run(s, script, retryOnFailure, env);
      v == "" || (!StartsWith(v, ErrorPrefix) &&
                  exists view :: env.eval(script, view) == Value(Some(v)))
    decreases if retryOnFailure then 1 else 0
  {
    var (s1, o) := Once(s, script, env);
    if o.Returned? {
      var w := s1.webView.value;
      assert env.eval(script, w) == Value(Some(o.value)) || o.value == "";
    } else if retryOnFailure {
      RunAnswers(ResetStep(s1), script, false, env);
    }
  }

  /** The second try happens only after a failed first one, on a reset WebView; when it fails
      too the request gives "". */
  lemma RetryOnce(s: RunnerState, script: string, env: RunnerEnv)
    requires Once(s, script, env).1.Failed?
    ensures var s1 := Once(s, script, env).0;
      var (s2, v, n) := Run(s, script, true, env);
      n == 2 && (s2, v) == (Run(ResetStep(s1), script, false, env).0,
                            Run(ResetStep(s1), script, false, env).1)
    ensures Once(ResetStep(Once(s, script, env).0), script, env).1.Failed? ==>
      Run(s, script, true, env).1 == ""
  {
  }

  /** The runner as an object over those fields. */
  class WebViewRunner {
    var initialized: bool
    var initTask: Option<nat>
    var nextTask: nat
    var webView: Option<nat>

    function State(): RunnerState
      reads this
    {
      RunnerState(initialized, initTask, nextTask, webView)
    }

    predicate Valid()
      reads this
    {
      Consistent(State())
    }

    constructor()
      ensures State() == RunnerState(false, None, 0, None) && Valid()
    {
      initialized := false;
      initTask := None;
      nextTask := 0;
      webView := None;
    }

    method EnsureInitialized() returns (t: Task)
      modifies this
      ensures (State(), t) == EnsureStep(old(State()))
    {
      if initialized {
        return Done;
      }
      if initTask.None? {
        initTask := Some(nextTask);
        nextTask := nextTask + 1;
      }
      return Running(initTask.value);
    }

    method CompleteInitialization(id: nat, outcome: InitOutcome)
      modifies this
      ensures State() == CompleteStep(old(State()), id, outcome)
    {
      if outcome.InitOk? {
        webView := Some(id);
        initialized := true;
      } else {
        if outcome.viewCreated {
          webView := Some(id);
        }
        if !initialized {
          initTask := None;
        }
      }
    }

    method ResetWebView()
      modifies this
      ensures State() == ResetStep(old(State()))
    {
      initialized := false;
      initTask := None;
      webView := None;
    }

    method ExecuteScriptInternal(functionName: string, arg1: Option<string>, arg2: Option<string>,
                                 retryOnFailure: bool, env: RunnerEnv) returns (r: string)
      modifies this
      ensures var script := Script(functionName, arg1, arg2);
        (State(), r) == (Run(old(State()), script, retryOnFailure, env).0,
                         Run(old(State()), script, retryOnFailure, env).1)
      decreases if retryOnFailure then 1 else 0
    {
      var script := Script(functionName, arg1, arg2);
      var t := EnsureInitialized();
      if t.Running? {
        CompleteInitialization(t.id, env.init(t.id));
      }
      var attempt := if webView.None? then Failed else Judge(env.eval(script, webView.value));
      if attempt.Returned? {
        return attempt.value;
      }
      if retryOnFailure {
        ResetWebView();
        r := ExecuteScriptInternal(functionName, arg1, arg2, false, env);
        return;
      }
      return "";
    }

    method EvaluateSignature(msStub: Option<string>, userAgent: Option<string>, env: RunnerEnv)
      returns (r: string)
      modifies this
      ensures var script := Script("getMSSDKSignature", msStub, userAgent);
        (State(), r) == (Run(old(State()), script, true, env).0,
                         Run(old(State()), script, true, env).1)
    {
      r := ExecuteScriptInternal("getMSSDKSignature", msStub, userAgent, true, env);
    }

    method GenerateABogus(queryString: Option<string>, userAgent: Option<string>, env: RunnerEnv)
      returns (r: string)
      modifies this
      ensures var script := Script("getABogus", Some(queryString.GetOr("")),
                                   Some(userAgent.GetOr("")));
        (State(), r) == (Run(old(State()), script, true, env).0,
                         Run(old(State()), script, true, env).1)
    {
      r := ExecuteScriptInternal("getABogus", Some(queryString.GetOr("")),
                                 Some(userAgent.GetOr("")), true, env);
    }
  }
}
