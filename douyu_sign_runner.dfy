/** The WebView runner for the Douyu sign function: it initialises a hidden WebView once, runs the
    room page's script and the generated sign function for a room, and retries once, after
    rebuilding the WebView, when the error is one a fresh WebView can cure. Awaits are taken in
    sequence; the page scripts, the regular-expression rewriting, MD5 and the clock are inside
    the environment parameter. */
module DouyuSignRunner {
  import opened Wrappers
  import opened Text
  import opened JsEscape

  // ---------------------------------------------------------------------------------------------
  // Exceptions

  /** An exception as the chain walk sees it: a COM exception with its HResult (a signed 32-bit
      value), another exception wrapping an inner one, or another exception with no inner one. */
  datatype Error = ComError(hResult: int) | Wrapping(inner: Error) | Plain

  /** `unchecked((int)0x80020101)`, the script error of the engine, and
      `unchecked((int)0x8001010E)`, a call on the wrong thread. */
  const ScriptErrorHResult: int := 0x8002_0101 - 0x1_0000_0000
  const WrongThreadHResult: int := 0x8001_010E - 0x1_0000_0000

  predicate RecoverableHResult(hr: int) {
    hr == ScriptErrorHResult || hr == WrongThreadHResult
  }

  /** `IsRecoverableWebViewException`: the first COM exception down the inner chain decides; a
      chain without one is not recoverable. */
  predicate IsRecoverable(e: Error) {
    match e
    case ComError(hr) => RecoverableHResult(hr)
    case Wrapping(inner) => IsRecoverable(inner)
    case Plain => false
  }

  /** The chain as a list: for each exception, its HResult when it is a COM exception. The walk
      stops at the first COM exception. */
  function Chain(e: Error): (r: seq<Option<int>>)
    ensures |r| >= 1
  {
    match e
    case ComError(hr) => [Some(hr)]
    case Wrapping(inner) => [None] + Chain(inner)
    case Plain => [None]
  }

  /** Some entry names a recoverable HResult and no entry before it is a COM exception. */
  predicate FirstComRecoverable(c: seq<Option<int>>) {
    exists i :: 0 <= i < |c| && c[i].Some? && RecoverableHResult(c[i].value) &&
      forall j :: 0 <= j < i ==> c[j].None?
  }

  /** A non-COM exception in front of the chain does not change the answer. */
  lemma ShiftFirstCom(c: seq<Option<int>>)
    ensures FirstComRecoverable([None] + c) <==> FirstComRecoverable(c)
  {
    var d := [None] + c;
    if FirstComRecoverable(c) {
      var i :| 0 <= i < |c| && c[i].Some? && RecoverableHResult(c[i].value) &&
        forall j :: 0 <= j < i ==> c[j].None?;
      assert d[i + 1] == c[i];
      assert forall j :: 0 <= j < i + 1 ==> d[j].None?;
    }
    if FirstComRecoverable(d) {
      var i :| 0 <= i < |d| && d[i].Some? && RecoverableHResult(d[i].value) &&
        forall j :: 0 <= j < i ==> d[j].None?;
      assert i >= 1 && c[i - 1] == d[i];
      assert forall j :: 0 <= j < i - 1 ==> c[j] == d[j + 1];
    }
  }

  /** Recoverable exactly when some exception in the chain is a COM exception with one of the two
      HResults and none before it is a COM exception. */
  lemma {:induction false} RecoverableByChain(e: Error)
    ensures IsRecoverable(e) <==> FirstComRecoverable(Chain(e))
  {
    match e
    case ComError(hr) =>
      assert Chain(e)[0] == Some(hr);
    case Wrapping(inner) =>
      RecoverableByChain(inner);
      ShiftFirstCom(Chain(inner));
    case Plain =>
      assert Chain(e) == [None];
  }

  // ---------------------------------------------------------------------------------------------
  // The sign call

  /** The device id passed to the sign function. */
  const DeviceId: string := "10000000000000000000000000001501"
  const SignHead: string := "(function(){ try { return sign('"
  const SignTail: string := "'); } catch(e) { return \"ERROR:\" + e.message; } })()"

  /** What follows the room id's literal: the device id and the time, then the handler. */
  function SignRest(time: string): string {
    ",'" + DeviceId + "','" + time + SignTail
  }

  /** The expression that calls the generated sign function; only the room id is escaped. */
  function SignScript(rid: string, time: string): string {
    SignHead + EscapeJsString(Some(rid)) + "'" + SignRest(time)
  }

  /** A literal placed after a head is read from where the head ends. */
  lemma LiteralAfter(head: string, rid: string, rest: string)
    ensures var e := head + EscapeLines(rid) + "'" + rest;
      StartsWith(e, head) && ReadLiteral(e[|head|..]) == Some((rid, rest))
  {
    var e := head + EscapeLines(rid) + "'" + rest;
    assert e[|head|..] == EscapeLines(rid) + "'" + rest;
    ReadLinesEscaped(rid, rest);
  }

  /** The sign function receives the room id exactly, whatever it holds. */
  lemma SignScriptPassesRoom(rid: string, time: string)
    ensures var e := SignScript(rid, time);
      StartsWith(e, SignHead) && ReadLiteral(e[|SignHead|..]) == Some((rid, SignRest(time)))
  {
    LiteralAfter(SignHead, rid, SignRest(time));
  }

  // ---------------------------------------------------------------------------------------------
  // State and environment

  /** The runner's fields: the initialised flag, the initialisation task (by number) if one is
      held, the number the next task gets, and the WebView (numbered by the task that created
      it) if one is attached. */
  datatype RunnerState = RunnerState(initialized: bool, initTask: Option<nat>, nextTask: nat,
                                     webView: Option<nat>)

  /** How the setup on the UI thread ends: host container, new WebView, attaching it and the
      navigation to a blank page. A failing setup may have assigned the new WebView already. */
  datatype InitOutcome = InitOk | InitThrew(viewCreated: bool, error: Error)

  /** How `InitializeAsync` waits for its setup. The setup lambda returns no value, so of the two
      `RunOnUiThreadAsync` overloads it binds to the one taking an `Action` and runs as `async
      void`: the awaited task completes once the lambda throws or reaches its first await, a setup
      error never reaches it, and `_initialized` is set however the setup ended (`AsyncVoid`, the
      code as written). `Awaited` is the setup awaited to its end, as the Douyin runner does through
      its `Func<Task>` overload: a setup error faults the initialisation task, which stays held and
      throws the error again at every await. The dispatcher check of `RunOnUiThreadAsync` cannot
      fail, because the constructor already refuses a missing dispatcher. */
  datatype InitMode = AsyncVoid | Awaited

  /** What the page script and the sign function give in a WebView: a thrown error, or the
      answer, possibly null (an empty page result is already "" here). */
  datatype SignOutcome = SignThrew(error: Error) | SignValue(result: Option<string>)

  /** Each initialisation task's outcome, the clock reading as written into the call, and the
      page's answer for each page, call expression and WebView. */
  datatype SignEnv = SignEnv(init: nat -> InitOutcome, time: string,
                             sign: (string, string, nat) -> SignOutcome)

  /** The state after `EnsureInitializedAsync` is awaited, and the error the await throws. */
  function Ready(s: RunnerState, env: SignEnv, mode: InitMode): (RunnerState, Option<Error>) {
    if s.initialized then (s, None)
    else
      var id := if s.initTask.Some? then s.initTask.value else s.nextTask;
      var s1 := if s.initTask.Some? then s else s.(initTask := Some(id), nextTask := id + 1);
      match env.init(id)
      case InitOk => (s1.(webView := Some(id), initialized := true), None)
      case InitThrew(viewCreated, error) =>
        var s2 := if viewCreated then s1.(webView := Some(id)) else s1;
        if mode == AsyncVoid then (s2.(initialized := true), None) else (s2, Some(error))
  }

  /** A runner that is initialised only with a WebView attached. */
  predicate HasView(s: RunnerState) {
    s.initialized ==> s.webView.Some?
  }

  /** `ResetWebViewAsync` before it awaits the new initialisation. */
  function Cleared(s: RunnerState): RunnerState {
    s.(webView := None, initialized := false, initTask := None)
  }

  /** How a request ends: with a value, or with an exception that escapes to the caller. */
  datatype Outcome = Result(value: string) | Escapes(error: Error)

  /** `ExecuteInternalAsync`; also the number of tries. */
  function Run(s: RunnerState, html: string, rid: string, retryOnFailure: bool, env: SignEnv,
               mode: InitMode): (r: (RunnerState, Outcome, nat))
    ensures 1 <= r.2 <= (if retryOnFailure then 2 else 1)
    ensures r.1.Escapes? ==> retryOnFailure && mode == Awaited
    ensures mode == Awaited && HasView(s) ==> HasView(r.0)
    decreases if retryOnFailure then 1 else 0
  {
    var (s1, initError) := Ready(s, env, mode);
    if initError.Some? then Recover(s1, initError.value, html, rid, retryOnFailure, env, mode)
    else if html == "" || rid == "" then (s1, Result(""), 1)
    else if s1.webView.None? then Recover(s1, Plain, html, rid, retryOnFailure, env, mode)
    else match env.sign(html, SignScript(rid, env.time), s1.webView.value)
      case SignThrew(error) => Recover(s1, error, html, rid, retryOnFailure, env, mode)
      case SignValue(v) => (s1, Result(v.GetOr("")), 1)
  }

  /** The handler: a recoverable error on the first try resets the WebView, awaits a new
      initialisation (whose error escapes) and tries once more; anything else gives "". */
  function Recover(s: RunnerState, error: Error, html: string, rid: string, retryOnFailure: bool,
                   env: SignEnv, mode: InitMode): (r: (RunnerState, Outcome, nat))
    ensures 1 <= r.2 <= (if retryOnFailure then 2 else 1)
    ensures r.1.Escapes? ==> retryOnFailure && mode == Awaited
    ensures mode == Awaited && HasView(s) ==> HasView(r.0)
    decreases if retryOnFailure then 1 else 0, 0
  {
    if retryOnFailure && IsRecoverable(error) then
      var (s2, resetError) := Ready(Cleared(s), env, mode);
      if resetError.Some? then (s2, Escapes(resetError.value), 1)
      else
        var (s3, o, n) := Run(s2, html, rid, false, env, mode);
        (s3, o, n + 1)
    else (s, Result(""), 1)
  }

  /** `GenerateSignAsync`: null page and room are taken as "". */
  function GenerateSign(s: RunnerState, html: Option<string>, rid: Option<string>, env: SignEnv,
                        mode: InitMode): (RunnerState, Outcome)
  {
    var r := Run(s, html.GetOr(""), rid.GetOr(""), true, env, mode);
    (r.0, r.1)
  }

  // ---------------------------------------------------------------------------------------------
  // Properties

  /** An empty page or room gives "" once the runner is initialised; nothing is evaluated. */
  lemma EmptyInputsGiveEmpty(s: RunnerState, html: string, rid: string, retryOnFailure: bool,
                             env: SignEnv, mode: InitMode)
    requires s.initialized && (html == "" || rid == "")
    ensures Run(s, html, rid, retryOnFailure, env, mode) == (s, Result(""), 1)
  {
  }

  /** A request gives "", the page's answer in some WebView, or an error that escapes. */
  lemma {:induction false} RunAnswers(s: RunnerState, html: string, rid: string,
                                      retryOnFailure: bool, env: SignEnv, mode: InitMode)
    ensures var o := Run(s, html, rid, retryOnFailure, env, mode).1;
      o.Result? && o.value != "" ==>
        html != "" && rid != "" &&
        exists view :: env.sign(html, SignScript(rid, env.time), view) == SignValue(Some(o.value))
    decreases if retryOnFailure then 1 else 0
  {
    var (s1, initError) := Ready(s, env, mode);
    if initError.Some? {
      RecoverAnswers(s1, initError.value, html, rid, retryOnFailure, env, mode);
    } else if html != "" && rid != "" {
      if s1.webView.None? {
        RecoverAnswers(s1, Plain, html, rid, retryOnFailure, env, mode);
      } else {
        var view := s1.webView.value;
        match env.sign(html, SignScript(rid, env.time), view)
        case SignThrew(error) =>
          RecoverAnswers(s1, error, html, rid, retryOnFailure, env, mode);
        case SignValue(v) =>
      }
    }
  }

  lemma {:induction false} RecoverAnswers(s: RunnerState, error: Error, html: string, rid: string,
                                          retryOnFailure: bool, env: SignEnv, mode: InitMode)
    ensures var o := Recover(s, error, html, rid, retryOnFailure, env, mode).1;
      o.Result? && o.value != "" ==>
        html != "" && rid != "" &&
        exists view :: env.sign(html, SignScript(rid, env.time), view) == SignValue(Some(o.value))
    decreases if retryOnFailure then 1 else 0, 0
  {
    if retryOnFailure && IsRecoverable(error) {
      var (s2, resetError) := Ready(Cleared(s), env, mode);
      if resetError.None? {
        RunAnswers(s2, html, rid, false, env, mode);
      }
    }
  }

  /** An error that is not recoverable ends the request with "" after one try. */
  lemma NoRetryUnlessRecoverable(s: RunnerState, error: Error, html: string, rid: string,
                                 env: SignEnv, mode: InitMode)
    requires !IsRecoverable(error)
    ensures Recover(s, error, html, rid, true, env, mode) == (s, Result(""), 1)
  {
  }

  /** With the setup awaited, a failed initialisation stays cached: while its task is held every
      later request fails with the same error, and only a recoverable error (through the reset)
      clears it. */
  lemma FaultedInitSticks(s: RunnerState, html: string, rid: string, env: SignEnv)
    requires !s.initialized && s.initTask.Some?
    requires env.init(s.initTask.value).InitThrew?
    requires !IsRecoverable(env.init(s.initTask.value).error)
    ensures var (s1, o, n) := Run(s, html, rid, true, env, Awaited);
      o == Result("") && n == 1 && s1.initTask == s.initTask && !s1.initialized
  {
  }

  /** With the setup awaited, a recoverable error whose fresh initialisation fails again escapes
      to the caller instead of giving "". */
  lemma ResetFailureEscapes(s: RunnerState, error: Error, html: string, rid: string, env: SignEnv)
    requires IsRecoverable(error)
    requires env.init(s.nextTask).InitThrew?
    ensures Recover(s, error, html, rid, true, env, Awaited).1 == Escapes(env.init(s.nextTask).error)
  {
  }

  /** Null page or room is the same request as "". */
  lemma NullIsEmpty(s: RunnerState, env: SignEnv, mode: InitMode)
    ensures GenerateSign(s, None, None, env, mode) == GenerateSign(s, Some(""), Some(""), env, mode)
  {
  }

  // ---------------------------------------------------------------------------------------------
  // A failed setup, as written and awaited

  /** An initialised runner without a WebView stays so: every request, whatever its page and room,
      gives "" after one try and changes nothing, since the error of the missing WebView is not
      recoverable and nothing else resets the runner. */
  lemma NoViewIsFinal(s: RunnerState, html: string, rid: string, retryOnFailure: bool,
                      env: SignEnv, mode: InitMode)
    requires s.initialized && s.webView.None?
    ensures Run(s, html, rid, retryOnFailure, env, mode) == (s, Result(""), 1)
  {
  }

  /** As written, a setup that fails before the new WebView is assigned still completes the
      initialisation: the runner ends up initialised without a WebView, so this request and (by
      `NoViewIsFinal`) every later one gives "" after one try. */
  lemma SetupFailureBreaksAsWritten(s: RunnerState, html: string, rid: string, env: SignEnv)
    requires !s.initialized && s.webView.None?
    requires var id := if s.initTask.Some? then s.initTask.value else s.nextTask;
      env.init(id).InitThrew? && !env.init(id).viewCreated
    ensures var (s1, o, n) := Run(s, html, rid, true, env, AsyncVoid);
      s1.initialized && s1.webView.None? && o == Result("") && n == 1
  {
  }

  /** With the setup awaited, a setup that fails with a recoverable error is cured by the reset:
      the request is answered by the sign function in the WebView of the second initialisation. */
  lemma SetupFailureRecovered(s: RunnerState, html: string, rid: string, env: SignEnv,
                              answer: string)
    requires !s.initialized && s.initTask.None?
    requires env.init(s.nextTask).InitThrew? && IsRecoverable(env.init(s.nextTask).error)
    requires env.init(s.nextTask + 1) == InitOk
    requires html != "" && rid != ""
    requires env.sign(html, SignScript(rid, env.time), s.nextTask + 1) == SignValue(Some(answer))
    ensures Run(s, html, rid, true, env, Awaited) ==
      (RunnerState(true, Some(s.nextTask + 1), s.nextTask + 2, Some(s.nextTask + 1)), Result(answer), 2)
  {
  }

  /** The runner as an object over those fields. */
  class WebViewSignRunner {
    var initialized: bool
    var initTask: Option<nat>
    var nextTask: nat
    var webView: Option<nat>

    function State(): RunnerState
      reads this
    {
      RunnerState(initialized, initTask, nextTask, webView)
    }

    constructor()
      ensures State() == RunnerState(false, None, 0, None)
    {
      initialized := false;
      initTask := None;
      nextTask := 0;
      webView := None;
    }

    /** `EnsureInitializedAsync` awaited: reuses the held task, starts one if none is held. */
    method EnsureInitialized(env: SignEnv, mode: InitMode) returns (error: Option<Error>)
      modifies this
      ensures (State(), error) == Ready(old(State()), env, mode)
    {
      if initialized {
        return None;
      }
      if initTask.None? {
        initTask := Some(nextTask);
        nextTask := nextTask + 1;
      }
      var id := initTask.value;
      var outcome := env.init(id);
      if outcome.InitThrew? {
        if outcome.viewCreated {
          webView := Some(id);
        }
        if mode == Awaited {
          return Some(outcome.error);
        }
        initialized := true;
        return None;
      }
      webView := Some(id);
      initialized := true;
      return None;
    }

    /** Detaches the WebView, clears flag and task, and initialises again. */
    method ResetWebView(env: SignEnv, mode: InitMode) returns (error: Option<Error>)
      modifies this
      ensures (State(), error) == Ready(Cleared(old(State())), env, mode)
    {
      webView := None;
      initialized := false;
      initTask := None;
      error := EnsureInitialized(env, mode);
    }

    method ExecuteInternal(html: string, rid: string, retryOnFailure: bool, env: SignEnv,
                           mode: InitMode) returns (o: Outcome)
      modifies this
      ensures (State(), o) == (Run(old(State()), html, rid, retryOnFailure, env, mode).0,
                               Run(old(State()), html, rid, retryOnFailure, env, mode).1)
      decreases if retryOnFailure then 1 else 0
    {
      var failure: Option<Error>;
      var initError := EnsureInitialized(env, mode);
      if initError.Some? {
        failure := initError;
      } else if html == "" || rid == "" {
        return Result("");
      } else if webView.None? {
        failure := Some(Plain);
      } else {
        var answer := env.sign(html, SignScript(rid, env.time), webView.value);
        if answer.SignValue? {
          return Result(answer.result.GetOr(""));
        }
        failure := Some(answer.error);
      }
      if retryOnFailure && IsRecoverable(failure.value) {
        var resetError := ResetWebView(env, mode);
        if resetError.Some? {
          return Escapes(resetError.value);
        }
        o := ExecuteInternal(html, rid, false, env, mode);
        return;
      }
      return Result("");
    }

    method GenerateSignAsync(html: Option<string>, rid: Option<string>, env: SignEnv,
                             mode: InitMode) returns (o: Outcome)
      modifies this
      ensures (State(), o) == GenerateSign(old(State()), html, rid, env, mode)
    {
      o := ExecuteInternal(html.GetOr(""), rid.GetOr(""), true, env, mode);
    }
  }
}
