/** The Douyin script runtime: the replaceable runner that evaluates the signature and a_bogus
    scripts, the runner used where no script engine is available, and the QuickJS runner that
    loads an embedded script and evaluates one call expression against it. */
module ScriptRuntime {
  import opened Wrappers
  import opened Text
  import opened JsEscape

  /** What evaluating an expression in a script engine gives: it throws, or it yields a value
      that may be null. */
  datatype EvalResult = Threw | Value(result: Option<string>)

  /** One embedded script as the QuickJS runner sees it: the assembly's resource names, whether
      the resource stream opens and the script itself runs, and the engine's answer to each call
      expression. */
  datatype ScriptEnv = ScriptEnv(resources: seq<string>, loads: bool, eval: string -> EvalResult)

  /** The runners: the empty one, QuickJS with its two scripts, and one installed by the host
      application (answered by that runner's own module). */
  datatype Runner =
    | NullRunner
    | QuickJsRunner(msSdk: ScriptEnv, aBogus: ScriptEnv)
    | Installed(id: nat)

  // ---------------------------------------------------------------------------------------------
  // Resource lookup

  /** The first name that ends with the suffix, ignoring case. */
  function FirstWithSuffix(names: seq<string>, suffix: string): Option<string>
    decreases |names|
  {
    if |names| == 0 then None
    else if EndsWithIgnoreCase(names[0], suffix) then Some(names[0])
    else FirstWithSuffix(names[1..], suffix)
  }

  lemma {:induction false} FirstWithSuffixSpec(names: seq<string>, suffix: string)
    ensures FirstWithSuffix(names, suffix).None? <==>
      forall i :: 0 <= i < |names| ==> !EndsWithIgnoreCase(names[i], suffix)
    ensures FirstWithSuffix(names, suffix).Some? ==>
      exists i :: 0 <= i < |names| && names[i] == FirstWithSuffix(names, suffix).value &&
        EndsWithIgnoreCase(names[i], suffix) &&
        forall j :: 0 <= j < i ==> !EndsWithIgnoreCase(names[j], suffix)
    decreases |names|
  {
    if |names| > 0 {
      FirstWithSuffixSpec(names[1..], suffix);
      if EndsWithIgnoreCase(names[0], suffix) {
        assert names[0] == FirstWithSuffix(names, suffix).value;
      } else if FirstWithSuffix(names, suffix).Some? {
        var i :| 0 <= i < |names[1..]| && names[1..][i] == FirstWithSuffix(names, suffix).value &&
          EndsWithIgnoreCase(names[1..][i], suffix) &&
          forall j :: 0 <= j < i ==> !EndsWithIgnoreCase(names[1..][j], suffix);
        assert names[i + 1] == names[1..][i];
        forall j | 0 <= j < i + 1
          ensures !EndsWithIgnoreCase(names[j], suffix)
        {
          if j > 0 {
            assert names[j] == names[1..][j - 1];
          }
        }
      } else {
        forall i | 0 <= i < |names|
          ensures !EndsWithIgnoreCase(names[i], suffix)
        {
          if i > 0 {
            assert names[i] == names[1..][i - 1];
          }
        }
      }
    }
  }

  /** The resource lookup: a scan that returns at the first match, and null after none. */
  method FindResourceName(resources: seq<string>, suffix: string) returns (name: Option<string>)
    ensures name == FirstWithSuffix(resources, suffix)
  {
    var i := 0;
    while i < |resources|
      invariant 0 <= i <= |resources|
      invariant FirstWithSuffix(resources, suffix) == FirstWithSuffix(resources[i..], suffix)
    {
      if EndsWithIgnoreCase(resources[i], suffix) {
        return Some(resources[i]);
      }
      assert resources[i..][1..] == resources[i + 1..];
      i := i + 1;
    }
    return None;
  }

  // ---------------------------------------------------------------------------------------------
  // Call expressions

  /** `name('a','b')` with both arguments escaped; a null argument is passed as "". */
  function Call(name: string, a: Option<string>, b: Option<string>): string {
    name + "('" + EscapeJavaScriptString(a) + "','" + EscapeJavaScriptString(b) + "')"
  }

  /** How the engine reads the two string arguments of a call to `name`. */
  function ArgumentsOf(e: string, name: string): Option<(string, string)> {
    var open := name + "('";
    if !StartsWith(e, open) then None
    else match ReadLiteral(e[|open|..]) {
      case None => None
      case Some(first) =>
        if !StartsWith(first.1, ",'") then None
        else match ReadLiteral(first.1[2..]) {
          case None => None
          case Some(second) => if second.1 == ")" then Some((first.0, second.0)) else None
        }
    }
  }

  /** Two values on one line are read back from their escaped literals; a line break in either
      one leaves the call unreadable. */
  lemma ArgumentsRead(name: string, x: string, y: string)
    ensures var e := name + "('" + EscapeQuotes(x) + "','" + EscapeQuotes(y) + "')";
      (SingleLine(x) && SingleLine(y) ==> ArgumentsOf(e, name) == Some((x, y))) &&
      (!SingleLine(x) || !SingleLine(y) ==> ArgumentsOf(e, name) == None)
  {
    var open := name + "('";
    var tailB := EscapeQuotes(y) + "'" + ")";
    var afterA := ",'" + tailB;
    var tailA := EscapeQuotes(x) + "'" + afterA;
    var e := name + "('" + EscapeQuotes(x) + "','" + EscapeQuotes(y) + "')";
    assert e == open + tailA;
    assert e[|open|..] == tailA;
    ReadEscaped(x, afterA);
    assert afterA[2..] == tailB;
    ReadEscaped(y, ")");
  }

  /** The script receives exactly the values passed (null as ""), whatever quotes and
      backslashes they hold, as long as neither holds a line break; otherwise the call does not
      parse. */
  lemma CallArguments(name: string, a: Option<string>, b: Option<string>)
    ensures SingleLine(a.GetOr("")) && SingleLine(b.GetOr("")) ==>
      ArgumentsOf(Call(name, a, b), name) == Some((a.GetOr(""), b.GetOr("")))
    ensures !SingleLine(a.GetOr("")) || !SingleLine(b.GetOr("")) ==>
      ArgumentsOf(Call(name, a, b), name) == None
  {
    assert EscapeQuotes("") == "";
    ArgumentsRead(name, a.GetOr(""), b.GetOr(""));
  }

  // ---------------------------------------------------------------------------------------------
  // Runners

  /** The engine evaluating a call to `name`: an expression whose arguments do not parse is a
      SyntaxError, anything else is answered by the script. */
  function Evaluate(eval: string -> EvalResult, e: string, name: string): EvalResult {
    if ArgumentsOf(e, name).None? then Threw else eval(e)
  }

  /** The QuickJS runner: a missing resource, a stream that does not open, a script that throws
      or a call that throws (a SyntaxError included) all give "", as does a null result. */
  function QuickJsCall(env: ScriptEnv, script: string, name: string, a: Option<string>,
                       b: Option<string>): (r: string)
    ensures r != "" ==> (FirstWithSuffix(env.resources, script).Some? && env.loads &&
                         Evaluate(env.eval, Call(name, a, b), name) == Value(Some(r)))
  {
    if FirstWithSuffix(env.resources, script).None? || !env.loads then ""
    else match Evaluate(env.eval, Call(name, a, b), name) {
      case Threw => ""
      case Value(v) => v.GetOr("")
    }
  }

  /** The signature call; None when an installed runner answers it. */
  function EvaluateSignature(runner: Runner, msStub: Option<string>, userAgent: Option<string>):
    (r: Option<string>)
    ensures r.None? <==> runner.Installed?
    ensures runner.NullRunner? ==> r == Some("")
  {
    match runner
    case NullRunner => Some("")
    case QuickJsRunner(msSdk, _) =>
      Some(QuickJsCall(msSdk, "webmssdk.js", "getMSSDKSignature", msStub, userAgent))
    case Installed(_) => None
  }

  /** The a_bogus call; None when an installed runner answers it. */
  function GenerateABogus(runner: Runner, queryString: Option<string>, userAgent: Option<string>):
    (r: Option<string>)
    ensures r.None? <==> runner.Installed?
    ensures runner.NullRunner? ==> r == Some("")
  {
    match runner
    case NullRunner => Some("")
    case QuickJsRunner(_, aBogus) =>
      Some(QuickJsCall(aBogus, "a_bogus.js", "getABogus", queryString, userAgent))
    case Installed(_) => None
  }

  /** A QuickJS answer that is not "" comes from two arguments on one line, and is the script's
      value for the call carrying exactly the caller's two values. */
  lemma QuickJsAnswer(runner: Runner, queryString: Option<string>, userAgent: Option<string>)
    requires runner.QuickJsRunner?
    ensures var r := GenerateABogus(runner, queryString, userAgent).value;
      r != "" ==>
        (SingleLine(queryString.GetOr("")) && SingleLine(userAgent.GetOr("")) &&
         exists e :: (runner.aBogus.eval(e) == Value(Some(r)) &&
                      ArgumentsOf(e, "getABogus") ==
                        Some((queryString.GetOr(""), userAgent.GetOr("")))))
  {
    var e := Call("getABogus", queryString, userAgent);
    CallArguments("getABogus", queryString, userAgent);
    var r := GenerateABogus(runner, queryString, userAgent).value;
    if r != "" {
      assert runner.aBogus.eval(e) == Value(Some(r));
    }
  }

  /** A query or user agent holding a carriage return or a line feed makes the engine throw, so
      both QuickJS calls answer "" whatever the script would have computed. */
  lemma QuickJsLineBreak(runner: Runner, first: Option<string>, userAgent: Option<string>)
    requires runner.QuickJsRunner?
    requires !SingleLine(first.GetOr("")) || !SingleLine(userAgent.GetOr(""))
    ensures GenerateABogus(runner, first, userAgent) == Some("")
    ensures EvaluateSignature(runner, first, userAgent) == Some("")
  {
    CallArguments("getABogus", first, userAgent);
    CallArguments("getMSSDKSignature", first, userAgent);
  }

  /** The process-wide runner slot. */
  class Runtime {
    var current: Runner

    /** The empty runner on the platform without a script engine, QuickJS elsewhere. */
    constructor(noEngine: bool, msSdk: ScriptEnv, aBogus: ScriptEnv)
      ensures current == (if noEngine then NullRunner else QuickJsRunner(msSdk, aBogus))
    {
      if noEngine {
        current := NullRunner;
      } else {
        current := QuickJsRunner(msSdk, aBogus);
      }
    }

    /** Replacing the runner: null is refused with an argument error and the runner stays. */
    method SetCurrent(value: Option<Runner>) returns (argumentNull: bool)
      modifies this
      ensures argumentNull <==> value.None?
      ensures current == (if value.None? then old(current) else value.value)
    {
      if value.None? {
        return true;
      }
      current := value.value;
      return false;
    }
  }

  /** On the platform without a script engine both calls answer "" until a runner is installed. */
  lemma NoEngineDefault(msSdk: ScriptEnv, aBogus: ScriptEnv, stub: Option<string>,
                        query: Option<string>, ua: Option<string>)
    ensures EvaluateSignature(NullRunner, stub, ua) == Some("")
    ensures GenerateABogus(NullRunner, query, ua) == Some("")
  {
  }
}
