/** The scripted pipeline step: user Python code plus the names of its setup
    and run functions, a builder for it, the factory that accepts it, and the
    runner that rewrites the code so that the interpreter's "setup" and
    "run" globals are the user's functions, with run's result wrapped as
    {'output': ...}. */
module PythonStepModel {
  import opened Results
  import opened Strings

  /** A PythonStep; any of its strings may be null. */
  datatype PythonStep = PythonStep(code: Option<string>, setupMethodName: Option<string>,
                                   runMethodName: Option<string>)

  /** PythonStep.builder(): three settable fields and build(). */
  class Builder {
    var code: Option<string>
    var setupMethodName: Option<string>
    var runMethodName: Option<string>

    constructor ()
      ensures code.None? && setupMethodName.None? && runMethodName.None?
    {
      code := None;
      setupMethodName := None;
      runMethodName := None;
    }

    method Code(code: Option<string>) returns (b: Builder)
      modifies this
      ensures b == this
      ensures this.code == code
      ensures setupMethodName == old(setupMethodName) && runMethodName == old(runMethodName)
    {
      this.code := code;
      return this;
    }

    method SetupMethod(name: Option<string>) returns (b: Builder)
      modifies this
      ensures b == this
      ensures setupMethodName == name
      ensures code == old(code) && runMethodName == old(runMethodName)
    {
      setupMethodName := name;
      return this;
    }

    method RunMethod(name: Option<string>) returns (b: Builder)
      modifies this
      ensures b == this
      ensures runMethodName == name
      ensures code == old(code) && setupMethodName == old(setupMethodName)
    {
      runMethodName := name;
      return this;
    }

    /** build(): the fields, unchanged, as a step. */
    method Build() returns (s: PythonStep)
      ensures s == PythonStep(code, setupMethodName, runMethodName)
    {
      s := PythonStep(code, setupMethodName, runMethodName);
    }
  }

  /** A pipeline step configuration as the factory sees it: a PythonStep or
      a step of another class. */
  datatype PipelineStep = Python(step: PythonStep) | OtherStep(className: string)

  /** Factory.canRun(step). */
  predicate CanRun(p: PipelineStep) {
    p.Python?
  }

  // ---- The generated suffix, as statements and as text ----

  /** One statement of the suffix: name = other, or the output wrapper
      "run = lambda input: {'output':f(input)}". */
  datatype Stmt = Alias(target: string, source: string) | WrapOutput(callee: string)

  /** The statements resolveActualCode appends after the user's code: an
      alias for setup unless it is already named "setup"; when run is named
      "run", a copy runOrig of it, which the wrapper calls instead (a
      wrapper calling "run" would call itself). */
  function AliasProgram(setupF: string, runF: string): (p: seq<Stmt>)
    ensures |p| > 0 && p[|p| - 1] == WrapOutput(Callee(runF))
    ensures p[|p| - 1].callee != "run"
  {
    SetupStmts(setupF) + RunOrigStmts(runF) + [WrapOutput(Callee(runF))]
  }

  function SetupStmts(setupF: string): seq<Stmt> {
    if setupF != "setup" then [Alias("setup", setupF)] else []
  }

  function RunOrigStmts(runF: string): seq<Stmt> {
    if runF == "run" then [Alias("runOrig", "run")] else []
  }

  function Callee(runF: string): string {
    if runF == "run" then "runOrig" else runF
  }

  const NL := "\n"
  const Assign := " = "
  const WrapHead := "run = lambda input: {'output':"
  const WrapTail := "(input)}"

  function RenderStmt(s: Stmt): string {
    match s
    case Alias(t, src) => NL + t + Assign + src + NL
    case WrapOutput(f) => NL + WrapHead + f + WrapTail
  }

  function Render(p: seq<Stmt>): string {
    if |p| == 0 then "" else Render(p[..|p| - 1]) + RenderStmt(p[|p| - 1])
  }

  lemma RenderAppend(p: seq<Stmt>, s: Stmt)
    ensures Render(p + [s]) == Render(p) + RenderStmt(s)
  {
    assert (p + [s])[..|p|] == p;
  }

  /** The text of each optional line of the suffix. */
  function SetupText(setupF: string): string {
    if setupF != "setup" then NL + "setup" + Assign + setupF + NL else ""
  }

  function RunOrigText(runF: string): string {
    if runF == "run" then NL + "runOrig" + Assign + "run" + NL else ""
  }

  lemma RenderAliasProgram(setupF: string, runF: string)
    ensures Render(AliasProgram(setupF, runF))
      == SetupText(setupF) + RunOrigText(runF) + (NL + WrapHead + Callee(runF) + WrapTail)
  {
    var p1 := SetupStmts(setupF);
    var p2 := RunOrigStmts(runF);
    RenderAppend([], Alias("setup", setupF));
    assert Render(p1) == SetupText(setupF);
    if runF == "run" {
      RenderAppend(p1, Alias("runOrig", "run"));
    } else {
      assert p1 + p2 == p1;
    }
    assert Render(p1 + p2) == SetupText(setupF) + RunOrigText(runF);
    RenderAppend(p1 + p2, WrapOutput(Callee(runF)));
  }

  lemma Assoc3(a: string, b: string, c: string)
    ensures a + b + c == a + (b + c)
  {
  }

  /** resolveActualCode(userCode, setupF, runF), appending to a buffer as
      the StringBuilder does: the user's code, then the statements of
      AliasProgram, each as one line. */
  method ResolveActualCode(userCode: string, setupF: string, runF: string) returns (code: string)
    ensures code == userCode + Render(AliasProgram(setupF, runF))
    ensures IsPrefix(userCode, code)
    ensures setupF != "setup" ==> IsPrefix(userCode + (NL + "setup" + Assign + setupF + NL), code)
  {
    var sb := userCode;
    if setupF != "setup" {
      sb := sb + (NL + "setup" + Assign + setupF + NL);
    }
    ghost var s1 := SetupText(setupF);
    assert sb == userCode + s1;
    var f := runF;
    if runF == "run" {
      sb := sb + (NL + "runOrig" + Assign + "run" + NL);
      f := "runOrig";
    }
    ghost var s2 := RunOrigText(runF);
    assert sb == userCode + s1 + s2;
    var s3 := NL + WrapHead + f + WrapTail;
    sb := sb + s3;
    RenderAliasProgram(setupF, runF);
    assert Render(AliasProgram(setupF, runF)) == s1 + s2 + s3;
    Assoc3(userCode, s1 + s2, s3);
    Assoc3(userCode, s1, s2);
    assert IsPrefix(userCode + s1, sb);
    code := sb;
  }

  /** The generated code always ends with the output wrapper, which calls
      runOrig when the run function is named "run". */
  lemma EndsWithWrapper(setupF: string, runF: string)
    ensures var w := NL + WrapHead + Callee(runF) + WrapTail;
      var r := Render(AliasProgram(setupF, runF));
      |w| <= |r| && r[|r| - |w|..] == w
  {
    RenderAliasProgram(setupF, runF);
  }

  // ---- What the suffix does to the interpreter's globals ----

  /** A global of the interpreter: a function the user's code defined, or
      the output lambda, whose callee is looked up by name when it is
      called. */
  datatype PyFn = UserFn(id: nat) | OutputLambda(callee: string)

  /** A callable behaviour: the user function itself, or its result wrapped
      as {'output': ...}. */
  datatype Behaviour = Plain(fn: nat) | WrappedOutput(fn: nat)

  /** Running the suffix; a name that is not bound raises NameError (None). */
  function Exec(p: seq<Stmt>, env: map<string, PyFn>): Option<map<string, PyFn>> {
    if |p| == 0 then Some(env)
    else match p[0]
      case Alias(t, src) =>
        if src in env then Exec(p[1..], env[t := env[src]]) else None
      case WrapOutput(f) => Exec(p[1..], env["run" := OutputLambda(f)])
  }

  /** What calling a global does: a lambda calls the function its callee
      name is bound to when the call happens. */
  function Behave(env: map<string, PyFn>, name: string): Option<Behaviour> {
    if name !in env then None
    else match env[name]
      case UserFn(id) => Some(Plain(id))
      case OutputLambda(c) =>
        if c in env && env[c].UserFn? then Some(WrappedOutput(env[c].id)) else None
  }

  predicate AllUserFns(env: map<string, PyFn>) {
    forall k :: k in env ==> env[k].UserFn?
  }

  /** After the user's code has defined setupF and runF, the suffix leaves
      "setup" behaving as setupF and "run" behaving as runF with its result
      wrapped, unless run is named "setup" while setup is named otherwise
      (then the alias "setup = setupF" replaces run before the lambda looks
      it up). */
  lemma {:induction false} AliasProgramMeaning(setupF: string, runF: string, env: map<string, PyFn>)
    requires AllUserFns(env) && setupF in env && runF in env
    requires !(runF == "setup" && setupF != "setup")
    ensures Exec(AliasProgram(setupF, runF), env).Some?
    ensures var e := Exec(AliasProgram(setupF, runF), env).value;
      Behave(e, "setup") == Some(Plain(env[setupF].id))
      && Behave(e, "run") == Some(WrappedOutput(env[runF].id))
  {
    var e1 := if setupF != "setup" then env["setup" := env[setupF]] else env;
    var e2 := if runF == "run" then e1["runOrig" := e1["run"]] else e1;
    var rest := RunOrigStmts(runF) + [WrapOutput(Callee(runF))];
    assert AliasProgram(setupF, runF) == SetupStmts(setupF) + rest;
    ExecSetup(setupF, rest, env);
    ExecRunOrig(runF, [WrapOutput(Callee(runF))], e1);
    ExecWrap(Callee(runF), e2);
    BehaveAfter(setupF, runF, env, e2["run" := OutputLambda(Callee(runF))]);
  }

  /** The first alias binds "setup" to the user's setup function. */
  lemma ExecSetup(setupF: string, rest: seq<Stmt>, env: map<string, PyFn>)
    requires setupF in env
    ensures Exec(SetupStmts(setupF) + rest, env)
      == Exec(rest, if setupF != "setup" then env["setup" := env[setupF]] else env)
  {
    if setupF != "setup" {
      assert (SetupStmts(setupF) + rest)[1..] == rest;
    } else {
      assert SetupStmts(setupF) + rest == rest;
    }
  }

  /** The second alias, present when run is named "run", saves it as
      "runOrig". */
  lemma ExecRunOrig(runF: string, rest: seq<Stmt>, env: map<string, PyFn>)
    requires runF == "run" ==> "run" in env
    ensures Exec(RunOrigStmts(runF) + rest, env)
      == Exec(rest, if runF == "run" then env["runOrig" := env["run"]] else env)
  {
    if runF == "run" {
      assert (RunOrigStmts(runF) + rest)[1..] == rest;
    } else {
      assert RunOrigStmts(runF) + rest == rest;
    }
  }

  lemma ExecWrap(f: string, env: map<string, PyFn>)
    ensures Exec([WrapOutput(f)], env) == Some(env["run" := OutputLambda(f)])
  {
    assert [WrapOutput(f)][1..] == [];
  }

  /** The globals after the three statements. */
  lemma BehaveAfter(setupF: string, runF: string, env: map<string, PyFn>, e: map<string, PyFn>)
    requires AllUserFns(env) && setupF in env && runF in env
    requires !(runF == "setup" && setupF != "setup")
    requires var e1 := if setupF != "setup" then env["setup" := env[setupF]] else env;
      var e2 := if runF == "run" then e1["runOrig" := e1["run"]] else e1;
      e == e2["run" := OutputLambda(Callee(runF))]
    ensures Behave(e, "setup") == Some(Plain(env[setupF].id))
    ensures Behave(e, "run") == Some(WrappedOutput(env[runF].id))
  {
  }

  /** The exception to the rule above: with setup named "init" and run named
      "setup", the generated run calls init. */
  lemma RunNamedSetupCallsSetupFunction()
    ensures var env := map["init" := UserFn(0), "setup" := UserFn(1)];
      var e := Exec(AliasProgram("init", "setup"), env);
      e.Some? && Behave(e.value, "run") == Some(WrappedOutput(0))
  {
    var env := map["init" := UserFn(0), "setup" := UserFn(1)];
    assert AliasProgram("init", "setup") == [Alias("setup", "init"), WrapOutput("setup")];
    var e1 := env["setup" := UserFn(0)];
    assert Exec([WrapOutput("setup")], e1) == Some(e1["run" := OutputLambda("setup")]) by {
      assert [WrapOutput("setup")][1..] == [];
    }
    assert [Alias("setup", "init"), WrapOutput("setup")][1..] == [WrapOutput("setup")];
  }

  // ---- Factory and runner ----

  /** Runner: built from a step whose setup and run names are set; its code
      is the resolved code. The interpreter job it would run is not part of
      this model. */
  class Runner {
    const pythonStep: PythonStep
    const resolvedCode: string

    constructor (step: PythonStep)
      requires step.setupMethodName.Some? && step.runMethodName.Some?
      ensures pythonStep == step
      ensures resolvedCode == step.code.GetOr("null")
        + Render(AliasProgram(step.setupMethodName.value, step.runMethodName.value))
    {
      var c := ResolveActualCode(step.code.GetOr("null"), step.setupMethodName.value, step.runMethodName.value);
      pythonStep := step;
      resolvedCode := c;
    }

    /** getPipelineStep(): the step the runner was built from. */
    function GetPipelineStep(): (s: PythonStep)
      ensures s == pythonStep
    {
      pythonStep
    }

    /** close(): nothing to release. */
    method Close()
      ensures unchanged(this)
    {
    }
  }

  /** Factory.create(step): checkState(canRun) first; a null setup or run
      name then fails in resolveActualCode. */
  method Create(p: PipelineStep) returns (r: Result<Runner>)
    ensures r.Ok? <==> CanRun(p) && p.step.setupMethodName.Some? && p.step.runMethodName.Some?
    ensures !CanRun(p) ==> r == Err(Exception(IllegalState, "Required PythonStep. Received class " + p.className))
    ensures CanRun(p) && r.Err? ==> r.error.kind == NullReference
    ensures r.Ok? ==> fresh(r.value) && r.value.pythonStep == p.step
  {
    if !CanRun(p) {
      return Err(Exception(IllegalState, "Required PythonStep. Received class " + p.className));
    }
    var step := p.step;
    if step.setupMethodName.None? || step.runMethodName.None? {
      return Err(Exception(NullReference, "null method name"));
    }
    var runner := new Runner(step);
    return Ok(runner);
  }
}
