/** The annotation processor that collects the @RequiresDependencies of a
    module into dependency lines "moduleName,<group>", where a group is
    [d1,d2,...] (all required) or {d1,d2,...} (any one suffices) and each
    d is a quoted "group:artifact:version[:classifiers]". */
module RequiresDependencies {
  import opened Results
  import opened Strings

  datatype Req = ALL | ANY

  /** One @Dependency: coordinates, classifiers (null or an array) and how
      several classifiers combine. */
  datatype Dependency = Dependency(gId: string, aId: string, ver: string,
                                   classifier: Option<seq<string>>, cReq: Req)

  /** One @Requires: a list of dependencies and how they combine. */
  datatype Requires = Requires(deps: seq<Dependency>, req: Req)

  /** What a processing round shows the processor: whether processing is
      over, the value() of each type annotated @ModuleInfo, and the
      @RequiresDependencies value of each annotated type, in the order the
      environment lists them. */
  datatype RoundEnv = RoundEnv(processingOver: bool, moduleInfoTypes: seq<string>,
                               requiresTypes: seq<seq<Requires>>)

  /** The static process(g, a, v, cl, r): the quoted coordinate string. */
  function ProcessDependency(g: string, a: string, v: string, cl: Option<seq<string>>, r: Req): (s: string)
    ensures |s| >= 2 && s[0] == '"' && s[|s| - 1] == '"'
    ensures cl.None? || |cl.value| == 0 ==> s == "\"" + g + ":" + a + ":" + v + "\""
  {
    var classifiers :=
      if cl.Some? && |cl.value| == 1 then ":" + cl.value[0]
      else if cl.Some? && |cl.value| > 1 then
        ":" + (if r == ALL then "[" + Join(cl.value, ",") + "]" else "{" + Join(cl.value, ",") + "}")
      else "";
    "\"" + g + ":" + a + ":" + v + classifiers + "\""
  }

  /** One @Requires group as written to the file. */
  function GroupString(req: Req, depStrs: seq<string>): string {
    if req == ALL then "[" + Join(depStrs, ",") + "]" else "{" + Join(depStrs, ",") + "}"
  }

  /** A group line is bracketed [..] exactly when all of its dependencies
      are required, and braced {..} when any one suffices. */
  lemma GroupDelimiters(req: Req, depStrs: seq<string>)
    ensures var s := GroupString(req, depStrs);
      && |s| >= 2
      && (req == ALL <==> s[0] == '[')
      && (req == ALL ==> s[|s| - 1] == ']')
      && (req == ANY ==> s[0] == '{' && s[|s| - 1] == '}')
  {
  }

  function DepStrings(deps: seq<Dependency>): (s: seq<string>)
    ensures |s| == |deps|
  {
    if |deps| == 0 then []
    else
      var d := deps[|deps| - 1];
      DepStrings(deps[..|deps| - 1]) + [ProcessDependency(d.gId, d.aId, d.ver, d.classifier, d.cReq)]
  }

  function RequiresLines(rs: seq<Requires>): (s: seq<string>)
    ensures |s| == |rs|
  {
    if |rs| == 0 then []
    else
      var last := rs[|rs| - 1];
      RequiresLines(rs[..|rs| - 1]) + [GroupString(last.req, DepStrings(last.deps))]
  }

  /** Dependency i of a group gives string i of the group. */
  lemma {:induction false} DepStringsAt(deps: seq<Dependency>, i: nat)
    requires i < |deps|
    ensures DepStrings(deps)[i]
      == ProcessDependency(deps[i].gId, deps[i].aId, deps[i].ver, deps[i].classifier, deps[i].cReq)
    decreases |deps|
  {
    if i < |deps| - 1 {
      DepStringsAt(deps[..|deps| - 1], i);
    }
  }

  /** @Requires i of a type gives line i of the type: its group of
      dependency strings. */
  lemma {:induction false} RequiresLinesAt(rs: seq<Requires>, i: nat)
    requires i < |rs|
    ensures RequiresLines(rs)[i] == GroupString(rs[i].req, DepStrings(rs[i].deps))
    decreases |rs|
  {
    if i < |rs| - 1 {
      RequiresLinesAt(rs[..|rs| - 1], i);
    }
  }

  /** The lines a round adds: one per @Requires, type by type. */
  function RoundLines(types: seq<seq<Requires>>): seq<string> {
    if |types| == 0 then []
    else RoundLines(types[..|types| - 1]) + RequiresLines(types[|types| - 1])
  }

  /** One more annotated type adds its lines after the others. */
  lemma RoundLinesStep(types: seq<seq<Requires>>, t: nat, before: seq<string>, after: seq<string>)
    requires t < |types|
    requires after == before + RoundLines(types[..t]) + RequiresLines(types[t])
    ensures after == before + RoundLines(types[..t + 1])
  {
    assert types[..t + 1][..t] == types[..t];
  }

  const NoModuleInfo :=
    "No class in this module is annotated with @ModuleInfo - a class with "
    + "@ModuleInfo(\"your-module-name\" should be added to the module that has the @CanRun(...) annotation"

  class RequiresDependenciesProcessor {
    var moduleName: Option<string>
    var toWrite: seq<string>
    /** The files handed to the filer, each as its list of lines. */
    var written: seq<seq<string>>

    constructor ()
      ensures moduleName.None? && toWrite == [] && written == []
    {
      moduleName := None;
      toWrite := [];
      written := [];
    }

    /** process(annotations, env). In a normal round: take the module name
        from the first @ModuleInfo type unless one is already known, then
        append one group line per @Requires. In the final round: fail
        without a module name, otherwise write the file. */
    method Process(env: RoundEnv) returns (r: Result<bool>)
      modifies this
      ensures env.processingOver && old(moduleName).None? ==>
        r == Err(Exception(IllegalState, NoModuleInfo)) && toWrite == old(toWrite) && written == old(written)
      ensures env.processingOver && old(moduleName).Some? ==>
        (r == Ok(true) && toWrite == old(toWrite)
         && written == old(written) + (if |old(toWrite)| == 0 then [] else [Prefixed(old(moduleName).value, old(toWrite))]))
      ensures env.processingOver ==> moduleName == old(moduleName)
      ensures !env.processingOver ==>
        (r == Ok(true) && written == old(written) && toWrite == old(toWrite) + RoundLines(env.requiresTypes))
      ensures !env.processingOver && old(moduleName).Some? ==> moduleName == old(moduleName)
      ensures !env.processingOver && old(moduleName).None? ==>
        moduleName == (if |env.moduleInfoTypes| > 0 then Some(env.moduleInfoTypes[0]) else None)
    {
      if env.processingOver {
        if moduleName.None? {
          return Err(Exception(IllegalState, NoModuleInfo));
        }
        WriteFile();
        return Ok(true);
      }
      if moduleName.None? && |env.moduleInfoTypes| > 0 {
        moduleName := Some(env.moduleInfoTypes[0]);
      }
      AddRound(env.requiresTypes);
      return Ok(true);
    }

    /** The lines of a normal round, type by type. */
    method AddRound(types: seq<seq<Requires>>)
      modifies this
      ensures toWrite == old(toWrite) + RoundLines(types)
      ensures moduleName == old(moduleName) && written == old(written)
    {
      var t := 0;
      while t < |types|
        invariant 0 <= t <= |types|
        invariant toWrite == old(toWrite) + RoundLines(types[..t])
        invariant moduleName == old(moduleName) && written == old(written)
      {
        AddRequires(types[t]);
        RoundLinesStep(types, t, old(toWrite), toWrite);
        t := t + 1;
      }
      assert types[..t] == types;
    }

    /** The lines of one annotated type: one group line per @Requires, in
        order. */
    method AddRequires(reqs: seq<Requires>)
      modifies this
      ensures toWrite == old(toWrite) + RequiresLines(reqs)
      ensures moduleName == old(moduleName) && written == old(written)
    {
      var k := 0;
      while k < |reqs|
        invariant 0 <= k <= |reqs|
        invariant toWrite == old(toWrite) + RequiresLines(reqs[..k])
        invariant moduleName == old(moduleName) && written == old(written)
      {
        var require := reqs[k];
        var depsStrList := DepStringsLoop(require.deps);
        assert reqs[..k + 1][..k] == reqs[..k];
        toWrite := toWrite + [GroupString(require.req, depsStrList)];
        k := k + 1;
      }
      assert reqs[..k] == reqs;
    }

    /** writeFile(): nothing when there is nothing to write; otherwise one
        file whose lines are the collected lines, in order, each prefixed
        with the module name and a comma. */
    method WriteFile()
      modifies this
      ensures moduleName == old(moduleName) && toWrite == old(toWrite)
      ensures |toWrite| == 0 ==> written == old(written)
      ensures |toWrite| > 0 ==> written == old(written) + [Prefixed(ModuleNameText(), toWrite)]
    {
      if |toWrite| == 0 {
        return;
      }
      var toWrite2: seq<string> := [];
      var i := 0;
      while i < |toWrite|
        invariant 0 <= i <= |toWrite|
        invariant toWrite2 == Prefixed(ModuleNameText(), toWrite[..i])
      {
        assert toWrite[..i + 1][..i] == toWrite[..i];
        toWrite2 := toWrite2 + [ModuleNameText() + "," + toWrite[i]];
        i := i + 1;
      }
      assert toWrite[..i] == toWrite;
      written := written + [toWrite2];
    }

    /** The module name as string concatenation renders it ("null" when
        unset). */
    function ModuleNameText(): string
      reads this
    {
      moduleName.GetOr("null")
    }
  }

  /** The dependency strings of one @Requires, built in a loop. */
  method DepStringsLoop(deps: seq<Dependency>) returns (depsStrList: seq<string>)
    ensures depsStrList == DepStrings(deps)
  {
    depsStrList := [];
    var j := 0;
    while j < |deps|
      invariant 0 <= j <= |deps|
      invariant depsStrList == DepStrings(deps[..j])
    {
      var d := deps[j];
      assert deps[..j + 1][..j] == deps[..j];
      depsStrList := depsStrList + [ProcessDependency(d.gId, d.aId, d.ver, d.classifier, d.cReq)];
      j := j + 1;
    }
    assert deps[..j] == deps;
  }

  /** Each line prefixed with name and a comma, order kept. */
  function Prefixed(name: string, lines: seq<string>): (out: seq<string>)
    ensures |out| == |lines|
    ensures forall i :: 0 <= i < |lines| ==> out[i] == name + "," + lines[i]
  {
    if |lines| == 0 then []
    else Prefixed(name, lines[..|lines| - 1]) + [name + "," + lines[|lines| - 1]]
  }

  // ---- Reading a dependency string back ----

  /** How the classifiers of a dependency string read. */
  datatype ClassifierSpec = NoClassifier | One(c: string) | AllOf(cs: seq<string>) | AnyOf(cs: seq<string>)

  /** The classifier part process(...) writes: null and empty arrays give
      none; one classifier stands alone whatever r is; several are grouped
      by r. */
  function ClassifiersOf(cl: Option<seq<string>>, r: Req): ClassifierSpec {
    if cl.None? || |cl.value| == 0 then NoClassifier
    else if |cl.value| == 1 then One(cl.value[0])
    else if r == ALL then AllOf(cl.value)
    else AnyOf(cl.value)
  }

  datatype Coordinates = Coordinates(g: string, a: string, v: string, classifiers: ClassifierSpec)

  function ParseClassifiers(x: string): ClassifierSpec {
    if |x| >= 2 && x[0] == '[' && x[|x| - 1] == ']' then AllOf(Split(x[1..|x| - 1], ','))
    else if |x| >= 2 && x[0] == '{' && x[|x| - 1] == '}' then AnyOf(Split(x[1..|x| - 1], ','))
    else One(x)
  }

  /** A reader for dependency strings: strip the quotes, split on ':'. */
  function ParseDependency(s: string): Option<Coordinates> {
    if |s| < 2 || s[0] != '"' || s[|s| - 1] != '"' then None
    else
      var parts := Split(s[1..|s| - 1], ':');
      if |parts| == 3 then Some(Coordinates(parts[0], parts[1], parts[2], NoClassifier))
      else if |parts| == 4 then Some(Coordinates(parts[0], parts[1], parts[2], ParseClassifiers(parts[3])))
      else None
  }

  /** A coordinate or classifier free of the characters the format uses. */
  predicate Plain(x: string) {
    forall i :: 0 <= i < |x| ==>
      (x[i] != ':' && x[i] != ',' && x[i] != '"' && x[i] != '[' && x[i] != ']' && x[i] != '{' && x[i] != '}')
  }

  lemma PlainFree(x: string)
    requires Plain(x)
    ensures Free(x, ':') && Free(x, ',')
  {
  }

  lemma {:induction false} JoinFree(xs: seq<string>, sep: char, c: char)
    requires c != sep
    requires forall i :: 0 <= i < |xs| ==> Free(xs[i], c)
    ensures Free(Join(xs, [sep]), c)
  {
    if |xs| > 1 {
      JoinFree(xs[1..], sep, c);
      var j := Join(xs[1..], [sep]);
      assert Join(xs, [sep]) == xs[0] + [sep] + j;
      forall i | 0 <= i < |xs[0] + [sep] + j| ensures (xs[0] + [sep] + j)[i] != c {
        if i < |xs[0]| {
          assert (xs[0] + [sep] + j)[i] == xs[0][i];
        } else if i == |xs[0]| {
        } else {
          assert (xs[0] + [sep] + j)[i] == j[i - |xs[0]| - 1];
        }
      }
    }
  }

  /** The bracketed classifier list reads back as the classifiers. */
  lemma BracketedRoundTrip(opening: char, closing: char, cs: seq<string>)
    requires |cs| >= 1
    requires forall i :: 0 <= i < |cs| ==> Plain(cs[i])
    ensures var x := [opening] + Join(cs, ",") + [closing];
      x[1..|x| - 1] == Join(cs, ",") && Split(x[1..|x| - 1], ',') == cs
  {
    var x := [opening] + Join(cs, ",") + [closing];
    assert x[1..|x| - 1] == Join(cs, ",");
    forall i | 0 <= i < |cs| ensures Free(cs[i], ',') {
      PlainFree(cs[i]);
    }
    SplitJoin(cs, ',');
  }

  /** Reading a quoted g:a:v. */
  lemma ParseThree(g: string, a: string, v: string)
    requires Free(g, ':') && Free(a, ':') && Free(v, ':')
    ensures ParseDependency("\"" + g + ":" + a + ":" + v + "\"") == Some(Coordinates(g, a, v, NoClassifier))
  {
    var body := g + ":" + a + ":" + v;
    var s := "\"" + body + "\"";
    assert s[1..|s| - 1] == body;
    assert body == Join([g, a, v], ":") by {
      assert [g, a, v][1..] == [a, v];
      assert [a, v][1..] == [v];
      assert Join([v], ":") == v;
      assert Join([a, v], ":") == a + ":" + v;
      assert Join([g, a, v], ":") == g + ":" + (a + ":" + v);
    }
    SplitJoin([g, a, v], ':');
    assert "\"" + g + ":" + a + ":" + v + "\"" == s;
  }

  /** Reading a quoted g:a:v:x, where x holds no ':'. */
  lemma ParseFour(g: string, a: string, v: string, x: string)
    requires Free(g, ':') && Free(a, ':') && Free(v, ':') && Free(x, ':')
    ensures ParseDependency("\"" + g + ":" + a + ":" + v + ":" + x + "\"")
      == Some(Coordinates(g, a, v, ParseClassifiers(x)))
  {
    var body := g + ":" + a + ":" + v + ":" + x;
    var s := "\"" + body + "\"";
    assert s[1..|s| - 1] == body;
    assert body == Join([g, a, v, x], ":") by {
      assert [g, a, v, x][1..] == [a, v, x];
      assert [a, v, x][1..] == [v, x];
      assert [v, x][1..] == [x];
      assert Join([x], ":") == x;
      assert Join([v, x], ":") == v + ":" + x;
      assert Join([a, v, x], ":") == a + ":" + (v + ":" + x);
      assert Join([g, a, v, x], ":") == g + ":" + (a + ":" + (v + ":" + x));
    }
    SplitJoin([g, a, v, x], ':');
    assert "\"" + g + ":" + a + ":" + v + ":" + x + "\"" == s;
  }

  /** A bracketed classifier list holds no ':' when its classifiers hold none. */
  lemma BracketedFree(opening: char, closing: char, cs: seq<string>)
    requires opening != ':' && closing != ':'
    requires forall i :: 0 <= i < |cs| ==> Plain(cs[i])
    ensures Free([opening] + Join(cs, ",") + [closing], ':')
  {
    forall i | 0 <= i < |cs| ensures Free(cs[i], ':') {
      PlainFree(cs[i]);
    }
    JoinFree(cs, ',', ':');
    var j := Join(cs, ",");
    var x := [opening] + j + [closing];
    forall i | 0 <= i < |x| ensures x[i] != ':' {
      if 0 < i < |x| - 1 {
        assert x[i] == j[i - 1];
      }
    }
  }

  /** The round trip for several classifiers, grouped by r. */
  lemma GroupedRoundTrip(g: string, a: string, v: string, cs: seq<string>, r: Req)
    requires Free(g, ':') && Free(a, ':') && Free(v, ':')
    requires |cs| > 1 && forall i :: 0 <= i < |cs| ==> Plain(cs[i])
    ensures ParseDependency(ProcessDependency(g, a, v, Some(cs), r)) == Some(Coordinates(g, a, v, ClassifiersOf(Some(cs), r)))
  {
    var opening := if r == ALL then '[' else '{';
    var closing := if r == ALL then ']' else '}';
    var x := [opening] + Join(cs, ",") + [closing];
    assert r == ALL ==> x == "[" + Join(cs, ",") + "]";
    assert r == ANY ==> x == "{" + Join(cs, ",") + "}";
    BracketedFree(opening, closing, cs);
    ParseFour(g, a, v, x);
    BracketedRoundTrip(opening, closing, cs);
    assert x[0] == opening && x[|x| - 1] == closing;
    assert ProcessDependency(g, a, v, Some(cs), r) == "\"" + g + ":" + a + ":" + v + ":" + x + "\"";
  }

  /** The round trip for a single classifier. */
  lemma SingleRoundTrip(g: string, a: string, v: string, c: string, r: Req)
    requires Free(g, ':') && Free(a, ':') && Free(v, ':') && Plain(c)
    ensures ParseDependency(ProcessDependency(g, a, v, Some([c]), r)) == Some(Coordinates(g, a, v, One(c)))
  {
    PlainFree(c);
    ParseFour(g, a, v, c);
    if |c| >= 2 {
      assert c[0] != '[' && c[0] != '{';
    }
    assert ParseClassifiers(c) == One(c);
    assert ProcessDependency(g, a, v, Some([c]), r) == "\"" + g + ":" + a + ":" + v + ":" + c + "\"";
  }

  /** Dependency strings are readable: for plain coordinates and
      classifiers, reading process(g, a, v, cl, r) gives back g, a, v and
      the classifiers as process grouped them. */
  lemma ProcessDependencyRoundTrip(g: string, a: string, v: string, cl: Option<seq<string>>, r: Req)
    requires Plain(g) && Plain(a) && Plain(v)
    requires cl.Some? ==> forall i :: 0 <= i < |cl.value| ==> Plain(cl.value[i])
    ensures ParseDependency(ProcessDependency(g, a, v, cl, r)) == Some(Coordinates(g, a, v, ClassifiersOf(cl, r)))
  {
    PlainFree(g);
    PlainFree(a);
    PlainFree(v);
    if cl.None? || |cl.value| == 0 {
      ParseThree(g, a, v);
      assert ProcessDependency(g, a, v, cl, r) == "\"" + g + ":" + a + ":" + v + "\"";
    } else if |cl.value| == 1 {
      assert cl.value == [cl.value[0]];
      SingleRoundTrip(g, a, v, cl.value[0], r);
    } else {
      GroupedRoundTrip(g, a, v, cl.value, r);
    }
  }
}
