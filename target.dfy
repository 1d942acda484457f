/** Deployment targets: operating system, CPU architecture and an optional
    compute device, with name parsing and the x86 compatibility order. */
module Target {
  import opened Results
  import opened Strings

  datatype OS = LINUX | WINDOWS | MACOSX | ANDROID

  function OSName(os: OS): string {
    match os
    case LINUX => "LINUX"
    case WINDOWS => "WINDOWS"
    case MACOSX => "MACOSX"
    case ANDROID => "ANDROID"
  }

  /** OS.valueOf(n): exact, case-sensitive match on the constant names. */
  function OSValueOf(n: string): (r: Result<OS>)
    ensures r.Ok? <==> exists os :: OSName(os) == n
    ensures r.Ok? ==> OSName(r.value) == n
    ensures r.Err? ==> r.error.kind == IllegalArgument
  {
    if n == "LINUX" then assert OSName(LINUX) == n; Ok(LINUX)
    else if n == "WINDOWS" then assert OSName(WINDOWS) == n; Ok(WINDOWS)
    else if n == "MACOSX" then assert OSName(MACOSX) == n; Ok(MACOSX)
    else if n == "ANDROID" then assert OSName(ANDROID) == n; Ok(ANDROID)
    else
      assert forall os :: OSName(os) != n;
      Err(Exception(IllegalArgument, "No enum constant ai.konduit.serving.build.config.Target.OS." + n))
  }

  /** OS.forName(s): "MAC" and "OSX" in any case name MACOSX; anything else
      must be a constant name once upper-cased. */
  function OSForName(s: string): (r: Result<OS>)
    ensures r.Ok? <==> EqualsIgnoreCase("MAC", s) || EqualsIgnoreCase("OSX", s)
                       || exists os :: OSName(os) == Upper(s)
    ensures r.Ok? && !EqualsIgnoreCase("MAC", s) && !EqualsIgnoreCase("OSX", s) ==>
      OSName(r.value) == Upper(s)
    ensures EqualsIgnoreCase("MAC", s) || EqualsIgnoreCase("OSX", s) ==> r == Ok(MACOSX)
  {
    if EqualsIgnoreCase("MAC", s) || EqualsIgnoreCase("OSX", s) then Ok(MACOSX)
    else OSValueOf(Upper(s))
  }

  datatype Arch = x86 | x86_avx2 | x86_avx512 | armhf | arm64 | ppc64le

  function ArchName(a: Arch): string {
    match a
    case x86 => "x86"
    case x86_avx2 => "x86_avx2"
    case x86_avx512 => "x86_avx512"
    case armhf => "armhf"
    case arm64 => "arm64"
    case ppc64le => "ppc64le"
  }

  /** The lower-case spellings Arch.forName accepts for each architecture. */
  function Aliases(a: Arch): set<string> {
    match a
    case x86 => {"x86", "x86_64"}
    case x86_avx2 => {"x86_avx2", "x86-avx2", "x86_64-avx2"}
    case x86_avx512 => {"x86_avx512", "x86-avx512", "x86_64-avx512"}
    case armhf => {"armhf"}
    case arm64 => {"arm64"}
    case ppc64le => {"ppc64le"}
  }

  /** Arch.forName(s): a switch on the lower-cased name; null (None) for an
      unknown name. */
  function ArchForName(s: string): (r: Option<Arch>)
    ensures r.Some? ==> Lower(s) in Aliases(r.value)
    ensures r.None? ==> forall a :: Lower(s) !in Aliases(a)
  {
    match Lower(s)
    case "x86" => Some(x86)
    case "x86_64" => Some(x86)
    case "x86_avx2" => Some(x86_avx2)
    case "x86-avx2" => Some(x86_avx2)
    case "x86_64-avx2" => Some(x86_avx2)
    case "x86_avx512" => Some(x86_avx512)
    case "x86-avx512" => Some(x86_avx512)
    case "x86_64-avx512" => Some(x86_avx512)
    case "arm64" => Some(arm64)
    case "armhf" => Some(armhf)
    case "ppc64le" => Some(ppc64le)
    case _ => None
  }

  /** compatibleWith(): the architectures code built for a can run on,
      a itself first. */
  function CompatibleWith(a: Arch): (r: seq<Arch>)
    ensures |r| > 0 && r[0] == a
    ensures forall i, j :: 0 <= i < j < |r| ==> r[i] != r[j]
  {
    match a
    case x86 => [x86, x86_avx2, x86_avx512]
    case x86_avx2 => [x86_avx2, x86_avx512]
    case _ => [a]
  }

  /** isCompatibleWith(other): the same architecture, or a later member of
      the x86 family; it agrees with the list compatibleWith() returns. */
  function IsCompatibleWith(a: Arch, other: Arch): (r: bool)
    ensures r <==> other in CompatibleWith(a)
  {
    a == other || (a == x86 && (other == x86_avx2 || other == x86_avx512))
    || (a == x86_avx2 && other == x86_avx512)
  }

  lemma CompatibleReflexive(a: Arch)
    ensures IsCompatibleWith(a, a)
  {
  }

  lemma CompatibleTransitive(a: Arch, b: Arch, c: Arch)
    requires IsCompatibleWith(a, b) && IsCompatibleWith(b, c)
    ensures IsCompatibleWith(a, c)
  {
  }

  lemma CompatibleAntisymmetric(a: Arch, b: Arch)
    requires a != b && IsCompatibleWith(a, b)
    ensures !IsCompatibleWith(b, a)
  {
  }

  /** lowerThan(other): checkState on compatibility, then the ordering of
      the x86 family. */
  function LowerThan(a: Arch, other: Arch): (r: Result<bool>)
    ensures r.Ok? <==> IsCompatibleWith(a, other)
    ensures r.Err? ==> r.error.kind == IllegalState
    ensures r == Ok(true) <==> IsCompatibleWith(a, other) && a != other
  {
    if !IsCompatibleWith(a, other) then
      Err(Exception(IllegalState, "Unable to compare non-compatible archs: " + ArchName(a) + " and " + ArchName(other)))
    else if a == other then Ok(false)
    else if a == x86 && other != x86 then Ok(true)
    else if a == x86_avx2 && other == x86_avx512 then Ok(true)
    else Ok(false)
  }

  /** lowerThan is a strict order on the x86 family: irreflexive, transitive,
      with x86 < x86_avx2 < x86_avx512. */
  lemma LowerThanStrictOrder(a: Arch, b: Arch, c: Arch)
    ensures LowerThan(a, a) == Ok(false)
    ensures LowerThan(a, b) == Ok(true) && LowerThan(b, c) == Ok(true) ==> LowerThan(a, c) == Ok(true)
    ensures LowerThan(x86, x86_avx2) == Ok(true) && LowerThan(x86_avx2, x86_avx512) == Ok(true)
    ensures LowerThan(a, b) == Ok(true) ==> LowerThan(b, a).Err?
  {
  }

  /** A compute device, represented by its toString() text. */
  datatype ComputeDevice = ComputeDevice(text: string)

  datatype Target = Target(os: OS, arch: Arch, device: Option<ComputeDevice>) {
    /** toString(): "Target(os,arch)" for a CPU target, "Target(os,arch,device)"
        otherwise. */
    function ToString(): (s: string)
      ensures device.None? ==> s == "Target(" + OSName(os) + "," + ArchName(arch) + ")"
      ensures device.Some? ==> s == "Target(" + OSName(os) + "," + ArchName(arch) + "," + device.value.text + ")"
    {
      "Target(" + OSName(os) + "," + ArchName(arch) + DeviceSuffix(device)
    }
  }

  /** No character of s closes a field of Target.toString(). */
  predicate FieldText(s: string) {
    forall i :: 0 <= i < |s| ==> s[i] != ',' && s[i] != ')'
  }

  /** A field text cannot run past the delimiter that ends another
      reading of the same string. */
  lemma {:induction false} FieldNotLonger(a: string, y: string, c: string, z: string)
    requires a + y == c + z && FieldText(c)
    requires |y| > 0 && (y[0] == ',' || y[0] == ')')
    ensures |c| <= |a|
  {
    assert (a + y)[|a|] == y[0];
  }

  /** Two field texts, each followed by a delimiter, split a string at the
      same place. */
  lemma {:induction false} SameField(a: string, y: string, c: string, z: string)
    requires a + y == c + z && FieldText(a) && FieldText(c)
    requires |y| > 0 && (y[0] == ',' || y[0] == ')')
    requires |z| > 0 && (z[0] == ',' || z[0] == ')')
    ensures a == c && y == z
  {
    FieldNotLonger(a, y, c, z);
    FieldNotLonger(c, z, a, y);
    assert a == (a + y)[..|a|] && c == (c + z)[..|c|];
    assert y == (a + y)[|a|..] && z == (c + z)[|c|..];
  }

  /** The text toString() writes after the architecture. */
  function DeviceSuffix(d: Option<ComputeDevice>): string {
    (if d.None? then "" else "," + d.value.text) + ")"
  }

  /** The suffix after the architecture determines the device. */
  lemma DeviceSuffixInjective(d: Option<ComputeDevice>, e: Option<ComputeDevice>)
    requires DeviceSuffix(d) == DeviceSuffix(e)
    ensures d == e
  {
    var s := DeviceSuffix(d);
    if d.Some? && e.Some? {
      assert d.value.text == s[1..|s| - 1] == e.value.text;
    }
  }

  /** Constant names are field texts and name one constant each. */
  lemma NamesAreFields(os: OS, os': OS, a: Arch, a': Arch)
    ensures FieldText(OSName(os)) && FieldText(ArchName(a))
    ensures OSName(os) == OSName(os') ==> os == os'
    ensures ArchName(a) == ArchName(a') ==> a == a'
  {
  }

  /** A "Target(o,a" prefix with field texts o and a followed by a suffix
      that starts with a delimiter splits back into o, a and the suffix. */
  lemma {:induction false} FieldsSplit(o1: string, a1: string, t1: string, o2: string, a2: string, t2: string)
    requires FieldText(o1) && FieldText(a1) && FieldText(o2) && FieldText(a2)
    requires |t1| > 0 && (t1[0] == ',' || t1[0] == ')')
    requires |t2| > 0 && (t2[0] == ',' || t2[0] == ')')
    requires "Target(" + o1 + "," + a1 + t1 == "Target(" + o2 + "," + a2 + t2
    ensures o1 == o2 && a1 == a2 && t1 == t2
  {
    var s1 := "Target(" + o1 + "," + a1 + t1;
    var s2 := "Target(" + o2 + "," + a2 + t2;
    assert s1[7..] == o1 + ("," + (a1 + t1));
    assert s2[7..] == o2 + ("," + (a2 + t2));
    SameField(o1, "," + (a1 + t1), o2, "," + (a2 + t2));
    assert ("," + (a1 + t1))[1..] == a1 + t1;
    assert ("," + (a2 + t2))[1..] == a2 + t2;
    SameField(a1, t1, a2, t2);
  }

  /** toString() tells targets apart: the operating system is the text up to
      the first comma, the architecture the text up to the next comma or the
      closing parenthesis, and the device the rest. */
  lemma {:induction false} ToStringInjective(t: Target, u: Target)
    requires t.ToString() == u.ToString()
    ensures t == u
  {
    NamesAreFields(t.os, u.os, t.arch, u.arch);
    NamesAreFields(u.os, t.os, u.arch, t.arch);
    FieldsSplit(OSName(t.os), ArchName(t.arch), DeviceSuffix(t.device),
                OSName(u.os), ArchName(u.arch), DeviceSuffix(u.device));
    DeviceSuffixInjective(t.device, u.device);
  }

  // ---- Name parsing round trips ----

  lemma {:induction false} UpperIdempotent(s: string)
    ensures Upper(Upper(s)) == Upper(s)
  {
    var u := Upper(s);
    assert forall i :: 0 <= i < |s| ==> UpperChar(UpperChar(s[i])) == UpperChar(s[i]);
    assert forall i :: 0 <= i < |u| ==> Upper(u)[i] == u[i];
  }

  lemma {:induction false} LowerOfUpper(s: string)
    ensures Lower(Upper(s)) == Lower(s)
  {
    assert forall i :: 0 <= i < |s| ==> LowerChar(UpperChar(s[i])) == LowerChar(s[i]);
  }

  /** OS.forName ignores case. */
  lemma OSForNameIgnoresCase(s: string)
    ensures OSForName(Upper(s)) == OSForName(s)
  {
    UpperIdempotent(s);
  }

  /** Arch.forName ignores case. */
  lemma ArchForNameIgnoresCase(s: string)
    ensures ArchForName(Upper(s)) == ArchForName(s)
  {
    LowerOfUpper(s);
  }

  /** Every constant name parses back to its constant. */
  lemma OSForNameRoundTrip(os: OS)
    ensures OSForName(OSName(os)) == Ok(os)
  {
    match os
    case MACOSX => UpperFixed("MACOSX");
    case LINUX => OSParsesBack("LINUX", LINUX);
    case WINDOWS => OSParsesBack("WINDOWS", WINDOWS);
    case ANDROID => OSParsesBack("ANDROID", ANDROID);
  }

  /** A constant name that is not three letters long matches neither
      alias of MACOSX, so it parses as itself. */
  lemma OSParsesBack(n: string, os: OS)
    requires n == OSName(os) && |n| != 3
    ensures OSForName(n) == Ok(os)
  {
    UpperFixed(n);
    assert |Upper(n)| != |Upper("MAC")| && |Upper(n)| != |Upper("OSX")|;
  }

  /** Upper-casing leaves a string without lower-case letters unchanged. */
  lemma UpperFixed(n: string)
    requires forall i :: 0 <= i < |n| ==> !('a' <= n[i] <= 'z')
    ensures Upper(n) == n
  {
  }

  /** Lower-casing leaves a string without upper-case letters unchanged. */
  lemma LowerFixed(n: string)
    requires forall i :: 0 <= i < |n| ==> !('A' <= n[i] <= 'Z')
    ensures Lower(n) == n
  {
  }

  /** The aliases of distinct architectures are disjoint, so each accepted
      name denotes one architecture. */
  lemma AliasesDisjoint(a: Arch, b: Arch, s: string)
    requires s in Aliases(a) && s in Aliases(b)
    ensures a == b
  {
  }
}
