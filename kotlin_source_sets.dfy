/**
 * Task and configuration names of Kotlin source sets in the Gradle plugin
 * (libraries/tools/kotlin-gradle-plugin/.../sources/KotlinSourceSets.kt): the
 * `composeName` rule and the `KotlinOnlySourceSet` names built on it.
 */
module KotlinSourceSets {
  import opened Wrappers

  /** Upper-case for an ASCII letter; every other character is unchanged. */
  function ToUpper(c: char): (u: char)
    ensures 'a' <= c <= 'z' ==> 'A' <= u <= 'Z' && u as int == c as int - 32
    ensures !('a' <= c <= 'z') ==> u == c
  {
    if 'a' <= c <= 'z' then (c as int - 32) as char else c
  }

  predicate StartsUpper(s: string) {
    |s| > 0 && 'A' <= s[0] <= 'Z'
  }

  /** Kotlin's `capitalize`: the first character upper-cased, the empty string unchanged. */
  function Capitalize(s: string): (r: string)
    ensures |r| == |s|
    ensures |s| > 0 ==> r[0] == ToUpper(s[0]) && r[1..] == s[1..]
  {
    if s == "" then "" else [ToUpper(s[0])] + s[1..]
  }

  /** Kotlin's `isNullOrEmpty` on a `String?`. */
  predicate IsNullOrEmpty(s: Option<string>) {
    s.None? || s.value == ""
  }

  /**
   * `composeName(prefix, suffix)` for the source set `name`: `main` contributes nothing,
   * the set's name is capitalised only after a non-empty prefix, and the suffix is
   * capitalised only when something precedes it.
   */
  function ComposeName(name: string, prefix: Option<string> := None, suffix: Option<string> := None): (r: string)
    ensures |r| >= |prefix.GetOr("")| && r[..|prefix.GetOr("")|] == prefix.GetOr("")
    ensures |r| == |prefix.GetOr("")| + (if name == "main" then 0 else |name|) + |suffix.GetOr("")|
  {
    var sourceSetName := (var it := if name == "main" then "" else name;
                          if IsNullOrEmpty(prefix) then it else Capitalize(it));
    var resultPrefix := prefix.GetOr("") + sourceSetName;
    var resultSuffix := (if resultPrefix == "" then suffix
                         else if suffix.Some? then Some(Capitalize(suffix.value)) else None).GetOr("");
    resultPrefix + resultSuffix
  }

  /** The platform extension's inputs; `disambiguateName` is defined elsewhere and left opaque. */
  datatype KotlinPlatformExtension = KotlinPlatformExtension(
    platformName: string,
    classesTaskName: string,
    processResourcesTaskName: string,
    platformDisambiguationClassifier: Option<string>,
    disambiguateName: string -> string)

  datatype KotlinOnlySourceSet = KotlinOnlySourceSet(name: string, kotlinPlatformExtension: KotlinPlatformExtension)

  /** The configurations a source set declares, each named from a fixed suffix. */
  datatype Configuration =
    | Compile | Runtime | CompileOnly | RuntimeOnly | Implementation | CompileClasspath | RuntimeClasspath

  function ConfigurationSuffix(c: Configuration): (r: string)
    ensures r != "" && 'a' <= r[0] <= 'z'
  {
    match c
    case Compile => "compile"
    case Runtime => "runtime"
    case CompileOnly => "compileOnly"
    case RuntimeOnly => "runtimeOnly"
    case Implementation => "implementation"
    case CompileClasspath => "compileClasspath"
    case RuntimeClasspath => "runtimeClasspath"
  }

  /** The configuration a suffix names, if any: the inverse of `ConfigurationSuffix`. */
  function ConfigurationOf(suffix: string): Option<Configuration> {
    if suffix == "compile" then Some(Compile)
    else if suffix == "runtime" then Some(Runtime)
    else if suffix == "compileOnly" then Some(CompileOnly)
    else if suffix == "runtimeOnly" then Some(RuntimeOnly)
    else if suffix == "implementation" then Some(Implementation)
    else if suffix == "compileClasspath" then Some(CompileClasspath)
    else if suffix == "runtimeClasspath" then Some(RuntimeClasspath)
    else None
  }

  /** `toString`: `source set '<name>'`, then ` (<classifier>)` when the platform has a classifier. */
  function ToString(s: KotlinOnlySourceSet): (r: string)
    ensures var head := "source set '" + s.name + "'"; |head| <= |r| && r[..|head|] == head
  {
    "source set '" + s.name + "'"
      + (match s.kotlinPlatformExtension.platformDisambiguationClassifier
         case Some(c) => " (" + c + ")"
         case None => "")
  }

  function ClassesTaskName(s: KotlinOnlySourceSet): (r: string)
    ensures var t := s.kotlinPlatformExtension.classesTaskName; |t| <= |r| && r[..|t|] == t
  {
    ComposeName(s.name, Some(s.kotlinPlatformExtension.classesTaskName))
  }

  function JarTaskName(s: KotlinOnlySourceSet): (r: string)
    ensures r == "jar" || (|r| > 3 && r[|r| - 3..] == "Jar")
  {
    ComposeName(s.name, suffix := Some("jar"))
  }

  function ProcessResourcesTaskName(s: KotlinOnlySourceSet): (r: string)
    ensures var t := s.kotlinPlatformExtension.processResourcesTaskName; |t| <= |r| && r[..|t|] == t
  {
    ComposeName(s.name, Some(s.kotlinPlatformExtension.processResourcesTaskName))
  }

  function CompileKotlinTaskName(s: KotlinOnlySourceSet): (r: string)
    ensures |r| >= 7 && r[..7] == "compile"
  {
    ComposeName(s.name, Some("compile"), Some(s.kotlinPlatformExtension.platformName))
  }

  /** The `...ConfigurationName` properties: the composed name, passed through `disambiguateName`. */
  function ConfigurationName(s: KotlinOnlySourceSet, c: Configuration): string {
    s.kotlinPlatformExtension.disambiguateName(ComposeName(s.name, suffix := Some(ConfigurationSuffix(c))))
  }

  // ---------------------------------------------------------------------------
  // Properties of the naming rule

  /** `capitalize` loses nothing on names that do not already start with a capital letter. */
  lemma CapitalizeInjective(s: string, t: string)
    requires !StartsUpper(s) && !StartsUpper(t)
    requires s != t
    ensures Capitalize(s) != Capitalize(t)
  {
    if |s| == |t| && s != "" {
      var k :| 0 <= k < |s| && s[k] != t[k];
      if k == 0 {
        assert Capitalize(s)[0] != Capitalize(t)[0];
      } else {
        assert Capitalize(s)[1..][k - 1] != Capitalize(t)[1..][k - 1];
      }
    }
  }

  /** Every configuration suffix is recognised as its own configuration. */
  lemma ConfigurationSuffixRoundTrip(c: Configuration)
    ensures ConfigurationOf(ConfigurationSuffix(c)) == Some(c)
  {
  }

  /** A source set named `main` composes exactly like one with an empty name. */
  lemma MainContributesNothing(prefix: Option<string>, suffix: Option<string>)
    ensures ComposeName("main", prefix, suffix) == ComposeName("", prefix, suffix)
  {
  }

  /**
   * The composed name starts with the prefix (or nothing); a set name other than `main`
   * follows it verbatim when the prefix is null or empty and capitalised otherwise. For a
   * non-empty, lower-case-first name the verbatim form appears exactly when the prefix is
   * null or empty.
   */
  lemma ComposeNameSetPart(name: string, prefix: Option<string>, suffix: Option<string>)
    ensures var r := ComposeName(name, prefix, suffix);
            var p := prefix.GetOr("");
            name != "main" ==>
              |p| + |name| <= |r| && r[..|p|] == p &&
              r[|p|..|p| + |name|] == (if IsNullOrEmpty(prefix) then name else Capitalize(name))
    ensures var r := ComposeName(name, prefix, suffix);
            var p := prefix.GetOr("");
            name != "main" && name != "" && 'a' <= name[0] <= 'z' ==>
              (r[|p|..|p| + |name|] == name <==> IsNullOrEmpty(prefix))
  {
    var r, p := ComposeName(name, prefix, suffix), prefix.GetOr("");
    if name != "main" && name != "" {
      assert r[|p|..|p| + |name|][0] == r[|p|];
    }
  }

  /**
   * A null suffix adds nothing; a suffix is appended after the name composed without it,
   * verbatim when nothing precedes it and capitalised otherwise. For a lower-case-first
   * suffix the verbatim form appears exactly when nothing precedes it.
   */
  lemma ComposeNameSuffixPart(name: string, prefix: Option<string>, x: string)
    ensures var front := ComposeName(name, prefix, None);
            var r := ComposeName(name, prefix, Some(x));
            |r| == |front| + |x| && r[..|front|] == front &&
            r[|front|..] == (if front == "" then x else Capitalize(x))
    ensures var front := ComposeName(name, prefix, None);
            var r := ComposeName(name, prefix, Some(x));
            x != "" && 'a' <= x[0] <= 'z' ==> (r[|front|..] == x <==> front == "")
  {
    var front, r := ComposeName(name, prefix, None), ComposeName(name, prefix, Some(x));
    if x != "" {
      assert r[|front|..][0] == r[|front|];
    }
  }

  /** Without prefix and suffix the name is the set's own name, or nothing for `main`. */
  lemma ComposeNameBare(name: string)
    ensures ComposeName(name) == if name == "main" then "" else name
  {
  }

  /**
   * Different source sets get different names for the same prefix and suffix, provided
   * neither name is empty or starts with a capital letter.
   */
  lemma {:induction false} ComposeNameInjective(n1: string, n2: string, prefix: Option<string>, suffix: Option<string>)
    requires n1 != n2 && n1 != "" && n2 != ""
    requires !StartsUpper(n1) && !StartsUpper(n2)
    ensures ComposeName(n1, prefix, suffix) != ComposeName(n2, prefix, suffix)
  {
    var p := prefix.GetOr("");
    var s1 := if n1 == "main" then "" else n1;
    var s2 := if n2 == "main" then "" else n2;
    var own1 := if IsNullOrEmpty(prefix) then s1 else Capitalize(s1);
    var own2 := if IsNullOrEmpty(prefix) then s2 else Capitalize(s2);
    var x := suffix.GetOr("");
    var tail1 := if suffix.None? then "" else if p + own1 == "" then x else Capitalize(x);
    var tail2 := if suffix.None? then "" else if p + own2 == "" then x else Capitalize(x);
    var r1, r2 := ComposeName(n1, prefix, suffix), ComposeName(n2, prefix, suffix);
    assert r1 == p + own1 + tail1;
    assert r2 == p + own2 + tail2;
    if s1 == "" || s2 == "" {
      // one of them is `main`: the other is longer by its own, non-empty part
      assert |r1| != |r2|;
    } else {
      assert tail1 == tail2;
      if !IsNullOrEmpty(prefix) {
        CapitalizeInjective(s1, s2);
      }
      assert own1 != own2;
      if |own1| == |own2| {
        assert r1[|p|..|p| + |own1|] == own1;
        assert r2[|p|..|p| + |own2|] == own2;
      }
    }
  }

  /**
   * `jarTaskName` is `jar` for `main` and `<name>Jar` for any other non-empty name; the
   * name itself is not capitalised, as there is no prefix.
   */
  lemma JarTaskNames(s: KotlinOnlySourceSet)
    ensures s.name == "main" || s.name == "" ==> JarTaskName(s) == "jar"
    ensures s.name != "main" && s.name != "" ==> JarTaskName(s) == s.name + "Jar"
  {
  }

  /**
   * The classes and process-resources tasks are the platform's task name, followed by
   * the capitalised set name except for `main`.
   */
  lemma PrefixedTaskNames(s: KotlinOnlySourceSet)
    requires s.kotlinPlatformExtension.classesTaskName != ""
    requires s.kotlinPlatformExtension.processResourcesTaskName != ""
    ensures var own := if s.name == "main" then "" else Capitalize(s.name);
            ClassesTaskName(s) == s.kotlinPlatformExtension.classesTaskName + own &&
            ProcessResourcesTaskName(s) == s.kotlinPlatformExtension.processResourcesTaskName + own
  {
  }

  /**
   * A configuration name is the disambiguated form of its suffix for `main`, and of
   * `<name><Suffix>` for any other non-empty name.
   */
  lemma ConfigurationNames(s: KotlinOnlySourceSet, c: Configuration)
    ensures s.name == "main" || s.name == "" ==>
              ConfigurationName(s, c) == s.kotlinPlatformExtension.disambiguateName(ConfigurationSuffix(c))
    ensures s.name != "main" && s.name != "" ==>
              ConfigurationName(s, c)
              == s.kotlinPlatformExtension.disambiguateName(s.name + Capitalize(ConfigurationSuffix(c)))
  {
    ComposeNameSuffixOnly(s.name, ConfigurationSuffix(c));
  }

  /** With a suffix and no prefix: the suffix alone for `main`, else the name and the capitalised suffix. */
  lemma ComposeNameSuffixOnly(name: string, x: string)
    ensures ComposeName(name, suffix := Some(x))
         == if name == "main" || name == "" then x else name + Capitalize(x)
  {
  }

  /** `compileKotlinTaskName` starts with `compile`; for `main` the platform name follows it directly. */
  lemma CompileKotlinTaskNames(s: KotlinOnlySourceSet)
    ensures var r := CompileKotlinTaskName(s);
            |r| >= 7 && r[..7] == "compile"
    ensures s.name == "main" ==>
              CompileKotlinTaskName(s) == "compile" + Capitalize(s.kotlinPlatformExtension.platformName)
    ensures s.name != "main" ==>
              CompileKotlinTaskName(s) == "compile" + Capitalize(s.name) + Capitalize(s.kotlinPlatformExtension.platformName)
  {
  }

  /** Two source sets of one platform never share a Kotlin compile task. */
  lemma CompileKotlinTaskNamesDistinct(s1: KotlinOnlySourceSet, s2: KotlinOnlySourceSet)
    requires s1.kotlinPlatformExtension == s2.kotlinPlatformExtension
    requires s1.name != s2.name && s1.name != "" && s2.name != ""
    requires !StartsUpper(s1.name) && !StartsUpper(s2.name)
    ensures CompileKotlinTaskName(s1) != CompileKotlinTaskName(s2)
  {
    ComposeNameInjective(s1.name, s2.name, Some("compile"), Some(s1.kotlinPlatformExtension.platformName));
  }

  /**
   * For one source set and one prefix, different suffixes give different names, provided
   * neither starts with a capital letter.
   */
  lemma {:induction false} ComposeNameSuffixInjective(name: string, prefix: Option<string>, x1: string, x2: string)
    requires x1 != x2 && !StartsUpper(x1) && !StartsUpper(x2)
    ensures ComposeName(name, prefix, Some(x1)) != ComposeName(name, prefix, Some(x2))
  {
    var front := ComposeName(name, prefix, None);
    var r1, r2 := ComposeName(name, prefix, Some(x1)), ComposeName(name, prefix, Some(x2));
    ComposeNameSuffixPart(name, prefix, x1);
    ComposeNameSuffixPart(name, prefix, x2);
    if front != "" {
      CapitalizeInjective(x1, x2);
    }
    assert r1[|front|..] != r2[|front|..];
  }

  /**
   * Before disambiguation, a source set's configurations all get different names:
   * the suffix tells them apart.
   */
  lemma {:induction false} ConfigurationNamesDistinct(name: string, c1: Configuration, c2: Configuration)
    requires c1 != c2
    ensures ComposeName(name, suffix := Some(ConfigurationSuffix(c1)))
         != ComposeName(name, suffix := Some(ConfigurationSuffix(c2)))
  {
    ConfigurationSuffixRoundTrip(c1);
    ConfigurationSuffixRoundTrip(c2);
    ComposeNameSuffixInjective(name, None, ConfigurationSuffix(c1), ConfigurationSuffix(c2));
  }

  /**
   * `toString` quotes the set's name and ends in `)` exactly when the platform has a
   * disambiguation classifier, which is then given in parentheses.
   */
  lemma ToStringShape(s: KotlinOnlySourceSet, c: string)
    ensures var r := ToString(s);
            var head := "source set '" + s.name + "'";
            |head| <= |r| && r[..|head|] == head &&
            (r[|r| - 1] == ')' <==> s.kotlinPlatformExtension.platformDisambiguationClassifier.Some?)
    ensures s.kotlinPlatformExtension.platformDisambiguationClassifier.None? ==>
              ToString(s) == "source set '" + s.name + "'"
    ensures s.kotlinPlatformExtension.platformDisambiguationClassifier == Some(c) ==>
              ToString(s) == "source set '" + s.name + "'" + " (" + c + ")"
  {
    var head := "source set '" + s.name + "'";
    assert ToString(s)[..|head|] == head;
  }
}
