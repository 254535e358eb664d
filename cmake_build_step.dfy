/** The target bookkeeping and command line of the CMake build step
    (CMakeBuildStep in cmakebuildstep.cpp). The kit's CMake tool, the active
    run configuration, the build configuration and the targets the build
    system knows are given to the operations that consult them. */
module CMakeBuild {
  import opened Wrappers
  import opened TextFacts

  // ---------------------------------------------------------------- names

  const KeyPrefix := "CMakeProjectManager.MakeStep."
  const BuildTargetsKey := KeyPrefix + "BuildTargets"
  const CMakeArgumentsKey := KeyPrefix + "CMakeArguments"
  const ToolArgumentsKey := KeyPrefix + "AdditionalArguments"
  const AddRunConfigurationArgumentKey := KeyPrefix + "AddRunConfigurationArgument"

  /** The pseudo-target standing for the active run configuration's target. */
  const CurrentExecutable := "Current executable"

  const AllTarget := "all"
  const CleanTarget := "clean"
  const InstallTarget := "install"
  const TestTarget := "test"

  /** Separates the project file from the target name in a build key. */
  const BuildKeySeparator := "///::///"

  /** The kind of step list a step belongs to. */
  datatype StepListId = BuildSteps | CleanSteps | DeploySteps | OtherSteps(id: string)

  /** specialTargets. */
  function SpecialTargets(): (ts: seq<string>)
    ensures |ts| == 4
    ensures forall i, j :: 0 <= i < j < |ts| ==> ts[i] != ts[j]
  {
    [AllTarget, CleanTarget, InstallTarget, TestTarget]
  }

  /** defaultBuildTarget: "clean" in the clean list, "install" in the
      deploy list, "all" elsewhere; the empty string when the step is in no
      list (the assertion's fallback). */
  function DefaultBuildTarget(stepList: Option<StepListId>): string {
    match stepList
    case None => ""
    case Some(CleanSteps) => CleanTarget
    case Some(DeploySteps) => InstallTarget
    case Some(_) => AllTarget
  }

  /** The default target is one of the special targets, never "test", and
      each of "clean" and "install" is the default of exactly one list. */
  lemma DefaultBuildTargetIsSpecial(stepList: Option<StepListId>)
    ensures stepList.Some? <==> DefaultBuildTarget(stepList) in SpecialTargets()
    ensures DefaultBuildTarget(stepList) != TestTarget
    ensures DefaultBuildTarget(stepList) == CleanTarget <==> stepList == Some(CleanSteps)
    ensures DefaultBuildTarget(stepList) == InstallTarget <==> stepList == Some(DeploySteps)
  {
  }

  // ---------------------------------------------------------------- the build key

  /** QString::indexOf: the first position at which `p` occurs in `s`, or -1. */
  function IndexOf(s: string, p: string): int
    decreases |s|
  {
    if |s| < |p| then -1
    else if p <= s then 0
    else
      var r := IndexOf(s[1..], p);
      if r == -1 then -1 else r + 1
  }

  /** IndexOf finds an occurrence exactly when there is one, and then the
      first. */
  lemma {:induction false} IndexOfSpec(s: string, p: string)
    ensures var r := IndexOf(s, p);
      && (r == -1 || 0 <= r <= |s| - |p|)
      && (r >= 0 <==> Contains(s, p))
      && (r >= 0 ==> p <= s[r..] && forall k :: 0 <= k < r ==> !(p <= s[k..]))
    decreases |s|
  {
    if |s| < |p| {
    } else if p <= s {
      assert p <= s[0..];
    } else {
      IndexOfSpec(s[1..], p);
      ContainsInTail(s, p);
      var r := IndexOf(s[1..], p);
      if r >= 0 {
        assert s[1..][r..] == s[r + 1..];
        forall k | 0 < k < r + 1
          ensures !(p <= s[k..])
        {
          assert s[1..][k - 1..] == s[k..];
        }
      }
    }
  }

  /** The target part of a run configuration's build key: what follows the
      first separator, or the whole key when there is none. */
  function BuildKeyTarget(key: string): string {
    var pos := IndexOf(key, BuildKeySeparator);
    IndexOfSpec(key, BuildKeySeparator);
    if pos >= 0 then key[pos + 8..] else key
  }

  /** A key without the separator is its own target. */
  lemma BuildKeyWithoutSeparator(key: string)
    requires !Contains(key, BuildKeySeparator)
    ensures BuildKeyTarget(key) == key
  {
    IndexOfSpec(key, BuildKeySeparator);
  }

  /** For a key "<file>///::///<target>" whose file part holds no separator
      and does not end in '/' or ':' (a project file path does neither), the
      target is everything after the separator, even when the target holds
      the separator again. */
  lemma BuildKeySplit(file: string, target: string)
    requires !Contains(file, BuildKeySeparator)
    requires file == [] || (file[|file| - 1] != '/' && file[|file| - 1] != ':')
    ensures BuildKeyTarget(file + BuildKeySeparator + target) == target
  {
    var key := file + BuildKeySeparator + target;
    assert BuildKeySeparator <= key[|file|..];
    forall k | 0 <= k < |file|
      ensures !(BuildKeySeparator <= key[k..])
    {
      if k + |BuildKeySeparator| <= |file| {
        assert !(BuildKeySeparator <= file[k..]);
        assert key[k..k + |BuildKeySeparator|] == file[k..k + |BuildKeySeparator|];
      } else {
        // A match starting inside the file part would cover its last character.
        var j := |file| - 1 - k;
        assert key[k..][j] == file[|file| - 1];
        assert BuildKeySeparator[j] == '/' || BuildKeySeparator[j] == ':';
      }
    }
    IndexOfSpec(key, BuildKeySeparator);
    assert IndexOf(key, BuildKeySeparator) == |file|;
    assert key[|file| + 8..] == target;
  }

  /** A build key as the CMake project writes it: the project file's path,
      the separator and the target. */
  lemma PathBuildKey()
    ensures BuildKeyTarget("/p/CMakeLists.txt///::///app") == "app"
  {
    var file := "/p/CMakeLists.txt";
    assert "/p/CMakeLists.txt///::///app" == file + BuildKeySeparator + "app";
    assert Lacks(file, ':');
    LacksExcludesContains(file, BuildKeySeparator, 3, ':');
    BuildKeySplit(file, "app");
  }

  /** The target always ends the key. */
  lemma BuildKeyTargetIsSuffix(key: string)
    ensures EndsWith(key, BuildKeyTarget(key))
  {
    IndexOfSpec(key, BuildKeySeparator);
  }

  // ---------------------------------------------------------------- the command line

  /** Utils::CommandLine arguments: quoted single arguments, or a string
      passed on unparsed (CommandLine::Raw). */
  datatype CommandArg = Arg(text: string) | RawArgs(text: string)

  datatype CommandLine = CommandLine(executable: string, arguments: seq<CommandArg>)

  /** The kit's CMake tool as the step sees it. */
  datatype CMakeTool = CMakeTool(cmakeExecutable: string, isValid: bool)

  /** What one entry of the target list becomes on the command line. `rc`
      is the active run configuration's build key, None without one. */
  function TargetArgument(target: string, rc: Option<string>): string {
    if target != CurrentExecutable then target
    else if rc.Some? then BuildKeyTarget(rc.value)
    else "<i>&lt;" + CurrentExecutable + "&gt;</i>"
  }

  function TargetArguments(targets: seq<string>, rc: Option<string>): (args: seq<CommandArg>)
    ensures |args| == |targets|
    ensures forall i :: 0 <= i < |targets| ==> args[i] == Arg(TargetArgument(targets[i], rc))
  {
    if targets == [] then []
    else [Arg(TargetArgument(targets[0], rc))] + TargetArguments(targets[1..], rc)
  }

  /** cmakeCommand. */
  function CMakeCommand(tool: Option<CMakeTool>, targets: seq<string>, rc: Option<string>,
                        cmakeArguments: string, toolArguments: string): CommandLine
  {
    CommandLine(
      if tool.Some? then tool.value.cmakeExecutable else "",
      [Arg("--build"), Arg("."), Arg("--target")]
      + TargetArguments(targets, rc)
      + (if cmakeArguments != "" then [RawArgs(cmakeArguments)] else [])
      + (if toolArguments != "" then [Arg("--"), RawArgs(toolArguments)] else []))
  }

  /** The command builds in the current directory and names one target per
      entry, in order; after them come the raw CMake arguments when there
      are any, then "--" and the raw tool arguments when there are any. */
  lemma CMakeCommandLayout(tool: Option<CMakeTool>, targets: seq<string>, rc: Option<string>,
                           cmakeArguments: string, toolArguments: string)
    ensures var args := CMakeCommand(tool, targets, rc, cmakeArguments, toolArguments).arguments;
      && |args| >= |targets| + 3
      && args[..3] == [Arg("--build"), Arg("."), Arg("--target")]
      && (forall i :: 0 <= i < |targets| ==> args[3 + i] == Arg(TargetArgument(targets[i], rc)))
      && args[|targets| + 3..] ==
         (if cmakeArguments != "" then [RawArgs(cmakeArguments)] else [])
         + (if toolArguments != "" then [Arg("--"), RawArgs(toolArguments)] else [])
  {
    var head := [Arg("--build"), Arg("."), Arg("--target")];
    var ts := TargetArguments(targets, rc);
    var c := if cmakeArguments != "" then [RawArgs(cmakeArguments)] else [];
    var t := if toolArguments != "" then [Arg("--"), RawArgs(toolArguments)] else [];
    var args := CMakeCommand(tool, targets, rc, cmakeArguments, toolArguments).arguments;
    ConcatAssoc(head + ts, c, t);
    ConcatAssoc(head, ts, c + t);
    assert args == head + (ts + (c + t));
    TakeConcat(head, ts + (c + t));
    DropConcat(head, ts + (c + t));
    DropConcat(ts, c + t);
  }

  /** Entries other than "Current executable" are passed on unchanged; that
      entry becomes the build key's target when there is a run configuration
      and a marked-up placeholder without one. */
  lemma CurrentExecutableArgument(target: string, key: string)
    ensures target != CurrentExecutable ==> TargetArgument(target, Some(key)) == target
    ensures TargetArgument(CurrentExecutable, Some(key)) == BuildKeyTarget(key)
    ensures TargetArgument(CurrentExecutable, None) == "<i>&lt;Current executable&gt;</i>"
  {
  }

  // ---------------------------------------------------------------- target filtering

  /** `a` is `b` with some elements left out, in the same order. */
  predicate SubsequenceOf(a: seq<string>, b: seq<string>)
    decreases |b|
  {
    if a == [] then true
    else if b == [] then false
    else (a[0] == b[0] && SubsequenceOf(a[1..], b[1..])) || SubsequenceOf(a, b[1..])
  }

  /** Utils::filtered over the targets the build system knows. */
  function FilterKnown(targets: seq<string>, known: seq<string>): seq<string> {
    if targets == [] then []
    else (if targets[0] in known then [targets[0]] else []) + FilterKnown(targets[1..], known)
  }

  /** Filtering keeps exactly the known targets, in their order, each as
      often as it occurs. */
  lemma {:induction false} FilterKnownSpec(targets: seq<string>, known: seq<string>)
    ensures SubsequenceOf(FilterKnown(targets, known), targets)
    ensures forall t :: t in FilterKnown(targets, known) <==> t in targets && t in known
    ensures forall t :: multiset(FilterKnown(targets, known))[t] ==
                        if t in known then multiset(targets)[t] else 0
  {
    if targets != [] {
      var rest := FilterKnown(targets[1..], known);
      FilterKnownSpec(targets[1..], known);
      assert forall t :: t in targets <==> t == targets[0] || t in targets[1..];
      assert targets == [targets[0]] + targets[1..];
      assert multiset(targets) == multiset{targets[0]} + multiset(targets[1..]);
      if targets[0] in known {
        assert FilterKnown(targets, known) == [targets[0]] + rest;
        assert ([targets[0]] + rest)[1..] == rest;
        assert multiset(FilterKnown(targets, known)) == multiset{targets[0]} + multiset(rest);
      } else {
        assert FilterKnown(targets, known) == rest;
      }
    } else {
      assert FilterKnown(targets, known) == [];
    }
  }

  /** Filtering twice filters nothing more. */
  lemma {:induction false} FilterKnownIdempotent(targets: seq<string>, known: seq<string>)
    ensures FilterKnown(FilterKnown(targets, known), known) == FilterKnown(targets, known)
  {
    if targets != [] {
      FilterKnownIdempotent(targets[1..], known);
      var rest := FilterKnown(targets[1..], known);
      if targets[0] in known {
        assert FilterKnown(targets, known) == [targets[0]] + rest;
        assert ([targets[0]] + rest)[1..] == rest;
      } else {
        assert FilterKnown(targets, known) == rest;
      }
    }
  }

  /** The targets after a successful parse: the known ones, or the default
      target when none is known. */
  function Retargeted(targets: seq<string>, known: seq<string>, stepList: Option<StepListId>): seq<string> {
    var results := FilterKnown(targets, known);
    if results == [] then [DefaultBuildTarget(stepList)] else results
  }

  /** After a parse the list is never empty; it keeps only known targets
      unless it falls back to the default one. */
  lemma RetargetedSpec(targets: seq<string>, known: seq<string>, stepList: Option<StepListId>)
    ensures var r := Retargeted(targets, known, stepList);
      && |r| > 0
      && (r == [DefaultBuildTarget(stepList)] || (forall t :: t in r ==> t in targets && t in known))
      && ((exists t :: t in targets && t in known) ==>
          r == FilterKnown(targets, known) && SubsequenceOf(r, targets))
      && ((forall t :: t in targets ==> t !in known) ==> r == [DefaultBuildTarget(stepList)])
  {
    FilterKnownSpec(targets, known);
  }

  // ---------------------------------------------------------------- settings

  /** The values stored in a step's settings map. */
  datatype SettingValue = StringList(items: seq<string>) | Text(text: string) | Flag(value: bool)

  type Settings = map<string, SettingValue>

  /** QVariant::toStringList: a list as is, a string as a one-element list,
      anything else (or nothing) as the empty list. */
  function ToStringList(v: Option<SettingValue>): seq<string> {
    match v
    case Some(StringList(items)) => items
    case Some(Text(t)) => [t]
    case _ => []
  }

  function LowerAscii(c: char): char {
    if 'A' <= c <= 'Z' then (c as int + 32) as char else c
  }

  /** QVariant::toBool: a flag as is; a string is true unless it is empty,
      "0" or "false" in any case; anything else is false. */
  function ToBool(v: Option<SettingValue>): bool {
    match v
    case Some(Flag(b)) => b
    case Some(Text(t)) =>
      !(t == "" || t == "0" ||
        (|t| == 5 && LowerAscii(t[0]) == 'f' && LowerAscii(t[1]) == 'a' && LowerAscii(t[2]) == 'l' &&
         LowerAscii(t[3]) == 's' && LowerAscii(t[4]) == 'e'))
    case _ => false
  }

  function Lookup(m: Settings, key: string): Option<SettingValue> {
    if key in m then Some(m[key]) else None
  }

  /** QVariant::toString: a string as is, a one-element list as its element,
      a flag as "true" or "false", anything else (or nothing) as "". */
  function ToText(v: Option<SettingValue>): string {
    match v
    case Some(Text(t)) => t
    case Some(StringList(items)) => if |items| == 1 then items[0] else ""
    case Some(Flag(b)) => if b then "true" else "false"
    case None => ""
  }

  /** The base step's part of toMap: its other settings plus the two
      argument aspects under their settings keys. */
  function StoreArguments(base: Settings, cmakeArguments: string, toolArguments: string): Settings {
    base[CMakeArgumentsKey := Text(cmakeArguments)][ToolArgumentsKey := Text(toolArguments)]
  }

  /** toMap: the base step's settings with the target list added. */
  function StoreTargets(base: Settings, targets: seq<string>): Settings {
    base[BuildTargetsKey := StringList(targets)]
  }

  /** The target list fromMap restores. */
  function TargetsFromMap(m: Settings): seq<string> {
    if ToBool(Lookup(m, AddRunConfigurationArgumentKey)) then [CurrentExecutable]
    else ToStringList(Lookup(m, BuildTargetsKey))
  }

  lemma KeysDistinct()
    ensures BuildTargetsKey != AddRunConfigurationArgumentKey
    ensures BuildTargetsKey != CMakeArgumentsKey && BuildTargetsKey != ToolArgumentsKey
    ensures CMakeArgumentsKey != ToolArgumentsKey
  {
    assert BuildTargetsKey[|KeyPrefix|] != AddRunConfigurationArgumentKey[|KeyPrefix|];
    assert BuildTargetsKey[|KeyPrefix|] != CMakeArgumentsKey[|KeyPrefix|];
    assert BuildTargetsKey[|KeyPrefix|] != ToolArgumentsKey[|KeyPrefix|];
    assert CMakeArgumentsKey[|KeyPrefix|] != ToolArgumentsKey[|KeyPrefix|];
  }

  /** Saving and restoring keeps both argument strings: the target list
      is stored under a key of its own. */
  lemma ArgumentsRoundTrip(base: Settings, targets: seq<string>, cmakeArguments: string,
                           toolArguments: string)
    ensures var m := StoreTargets(StoreArguments(base, cmakeArguments, toolArguments), targets);
      ToText(Lookup(m, CMakeArgumentsKey)) == cmakeArguments &&
      ToText(Lookup(m, ToolArgumentsKey)) == toolArguments
  {
    KeysDistinct();
  }

  /** Saving and restoring keeps the target list, unless the base settings
      carry the old "add run configuration" flag, which wins. */
  lemma TargetsRoundTrip(base: Settings, targets: seq<string>)
    ensures !ToBool(Lookup(base, AddRunConfigurationArgumentKey)) ==>
            TargetsFromMap(StoreTargets(base, targets)) == targets
    ensures ToBool(Lookup(base, AddRunConfigurationArgumentKey)) ==>
            TargetsFromMap(StoreTargets(base, targets)) == [CurrentExecutable]
  {
    KeysDistinct();
    assert Lookup(StoreTargets(base, targets), AddRunConfigurationArgumentKey) ==
           Lookup(base, AddRunConfigurationArgumentKey);
  }

  // ---------------------------------------------------------------- init

  /** The errors init reports before giving up. */
  datatype InitError =
    | BuildConfigurationDisabled
    | NoCMakeTool
    | CurrentExecutableWithoutBuildKey

  /** The build configuration as init sees it; None when there is none. */
  datatype BuildConfiguration = BuildConfiguration(isEnabled: bool)

  function InitErrors(bc: BuildConfiguration, tool: Option<CMakeTool>, targets: seq<string>,
                      rc: Option<string>): seq<InitError>
  {
    (if !bc.isEnabled then [BuildConfigurationDisabled] else [])
    + (if tool.None? || !tool.value.isValid then [NoCMakeTool] else [])
    + (if CurrentExecutable in targets && (rc.None? || rc.value == "")
       then [CurrentExecutableWithoutBuildKey] else [])
  }

  /** Each check fails on its own condition and no other: in particular
      building the current executable needs a run configuration with a
      non-empty build key. */
  lemma InitErrorsIff(bc: BuildConfiguration, tool: Option<CMakeTool>, targets: seq<string>,
                      rc: Option<string>)
    ensures var errs := InitErrors(bc, tool, targets, rc);
      && (BuildConfigurationDisabled in errs <==> !bc.isEnabled)
      && (NoCMakeTool in errs <==> tool.None? || !tool.value.isValid)
      && (CurrentExecutableWithoutBuildKey in errs <==>
          CurrentExecutable in targets && (rc.None? || rc.value == ""))
      && (errs == [] <==> bc.isEnabled && tool.Some? && tool.value.isValid &&
                          (CurrentExecutable in targets ==> rc.Some? && rc.value != ""))
  {
  }

  /** The step ignores the build tool's exit code exactly when it only cleans. */
  function IgnoresReturnValue(targets: seq<string>): bool {
    targets == [CleanTarget]
  }

  // ---------------------------------------------------------------- the step

  class CMakeBuildStep {
    const stepList: Option<StepListId>
    var buildTargets: seq<string>
    var cmakeArguments: string
    var toolArguments: string
    var ignoreReturnValue: bool
    /** How often targetsToBuildChanged was emitted. */
    var targetsToBuildChangedCount: nat
    /** How often buildTargetsChanged was emitted. */
    var buildTargetsChangedCount: nat

    /** A new step builds its list's default target. */
    constructor (stepList: Option<StepListId>)
      ensures this.stepList == stepList
      ensures buildTargets == [DefaultBuildTarget(stepList)]
      ensures cmakeArguments == "" && toolArguments == "" && !ignoreReturnValue
      ensures targetsToBuildChangedCount == 1 && buildTargetsChangedCount == 0
    {
      this.stepList := stepList;
      buildTargets := [];
      cmakeArguments := "";
      toolArguments := "";
      ignoreReturnValue := false;
      targetsToBuildChangedCount := 0;
      buildTargetsChangedCount := 0;
      new;
      if buildTargets == [] {
        SetBuildTargets([DefaultBuildTarget(stepList)]);
      }
    }

    /** setBuildTargets: an equal list changes nothing and emits nothing. */
    method SetBuildTargets(targets: seq<string>)
      modifies this
      ensures buildTargets == targets
      ensures targetsToBuildChangedCount ==
              old(targetsToBuildChangedCount) + (if old(buildTargets) == targets then 0 else 1)
      ensures cmakeArguments == old(cmakeArguments) && toolArguments == old(toolArguments)
      ensures ignoreReturnValue == old(ignoreReturnValue)
      ensures buildTargetsChangedCount == old(buildTargetsChangedCount)
    {
      if buildTargets == targets {
        return;
      }
      buildTargets := targets;
      targetsToBuildChangedCount := targetsToBuildChangedCount + 1;
    }

    /** handleBuildTargetsChanges: after a failed parse nothing changes;
        after a successful one the list is retargeted and
        buildTargetsChanged is emitted, whether or not the list changed. */
    method HandleBuildTargetsChanges(success: bool, known: seq<string>)
      modifies this
      ensures !success ==> (buildTargets == old(buildTargets) &&
        targetsToBuildChangedCount == old(targetsToBuildChangedCount) &&
        buildTargetsChangedCount == old(buildTargetsChangedCount))
      ensures success ==> (buildTargets == Retargeted(old(buildTargets), known, stepList) &&
        buildTargetsChangedCount == old(buildTargetsChangedCount) + 1)
      ensures success ==> (targetsToBuildChangedCount == old(targetsToBuildChangedCount) +
        (if Retargeted(old(buildTargets), known, stepList) == old(buildTargets) then 0 else 1))
      ensures cmakeArguments == old(cmakeArguments) && toolArguments == old(toolArguments)
      ensures ignoreReturnValue == old(ignoreReturnValue)
    {
      if !success {
        return;
      }
      var results := FilterKnown(buildTargets, known);
      if results == [] {
        SetBuildTargets([DefaultBuildTarget(stepList)]);
      } else {
        SetBuildTargets(results);
      }
      buildTargetsChangedCount := buildTargetsChangedCount + 1;
    }

    /** toMap: `base` holds the base step's settings other than the two
        argument aspects. */
    function ToMap(base: Settings): Settings
      reads this
    {
      StoreTargets(StoreArguments(base, cmakeArguments, toolArguments), buildTargets)
    }

    /** fromMap: restores the target list; the base step restores the two
        argument aspects from their keys and returns its verdict
        `baseResult`. */
    method FromMap(m: Settings, baseResult: bool) returns (ok: bool)
      modifies this
      ensures buildTargets == TargetsFromMap(m)
      ensures ok == baseResult
      ensures cmakeArguments == ToText(Lookup(m, CMakeArgumentsKey))
      ensures toolArguments == ToText(Lookup(m, ToolArgumentsKey))
      ensures ignoreReturnValue == old(ignoreReturnValue)
      ensures targetsToBuildChangedCount == old(targetsToBuildChangedCount)
      ensures buildTargetsChangedCount == old(buildTargetsChangedCount)
    {
      buildTargets := ToStringList(Lookup(m, BuildTargetsKey));
      if ToBool(Lookup(m, AddRunConfigurationArgumentKey)) {
        buildTargets := [CurrentExecutable];
      }
      cmakeArguments := ToText(Lookup(m, CMakeArgumentsKey));
      toolArguments := ToText(Lookup(m, ToolArgumentsKey));
      ok := baseResult;
    }

    /** init: None for the build configuration fails at once; otherwise the
        checks are reported together and any failure stops init; a passing
        step sets whether to ignore the exit code, builds the command line
        and returns the base step's verdict `baseResult`. */
    method Init(bc: Option<BuildConfiguration>, tool: Option<CMakeTool>, rc: Option<string>,
                baseResult: bool)
      returns (ok: bool, errors: seq<InitError>, command: Option<CommandLine>)
      modifies this
      ensures bc.None? ==> !ok && errors == [] && command == None
      ensures bc.Some? ==> errors == InitErrors(bc.value, tool, buildTargets, rc)
      ensures errors != [] ==> !ok && command == None
      ensures bc.Some? && errors == [] ==>
        ok == baseResult && ignoreReturnValue == IgnoresReturnValue(buildTargets) &&
        command == Some(CMakeCommand(tool, buildTargets, rc, cmakeArguments, toolArguments))
      ensures !(bc.Some? && errors == []) ==> ignoreReturnValue == old(ignoreReturnValue)
      ensures buildTargets == old(buildTargets)
      ensures cmakeArguments == old(cmakeArguments) && toolArguments == old(toolArguments)
      ensures targetsToBuildChangedCount == old(targetsToBuildChangedCount)
      ensures buildTargetsChangedCount == old(buildTargetsChangedCount)
    {
      if bc.None? {
        return false, [], None;
      }
      errors := [];
      if !bc.value.isEnabled {
        errors := errors + [BuildConfigurationDisabled];
      }
      if tool.None? || !tool.value.isValid {
        errors := errors + [NoCMakeTool];
      }
      var buildCurrent := CurrentExecutable in buildTargets;
      if buildCurrent && (rc.None? || rc.value == "") {
        errors := errors + [CurrentExecutableWithoutBuildKey];
      }
      if errors != [] {
        return false, errors, None;
      }
      ignoreReturnValue := buildTargets == [CleanTarget];
      command := Some(CMakeCommand(tool, buildTargets, rc, cmakeArguments, toolArguments));
      ok := baseResult;
    }
  }

  // ---------------------------------------------------------------- sessions

  /** A build step whose targets all vanish from the project falls back to
      "all"; restoring it from settings written by an old version that asked
      for the current executable builds that; init then needs a build key. */
  method TargetLifecycle(known: seq<string>, base: Settings)
    returns (afterParse: seq<string>, restored: seq<string>, initOk: bool, errors: seq<InitError>)
    requires "app" !in known
    ensures afterParse == [AllTarget]
    ensures restored == [CurrentExecutable]
    ensures !initOk && errors == [CurrentExecutableWithoutBuildKey]
  {
    var step := new CMakeBuildStep(Some(BuildSteps));
    step.SetBuildTargets(["app"]);
    assert FilterKnown(["app"], known) == [];
    step.HandleBuildTargetsChanges(true, known);
    afterParse := step.buildTargets;
    var ok := step.FromMap(base[AddRunConfigurationArgumentKey := Flag(true)], true);
    restored := step.buildTargets;
    var command;
    initOk, errors, command :=
      step.Init(Some(BuildConfiguration(true)), Some(CMakeTool("cmake", true)), Some(""), true);
  }
}
