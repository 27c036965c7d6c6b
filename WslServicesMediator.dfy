/**
 * The WSL services mediator: lists running distributions from the output of
 * `wsl.exe`, lists registered distributions from the Lxss registry key, and
 * starts the processes that unregister, terminate, launch and install a
 * distribution.
 *
 * The process creator is the parameter `run`, the result a process reports
 * for each request it is given; registry reads are a snapshot value.
 */
module WslServices {
  import opened Wrappers
  import opened TextReading

  // ---------------------------------------------------------------------------
  // Processes
  // ---------------------------------------------------------------------------

  /** The executables the mediator starts (their file names are configuration). */
  datatype Executable = WslExe | WindowsTerminalShimExe | CommandPromptExe

  /** The argument lists, by the format they are built from and its parameters. */
  datatype Arguments =
    | ListAllRunningDistributions
    | UnregisterDistributionArgs(distribution: string)
    | TerminateDistributionArgs(distribution: string)
    | LaunchDistributionProfileArgs(profile: string, distribution: string)
    | LaunchDistributionNoProfileArgs(distribution: string)
    | InstallDistributionArgs(distribution: string)

  /** One request to the process creator: with or without a window. */
  datatype ProcessRequest = ProcessRequest(executable: Executable, arguments: Arguments, withWindow: bool)

  /** What a finished process reports: whether it exited successfully, and its standard output. */
  datatype ProcessData = ProcessData(exitedSuccessfully: bool, stdOutput: string)

  datatype MediatorError = WslServicesMediatorException

  const ListRunningRequest := ProcessRequest(WslExe, ListAllRunningDistributions, false)

  // ---------------------------------------------------------------------------
  // Running distributions
  // ---------------------------------------------------------------------------

  /** `line.Split(" ")[0]`: the text before the first space, or the whole line. */
  function FirstToken(line: string): (t: string)
    ensures t <= line
    ensures ' ' !in t
    ensures |t| < |line| ==> line[|t|] == ' '
  {
    if line == [] || line[0] == ' ' then []
    else [line[0]] + FirstToken(line[1..])
  }

  /** The three facts of `FirstToken`'s contract determine it. */
  lemma FirstTokenIs(line: string, n: nat)
    requires n <= |line| && forall k :: 0 <= k < n ==> line[k] != ' '
    requires n < |line| ==> line[n] == ' '
    ensures FirstToken(line) == line[..n]
  {
  }

  /** `wsl.exe --list --running` failed with nothing to parse. */
  predicate ListingRejects(pd: ProcessData) {
    !pd.exitedSuccessfully && pd.stdOutput == []
  }

  /** The lines after the first one, which is a banner or a "none running" message. */
  function DataLines(output: string): seq<string> {
    var ls := Lines(output);
    if ls == [] then [] else ls[1..]
  }

  /** The names the listing reports for the given output. */
  function RunningNames(output: string): set<string> {
    set l | l in DataLines(output) :: FirstToken(l)
  }

  /**
   * Fails exactly when the process did not exit successfully and printed
   * nothing; otherwise the first output line is skipped and every later line
   * contributes its first space-separated token.
   */
  method GetAllNamesOfRunningDistributions(run: ProcessRequest -> ProcessData)
    returns (r: Result<set<string>, MediatorError>)
    ensures r.Failure? <==> ListingRejects(run(ListRunningRequest))
    ensures r.Success? ==> r.value == RunningNames(run(ListRunningRequest).stdOutput)
  {
    var processData := run(ListRunningRequest);
    if !processData.exitedSuccessfully && processData.stdOutput == [] {
      return Failure(WslServicesMediatorException);
    }
    var distributions: set<string> := {};
    var reader := new StringReader(processData.stdOutput);
    var header := reader.ReadLine();
    ghost var data := DataLines(processData.stdOutput);
    assert reader.Remaining() == data;
    ghost var n := 0;
    var line := reader.ReadLine();
    while line.Some?
      invariant reader.Valid() && reader.text == processData.stdOutput
      invariant n <= |data|
      invariant line.Some? ==> n < |data| && line.value == data[n] && reader.Remaining() == data[n + 1..]
      invariant line.None? ==> n == |data|
      invariant distributions == set l | l in data[..n] :: FirstToken(l)
      decreases |data| - n
    {
      distributions := distributions + {FirstToken(line.value)};
      FirstTokensOfPrefix(data, n);
      n := n + 1;
      line := reader.ReadLine();
    }
    assert data[..n] == data;
    return Success(distributions);
  }

  lemma FirstTokensOfPrefix(ls: seq<string>, n: nat)
    requires n < |ls|
    ensures (set l | l in ls[..n + 1] :: FirstToken(l)) == (set l | l in ls[..n] :: FirstToken(l)) + {FirstToken(ls[n])}
  {
    assert ls[..n + 1] == ls[..n] + [ls[n]];
  }

  /** Membership in the running listing, failing whenever the listing fails. */
  method IsDistributionRunning(run: ProcessRequest -> ProcessData, distributionName: string)
    returns (r: Result<bool, MediatorError>)
    ensures r.Failure? <==> ListingRejects(run(ListRunningRequest))
    ensures r.Success? ==> (r.value <==> distributionName in RunningNames(run(ListRunningRequest).stdOutput))
  {
    var names := GetAllNamesOfRunningDistributions(run);
    if names.Failure? {
      return Failure(names.error);
    }
    return Success(distributionName in names.value);
  }

  /**
   * Whatever the header line, output written line by line reports exactly the
   * first tokens of the lines after it, with or without a final terminator.
   */
  lemma RunningNamesOfListing(header: string, data: seq<string>, eol: string, last: string)
    requires NoLineBreak(header) && (forall l :: l in data ==> NoLineBreak(l))
    requires IsTerminator(eol) && NoLineBreak(last)
    ensures RunningNames(Terminated([header] + data, eol) + last)
         == (set l | l in data :: FirstToken(l)) + (if last == [] then {} else {FirstToken(last)})
  {
    var more := if last == [] then [] else [last];
    assert DataLines(Terminated([header] + data, eol) + last) == data + more by {
      assert forall l :: l in [header] + data ==> l == header || l in data;
      LinesOfTerminated([header] + data, eol, last);
      assert ([header] + data + more)[1..] == data + more;
    }
    assert (set l | l in data + more :: FirstToken(l))
        == (set l | l in data :: FirstToken(l)) + (if last == [] then {} else {FirstToken(last)});
  }

  /** A header-only output lists no distribution. */
  lemma RunningNamesOfHeaderOnly(header: string, eol: string)
    requires NoLineBreak(header) && IsTerminator(eol)
    ensures RunningNames(header + eol) == {}
    ensures RunningNames(header) == {}
  {
    RunningNamesOfListing(header, [], eol, []);
    assert Terminated([header], eol) == header + eol;
    RunningNamesOfListing([], [], eol, header);
    if header != [] {
      LinesOfLastLine(header);
    } else {
      assert Lines(header) == [];
    }
  }

  /**
   * A banner, then a default distribution annotated as in "Debian (Default)",
   * then a plain one: the banner is skipped, the annotation dropped, and a
   * failed exit with this output is parsed, not rejected.
   */
  lemma RunningListingExample(run: ProcessRequest -> ProcessData,
                              header: string, first: string, annotation: string, second: string)
    requires NoLineBreak(header) && NoLineBreak(first) && NoLineBreak(annotation) && NoLineBreak(second)
    requires ' ' !in first && ' ' !in second
    requires run(ListRunningRequest) ==
               ProcessData(false, header + "\n" + first + " " + annotation + "\n" + second + "\n")
    ensures !ListingRejects(run(ListRunningRequest))
    ensures RunningNames(run(ListRunningRequest).stdOutput) == {first, second}
  {
    var annotated := first + " " + annotation;
    assert NoLineBreak(annotated) by {
      forall k | 0 <= k < |annotated| ensures !IsLineBreak(annotated[k]) {
        if k < |first| {
          assert annotated[k] == first[k];
        } else if k > |first| {
          assert annotated[k] == annotation[k - |first| - 1];
        }
      }
    }
    var data := [annotated, second];
    var output := run(ListRunningRequest).stdOutput;
    assert Terminated([second], "\n") == second + "\n" + Terminated([], "\n");
    assert Terminated(data, "\n") == annotated + "\n" + Terminated([second], "\n");
    assert Terminated([header] + data, "\n") == header + "\n" + Terminated(data, "\n");
    assert output == Terminated([header] + data, "\n") + [];
    RunningNamesOfListing(header, data, "\n", []);
    var tokens := set l | l in data :: FirstToken(l);
    assert RunningNames(output) == tokens;
    assert annotated[..|first|] == first;
    FirstTokenIs(annotated, |first|);
    assert second[..|second|] == second;
    FirstTokenIs(second, |second|);
    assert forall l :: l in data <==> l == annotated || l == second;
    assert tokens == {first, second};
  }

  // ---------------------------------------------------------------------------
  // Registered distributions
  // ---------------------------------------------------------------------------

  /** A registry value as read, before it is cast. */
  datatype RegistryValue = Str(s: string) | Int(i: int) | Absent | Other

  /** An opened registry key: its full name and the three values the mediator reads. */
  datatype RegistryKey = RegistryKey(path: string, distributionName: RegistryValue, version: RegistryValue,
                                     packageFamilyName: RegistryValue)

  /** A subkey of the Lxss key, which `OpenSubKey` may fail to open. */
  datatype SubKey = Unopenable | Opened(key: RegistryKey)

  /** The Lxss key: its default-distribution value and its subkeys, in enumeration order. */
  datatype LxssKey = LxssKey(defaultDistribution: RegistryValue, subKeys: seq<SubKey>)

  datatype WslRegisteredDistribution = WslRegisteredDistribution(
    name: string,
    subkeyName: string,
    packageFamilyName: Option<string>,
    isVersion2: bool,
    isDefaultDistribution: bool)

  /** The registry's value for a version-2 distribution. */
  const WslVersion2: int := 2

  /** `value as string`. */
  function AsString(v: RegistryValue): (r: Option<string>)
    ensures r.Some? <==> v.Str?
    ensures r.Some? ==> r.value == v.s
  {
    if v.Str? then Some(v.s) else None
  }

  /** `name.Split('\\').LastOrDefault()`: the text after the last backslash. */
  function LastSegment(path: string): (seg: string)
    ensures |seg| <= |path| && seg == path[|path| - |seg|..]
    ensures '\\' !in seg
    ensures |seg| < |path| ==> path[|path| - |seg| - 1] == '\\'
  {
    if path == [] || path[|path| - 1] == '\\' then []
    else LastSegment(path[..|path| - 1]) + [path[|path| - 1]]
  }

  function AsciiToUpper(c: char): char {
    if 'a' <= c <= 'z' then (c as int - 32) as char else c
  }

  /** `a.Equals(b, StringComparison.OrdinalIgnoreCase)`. */
  predicate EqualsIgnoreCase(a: string, b: string): (equal: bool)
    ensures a == b ==> equal
    ensures equal ==> |a| == |b|
  {
    |a| == |b| && forall k :: 0 <= k < |a| ==> AsciiToUpper(a[k]) == AsciiToUpper(b[k])
  }

  /** Comparing case-insensitively is an equivalence: the default check does not depend on argument order. */
  lemma EqualsIgnoreCaseIsEquivalence(a: string, b: string, c: string)
    ensures EqualsIgnoreCase(a, b) == EqualsIgnoreCase(b, a)
    ensures EqualsIgnoreCase(a, b) && EqualsIgnoreCase(b, c) ==> EqualsIgnoreCase(a, c)
  {
  }

  /** Keys that differ only in the case of their letters compare equal; other keys do not. */
  lemma EqualsIgnoreCaseExamples()
    ensures EqualsIgnoreCase("{ab-12}", "{AB-12}")
    ensures !EqualsIgnoreCase("{ab-12}", "{ab-13}")
    ensures !EqualsIgnoreCase("{ab}", "{ab-12}")
  {
    assert "{ab-12}"[5] == '2' && "{ab-13}"[5] == '3';
  }

  /** A subkey is the default distribution when the default value names its key. */
  predicate IsDefaultFor(defaultDistribution: Option<string>, guid: string): (isDefault: bool)
    ensures isDefault ==> defaultDistribution.Some? && guid != [] && |defaultDistribution.value| == |guid|
    ensures defaultDistribution == Some(guid) && guid != [] ==> isDefault
  {
    defaultDistribution.Some? && defaultDistribution.value != [] && EqualsIgnoreCase(defaultDistribution.value, guid)
  }

  /** The fields of a distribution, each read by its cast with a default. */
  function BuildDistributionInfoFromRegistry(key: RegistryKey): (d: WslRegisteredDistribution)
    ensures d.name == (if key.distributionName.Str? then key.distributionName.s else "")
    ensures d.subkeyName == LastSegment(key.path) && '\\' !in d.subkeyName
    ensures d.isVersion2 <==> key.version == Int(WslVersion2)
    ensures d.packageFamilyName.Some? <==> key.packageFamilyName.Str?
    ensures d.packageFamilyName.Some? ==> d.packageFamilyName.value == key.packageFamilyName.s
    ensures !d.isDefaultDistribution
  {
    WslRegisteredDistribution(
      AsString(key.distributionName).GetOr(""),
      LastSegment(key.path),
      AsString(key.packageFamilyName),
      match key.version case Int(v) => v == WslVersion2 case _ => false,
      false)
  }

  /** A key's name value, read as a string, is not empty. */
  predicate Named(key: RegistryKey) {
    key.distributionName.Str? && key.distributionName.s != []
  }

  /** A subkey is listed when it opens and is named. */
  predicate Survives(subKey: SubKey) {
    subKey.Opened? && Named(subKey.key)
  }

  /** The entry a listed key contributes. */
  function Marked(defaultDistribution: Option<string>, key: RegistryKey): WslRegisteredDistribution
  {
    var d := BuildDistributionInfoFromRegistry(key);
    d.(isDefaultDistribution := IsDefaultFor(defaultDistribution, LastSegment(key.path)))
  }

  /** What one subkey contributes to the listing: nothing, or its marked entry. */
  function EntryFor(defaultDistribution: Option<string>, subKey: SubKey): seq<WslRegisteredDistribution> {
    if Survives(subKey) then [Marked(defaultDistribution, subKey.key)] else []
  }

  /** The entries that the subkeys `keys` contribute, one after the other. */
  function Entries(defaultDistribution: Option<string>, keys: seq<SubKey>): seq<WslRegisteredDistribution> {
    if keys == [] then []
    else EntryFor(defaultDistribution, keys[0]) + Entries(defaultDistribution, keys[1..])
  }

  /** The keys of the surviving subkeys, in enumeration order. */
  function Survivors(subKeys: seq<SubKey>): (s: seq<RegistryKey>)
    ensures forall i :: 0 <= i < |s| ==> Named(s[i])
  {
    if subKeys == [] then []
    else (if Survives(subKeys[0]) then [subKeys[0].key] else []) + Survivors(subKeys[1..])
  }

  /** Marking against a given default, as a function of the key. */
  function MarkAgainst(defaultDistribution: Option<string>): RegistryKey -> WslRegisteredDistribution {
    key => Marked(defaultDistribution, key)
  }

  /** `f` applied to every element of `s`, in order. */
  function Map<A, B>(f: A -> B, s: seq<A>): (r: seq<B>)
    ensures |r| == |s|
  {
    if s == [] then [] else [f(s[0])] + Map(f, s[1..])
  }

  /** The listing for a registry snapshot; `None` is a missing Lxss key. */
  function RegisteredDistributions(root: Option<LxssKey>): seq<WslRegisteredDistribution> {
    match root
    case None => []
    case Some(lxss) => Entries(AsString(lxss.defaultDistribution), lxss.subKeys)
  }

  /** One more subkey appends what it contributes. */
  lemma EntriesOfPrefix(d: Option<string>, keys: seq<SubKey>, i: nat)
    requires i < |keys|
    ensures Entries(d, keys[..i + 1]) == Entries(d, keys[..i]) + EntryFor(d, keys[i])
  {
    assert keys[..i + 1] == keys[..i] + [keys[i]];
    EntriesAppend(d, keys[..i], [keys[i]]);
    assert Entries(d, [keys[i]]) == EntryFor(d, keys[i]);
  }

  /**
   * The loop over the Lxss subkeys: skips the unopenable and the unnamed ones
   * and marks the default, producing `RegisteredDistributions(root)`.
   */
  method GetAllRegisteredDistributions(root: Option<LxssKey>) returns (distributions: seq<WslRegisteredDistribution>)
    ensures distributions == RegisteredDistributions(root)
    ensures root.None? ==> distributions == []
  {
    if root.None? {
      return [];
    }
    var lxss := root.value;
    var defaultDistribution := AsString(lxss.defaultDistribution);
    distributions := [];
    for i := 0 to |lxss.subKeys|
      invariant distributions == Entries(defaultDistribution, lxss.subKeys[..i])
    {
      var subKey := lxss.subKeys[i];
      EntriesOfPrefix(defaultDistribution, lxss.subKeys, i);
      if subKey.Unopenable? {
        continue;
      }
      var distribution := BuildDistributionInfoFromRegistry(subKey.key);
      if distribution.name == [] {
        continue;
      }
      var distributionGuid := LastSegment(subKey.key.path);
      if defaultDistribution.Some? && defaultDistribution.value != []
         && EqualsIgnoreCase(defaultDistribution.value, distributionGuid)
      {
        distribution := distribution.(isDefaultDistribution := true);
      }
      distributions := distributions + [distribution];
    }
    assert lxss.subKeys[..|lxss.subKeys|] == lxss.subKeys;
  }

  /** The listing of two runs of subkeys is the two listings one after the other. */
  lemma {:induction false} EntriesAppend(d: Option<string>, a: seq<SubKey>, b: seq<SubKey>)
    ensures Entries(d, a + b) == Entries(d, a) + Entries(d, b)
  {
    if a == [] {
      assert a + b == b;
    } else {
      assert (a + b)[1..] == a[1..] + b;
      EntriesAppend(d, a[1..], b);
    }
  }

  /** A subkey that cannot be opened or has no name leaves every other entry as it was. */
  lemma SkippedSubKeyIsIgnored(d: Option<string>, a: seq<SubKey>, key: SubKey, b: seq<SubKey>)
    requires !Survives(key)
    ensures Entries(d, a + [key] + b) == Entries(d, a + b)
  {
    EntriesAppend(d, a + [key], b);
    EntriesAppend(d, a, [key]);
    EntriesAppend(d, a, b);
  }

  /** The listing is the surviving subkeys, in enumeration order, each marked against the default. */
  lemma {:induction false} EntriesAreMarkedSurvivors(d: Option<string>, keys: seq<SubKey>)
    ensures Entries(d, keys) == Map(MarkAgainst(d), Survivors(keys))
  {
    if keys != [] {
      EntriesAreMarkedSurvivors(d, keys[1..]);
      if Survives(keys[0]) {
        assert Survivors(keys) == [keys[0].key] + Survivors(keys[1..]);
      } else {
        assert Survivors(keys) == Survivors(keys[1..]);
      }
    }
  }

  /** The `i`th element of a mapped sequence is `f` of the `i`th element. */
  lemma {:induction false} MapAt<A, B>(f: A -> B, s: seq<A>, i: nat)
    requires i < |s|
    ensures Map(f, s)[i] == f(s[i])
  {
    if i > 0 {
      MapAt(f, s[1..], i - 1);
    }
  }

  /** One entry per surviving subkey, in enumeration order, each marked against the default. */
  lemma EntriesFollowSurvivors(d: Option<string>, keys: seq<SubKey>)
    ensures |Entries(d, keys)| == |Survivors(keys)|
    ensures forall i :: 0 <= i < |Survivors(keys)| ==> Entries(d, keys)[i] == Marked(d, Survivors(keys)[i])
  {
    var ss := Survivors(keys);
    EntriesAreMarkedSurvivors(d, keys);
    forall i | 0 <= i < |ss| ensures Entries(d, keys)[i] == Marked(d, ss[i]) {
      MapAt(MarkAgainst(d), ss, i);
    }
  }

  /** Every entry is named, and is default exactly when the default value names its key. */
  lemma EntriesAreNamedAndMarked(d: Option<string>, keys: seq<SubKey>)
    ensures forall e :: e in Entries(d, keys) ==>
              e.name != [] && (e.isDefaultDistribution <==> IsDefaultFor(d, e.subkeyName))
  {
    EntriesFollowSurvivors(d, keys);
    forall e | e in Entries(d, keys)
      ensures e.name != [] && (e.isDefaultDistribution <==> IsDefaultFor(d, e.subkeyName))
    {
      var i :| 0 <= i < |Entries(d, keys)| && Entries(d, keys)[i] == e;
      assert Survivors(keys)[i] in Survivors(keys);
    }
  }

  /**
   * When the surviving subkeys' names differ case-insensitively, at most one
   * entry is the default.
   */
  lemma AtMostOneDefault(d: Option<string>, keys: seq<SubKey>)
    requires forall i, j :: 0 <= i < j < |Survivors(keys)| ==>
               !EqualsIgnoreCase(LastSegment(Survivors(keys)[i].path), LastSegment(Survivors(keys)[j].path))
    ensures forall i, j :: 0 <= i < j < |Entries(d, keys)| && Entries(d, keys)[i].isDefaultDistribution
              ==> !Entries(d, keys)[j].isDefaultDistribution
  {
    EntriesFollowSurvivors(d, keys);
    var es := Entries(d, keys);
    var ss := Survivors(keys);
    forall i, j | 0 <= i < j < |es| && es[i].isDefaultDistribution
      ensures !es[j].isDefaultDistribution
    {
      if es[j].isDefaultDistribution {
        assert false;
      }
    }
  }

  // ---------------------------------------------------------------------------
  // Unregister, terminate, launch, install
  // ---------------------------------------------------------------------------

  /** Unregistering or terminating failed: no successful exit, or no output. */
  predicate MutationRejects(pd: ProcessData) {
    !pd.exitedSuccessfully || pd.stdOutput == []
  }

  /** `wsl.exe` with the unregister arguments, started without a window. */
  function UnregisterRequest(distributionName: string): ProcessRequest {
    ProcessRequest(WslExe, UnregisterDistributionArgs(distributionName), false)
  }

  /** `wsl.exe` with the terminate arguments, started without a window. */
  function TerminateRequest(distributionName: string): ProcessRequest {
    ProcessRequest(WslExe, TerminateDistributionArgs(distributionName), false)
  }

  /** Fails unless `wsl.exe --unregister` exits successfully with some output. */
  function UnregisterDistribution(run: ProcessRequest -> ProcessData, distributionName: string)
    : (r: Result<(), MediatorError>)
    ensures r.Failure? <==> (!run(UnregisterRequest(distributionName)).exitedSuccessfully
                             || run(UnregisterRequest(distributionName)).stdOutput == [])
  {
    var processData := run(UnregisterRequest(distributionName));
    if MutationRejects(processData) then Failure(WslServicesMediatorException) else Success(())
  }

  /** Fails unless `wsl.exe --terminate` exits successfully with some output. */
  function TerminateDistribution(run: ProcessRequest -> ProcessData, distributionName: string)
    : (r: Result<(), MediatorError>)
    ensures r.Failure? <==> (!run(TerminateRequest(distributionName)).exitedSuccessfully
                             || run(TerminateRequest(distributionName)).stdOutput == [])
  {
    var processData := run(TerminateRequest(distributionName));
    if MutationRejects(processData) then Failure(WslServicesMediatorException) else Success(())
  }

  /**
   * The mutation check is strictly stricter than the listing check: whatever
   * it accepts the listing accepts, and a successful exit with no output is
   * accepted by the listing alone.
   */
  lemma MutationStricterThanListing(pd: ProcessData)
    ensures ListingRejects(pd) ==> MutationRejects(pd)
    ensures MutationRejects(ProcessData(true, [])) && !ListingRejects(ProcessData(true, []))
    ensures !MutationRejects(pd) ==> !ListingRejects(pd)
  {
  }

  /** The terminal shim when the Windows Terminal package is installed, else the command prompt. */
  function GetFileNameForProcessLaunch(terminalInstalled: bool): (e: Executable)
    ensures e == WindowsTerminalShimExe <==> terminalInstalled
    ensures e == CommandPromptExe <==> !terminalInstalled
  {
    if terminalInstalled then WindowsTerminalShimExe else CommandPromptExe
  }

  /**
   * The process started to launch a distribution. The package is queried
   * twice: `installedFirst` chooses the executable and the branch,
   * `installedSecond` is the fresh answer used when a profile is passed.
   */
  function LaunchDistribution(distributionName: string, windowsTerminalProfile: Option<string>,
                              installedFirst: bool, installedSecond: bool): (req: ProcessRequest)
    ensures req.withWindow
    ensures req.arguments.LaunchDistributionProfileArgs? <==>
              installedFirst && windowsTerminalProfile.Some? && windowsTerminalProfile.value != []
    ensures req.arguments.LaunchDistributionProfileArgs? ==>
              req.arguments == LaunchDistributionProfileArgs(windowsTerminalProfile.value, distributionName)
              && req.executable == GetFileNameForProcessLaunch(installedSecond)
    ensures !req.arguments.LaunchDistributionProfileArgs? ==>
              req.arguments == LaunchDistributionNoProfileArgs(distributionName)
              && req.executable == GetFileNameForProcessLaunch(installedFirst)
  {
    var executable := GetFileNameForProcessLaunch(installedFirst);
    if executable == WindowsTerminalShimExe && windowsTerminalProfile.Some? && windowsTerminalProfile.value != [] then
      ProcessRequest(GetFileNameForProcessLaunch(installedSecond),
                     LaunchDistributionProfileArgs(windowsTerminalProfile.value, distributionName), true)
    else
      ProcessRequest(executable, LaunchDistributionNoProfileArgs(distributionName), true)
  }

  /** The process started to install a distribution. */
  function InstallDistribution(distributionName: string, terminalInstalled: bool): (req: ProcessRequest)
    ensures req.withWindow && req.arguments == InstallDistributionArgs(distributionName)
    ensures req.executable == WindowsTerminalShimExe <==> terminalInstalled
    ensures req.executable == CommandPromptExe <==> !terminalInstalled
  {
    ProcessRequest(GetFileNameForProcessLaunch(terminalInstalled), InstallDistributionArgs(distributionName), true)
  }

  /**
   * While the package's presence does not change between the queries, profile
   * arguments go only to the terminal shim, and install and launch start the
   * same executable.
   */
  lemma LaunchAndInstallAgree(distributionName: string, profile: Option<string>, installed: bool)
    ensures var req := LaunchDistribution(distributionName, profile, installed, installed);
      && (req.arguments.LaunchDistributionProfileArgs? ==> req.executable == WindowsTerminalShimExe)
      && req.executable == InstallDistribution(distributionName, installed).executable
  {
  }
}
