# WSL inventory and widget hosting, modelled in Dafny

This project models two services of Dev Home.

**The WSL services mediator** is how the WSL extension talks to `wsl.exe` and the registry.
- **Running listing.** It lists running distributions by parsing `wsl.exe --list --running`. The first output line is skipped. Every later line contributes the text before its first space.
- **Running check.** It answers "is this distribution running?" from that listing.
- **Registered listing.** It lists registered distributions from the Lxss registry key. Bad subkeys are skipped, each entry's fields are derived from typed registry values, and the default distribution is marked by comparing GUIDs case-insensitively.
- **Unregister and terminate.** Each accepts or rejects the result of one process.
- **Launch and install.** Each chooses the executable and arguments of the process it starts.

**The widget hosting service** is how the dashboard reaches the out-of-process widget host and widget catalog.
- It caches one handle to each of them.
- It registers or fetches a handle only when none is cached.
- It makes at most three attempts at every call.
- On the two RPC HRESULTs that mean the server is gone, it drops both handles.

Modules:
- `Wrappers`: `Option` and `Result`.
- `TextReading`: the line splitting of .NET's `StringReader.ReadLine`. A line ends at "\n", "\r" or "\r\n"; a final terminator adds no line. It has a `StringReader` class whose `ReadLine` is proved against the `Lines` function.
- `WslServices`: the mediator. The process creator is a parameter `run: ProcessRequest -> ProcessData`, giving the result each request would produce. The registry is a snapshot value `Option<LxssKey>`, with `None` standing for a missing key. Exceptions are `Result.Failure`.
- `WidgetHosting`: the hosting service. It is a class with the two cache fields, `widgetHost` and `widgetCatalog`, where `None` means `null`. Each COM call is an oracle giving its outcome (a value, a `COMException` with its HRESULT, or another exception) at each attempt. Each retry loop is a `while` loop proved equal to a recursive specification function (`HostLoop`, `CatalogLoop`, `ProbeLoop`). The lemmas are stated about those functions.

## Model

| member | source | states |
|---|---|---|
| TextReading.StringReader.constructor | extensions/WSLExtension/Services/WslServicesMediator.cs:47 | A new reader has all lines of the text still to read. |
| TextReading.StringReader.ReadLine | extensions/WSLExtension/Services/WslServicesMediator.cs:60-61 | Returns `null` exactly when no line remains. Otherwise it returns the next line of `Lines(text)` and consumes exactly that line. |
| TextReading.Lines | extensions/WSLExtension/Services/WslServicesMediator.cs:60-61 | The lines that successive `ReadLine` calls return, up to the first `null`. It has no contract of its own. `ReadLine` is proved against it, and the four lemmas below state its properties. |
| TextReading.LinesHaveNoBreaks | extensions/WSLExtension/Services/WslServicesMediator.cs:60-61 | No line that is read contains '\n' or '\r'. |
| TextReading.LinesOfFirstLine | extensions/WSLExtension/Services/WslServicesMediator.cs:60-61 | A line followed by one terminator is read back as that line, and reading continues after the terminator. |
| TextReading.LinesOfLastLine | extensions/WSLExtension/Services/WslServicesMediator.cs:60-61 | A last line without a terminator is still read. |
| TextReading.LinesOfTerminated | extensions/WSLExtension/Services/WslServicesMediator.cs:60-61 | Round trip: text written line by line with any one terminator reads back as exactly those lines. A final terminator adds no extra line. |
| WslServices.ListingRejects | extensions/WSLExtension/Services/WslServicesMediator.cs:40 | The listing's error condition: the process did not exit successfully and printed nothing. A specification predicate without a contract of its own; `GetAllNamesOfRunningDistributions` fails exactly when it holds. |
| WslServices.FirstToken | extensions/WSLExtension/Services/WslServicesMediator.cs:63-64 | `Split(" ")[0]`: a prefix of the line with no space, ending at the first space or at the end of the line. |
| WslServices.DataLines | extensions/WSLExtension/Services/WslServicesMediator.cs:60-61 | The lines after the first one that `ReadLine` returns. A specification function without a contract of its own; `RunningNamesOfListing` states what it yields for a written listing. |
| WslServices.RunningNames | extensions/WSLExtension/Services/WslServicesMediator.cs:46-67 | The set of first tokens of the data lines, the `HashSet` the loop fills. A specification function without a contract of its own; the listing method is proved equal to it, and `RunningNamesOfListing` states its value. |
| WslServices.GetAllNamesOfRunningDistributions | extensions/WSLExtension/Services/WslServicesMediator.cs:34-68 | Fails iff the process did not exit successfully and printed nothing. Otherwise the result is exactly the set of first tokens of every line after the first. |
| WslServices.IsDistributionRunning | extensions/WSLExtension/Services/WslServicesMediator.cs:71-74 | Fails in exactly the cases the listing fails. Otherwise it is true iff the name is in the listing's set. |
| WslServices.RunningNamesOfListing | extensions/WSLExtension/Services/WslServicesMediator.cs:47-67 | For any header line and any data lines, with or without a final terminator, the listing is the set of the data lines' first tokens. The header never contributes. |
| WslServices.RunningNamesOfHeaderOnly | extensions/WSLExtension/Services/WslServicesMediator.cs:50-60 | Header-only output, such as "There are no running distributions.", with or without a terminator, lists nothing. |
| WslServices.RunningListingExample | extensions/WSLExtension/Services/WslServicesMediator.cs:38-65 | A failed exit whose output is a banner, then "Debian (Default)"-style and plain lines, is parsed rather than rejected. The annotation is dropped. |
| WslServices.AsString | extensions/WSLExtension/Services/WslServicesMediator.cs:126-129 | `as string` yields a value exactly for string registry values. |
| WslServices.LastSegment | extensions/WSLExtension/Services/WslServicesMediator.cs:127 | `Split('\\').LastOrDefault()` is the suffix after the last backslash, or the whole name when it has none. |
| WslServices.EqualsIgnoreCase | extensions/WSLExtension/Services/WslServicesMediator.cs:113 | `Equals(…, OrdinalIgnoreCase)`: equal strings compare equal, and strings that compare equal have the same length. |
| WslServices.EqualsIgnoreCaseIsEquivalence | extensions/WSLExtension/Services/WslServicesMediator.cs:113 | The comparison is symmetric and transitive, so it does not matter which side holds the default value. |
| WslServices.EqualsIgnoreCaseExamples | extensions/WSLExtension/Services/WslServicesMediator.cs:113 | GUIDs that differ only in the case of their letters compare equal. A different digit or a different length does not. |
| WslServices.IsDefaultFor | extensions/WSLExtension/Services/WslServicesMediator.cs:112-113 | A subkey is marked default only when the default value is a non-empty string of the GUID's length. A default value equal to the GUID always marks it. |
| WslServices.BuildDistributionInfoFromRegistry | extensions/WSLExtension/Services/WslServicesMediator.cs:124-131 | The name is the string value or "". The subkey name is the last path segment. Version 2 holds iff the value is the int `WslVersion2`. The package family is present iff its value is a string. The entry is not the default. |
| WslServices.Marked | extensions/WSLExtension/Services/WslServicesMediator.cs:110-116 | One entry built from its subkey, with the default flag set exactly when `IsDefaultFor` holds of its GUID. A specification function without a contract of its own; `EntriesAreNamedAndMarked` states its result. |
| WslServices.RegisteredDistributions | extensions/WSLExtension/Services/WslServicesMediator.cs:83-121 | The whole registered listing: empty for a missing key, otherwise the entries of the subkeys in enumeration order. A specification function without a contract of its own; `GetAllRegisteredDistributions` is proved equal to it, and the lemmas below state its shape. |
| WslServices.Named | extensions/WSLExtension/Services/WslServicesMediator.cs:102-108 | The second `continue`: a key is kept only when its name value, read `as string`, is a non-empty string. A specification predicate without a contract of its own; `EntriesAreNamedAndMarked` states that every entry is named. |
| WslServices.Survives | extensions/WSLExtension/Services/WslServicesMediator.cs:95-108 | Both `continue` conditions: a subkey is listed only when it opens and is named. A specification predicate without a contract of its own; `SkippedSubKeyIsIgnored` states what failing it does to the listing. |
| WslServices.Survivors | extensions/WSLExtension/Services/WslServicesMediator.cs:93-108 | The keys of the subkeys that pass both `continue` conditions, in enumeration order. Every one of them is named. |
| WslServices.EntryFor | extensions/WSLExtension/Services/WslServicesMediator.cs:95-119 | One pass of the `foreach` body: nothing for a skipped subkey, otherwise its one marked entry. A specification function without a contract of its own; `SkippedSubKeyIsIgnored` and `EntriesFollowSurvivors` state what it contributes. |
| WslServices.Entries | extensions/WSLExtension/Services/WslServicesMediator.cs:93-119 | The `foreach` over the subkeys: their contributions concatenated in enumeration order. A specification function without a contract of its own; `EntriesAppend`, `EntriesAreMarkedSurvivors` and `EntriesFollowSurvivors` state its value. |
| WslServices.GetAllRegisteredDistributions | extensions/WSLExtension/Services/WslServicesMediator.cs:81-122 | The loop's result equals `RegisteredDistributions(root)`. A missing Lxss key gives the empty list. |
| WslServices.EntriesAppend | extensions/WSLExtension/Services/WslServicesMediator.cs:93-119 | The listing of two runs of subkeys is their two listings concatenated. Each subkey's entry depends on that subkey alone. |
| WslServices.SkippedSubKeyIsIgnored | extensions/WSLExtension/Services/WslServicesMediator.cs:95-108 | An unopenable subkey, or one without a name, leaves every other entry and their order unchanged. |
| WslServices.EntriesAreMarkedSurvivors | extensions/WSLExtension/Services/WslServicesMediator.cs:93-119 | The listing is the surviving subkeys, in enumeration order, each built and marked against the default. |
| WslServices.EntriesFollowSurvivors | extensions/WSLExtension/Services/WslServicesMediator.cs:93-119 | There is one entry per surviving subkey, and the i-th entry comes from the i-th survivor. |
| WslServices.EntriesAreNamedAndMarked | extensions/WSLExtension/Services/WslServicesMediator.cs:103-116 | Every entry has a non-empty name. It is the default iff the default value is a non-empty string equal, ignoring case, to its subkey name. |
| WslServices.AtMostOneDefault | extensions/WSLExtension/Services/WslServicesMediator.cs:110-116 | When the surviving subkeys' GUIDs are pairwise different ignoring case, at most one entry is the default. |
| WslServices.UnregisterDistribution | extensions/WSLExtension/Services/WslServicesMediator.cs:134-142 | Fails iff `wsl.exe` did not exit successfully or printed nothing. |
| WslServices.TerminateDistribution | extensions/WSLExtension/Services/WslServicesMediator.cs:162-170 | Fails iff `wsl.exe` did not exit successfully or printed nothing. |
| WslServices.MutationRejects | extensions/WSLExtension/Services/WslServicesMediator.cs:138 | The error condition shared by unregister (:138) and terminate (:166): the process did not exit successfully or printed nothing. A specification predicate without a contract of its own; `MutationStricterThanListing` relates it to the listing's. |
| WslServices.UnregisterRequest | extensions/WSLExtension/Services/WslServicesMediator.cs:136 | The process unregistering runs: `wsl.exe` with the unregister arguments, without a window. A specification function without a contract of its own; `UnregisterDistribution`'s contract is stated on the result of this request. |
| WslServices.TerminateRequest | extensions/WSLExtension/Services/WslServicesMediator.cs:164 | The process terminating runs: `wsl.exe` with the terminate arguments, without a window. A specification function without a contract of its own; `TerminateDistribution`'s contract is stated on the result of this request. |
| WslServices.MutationStricterThanListing | extensions/WSLExtension/Services/WslServicesMediator.cs:138 | Every process result that the unregister/terminate check accepts is accepted by the listing check. A successful exit with empty output is accepted only by the listing. |
| WslServices.GetFileNameForProcessLaunch | extensions/WSLExtension/Services/WslServicesMediator.cs:178-181 | The terminal shim iff the Windows Terminal package is installed, otherwise the command prompt. |
| WslServices.LaunchDistribution | extensions/WSLExtension/Services/WslServicesMediator.cs:145-159 | The profile arguments are used iff the first package query chose the shim and the profile is non-empty. They then go to the executable of the second query. The no-profile arguments go to the first choice. Both open a window. |
| WslServices.InstallDistribution | extensions/WSLExtension/Services/WslServicesMediator.cs:173-176 | Always the install arguments in a window. The executable is the shim iff the package is installed. |
| WslServices.LaunchAndInstallAgree | extensions/WSLExtension/Services/WslServicesMediator.cs:145-181 | While the package's presence is stable, profile arguments only go to the shim, and launch and install start the same executable. |
| WidgetHosting.ToInt32 | tools/Dashboard/DevHome.Dashboard/Services/WidgetHostingService.cs:21-22 | `unchecked((int)u)`: a signed 32-bit value congruent to `u` modulo 2^32. |
| WidgetHosting.IsRpcFailure | tools/Dashboard/DevHome.Dashboard/Services/WidgetHostingService.cs:40 | The `when` filter: a `COMException` whose HRESULT is `RpcServerUnavailable` (0x800706BA) or `RpcCallFailed` (0x800706BE). A specification predicate without a contract of its own. `FaultOf` classes exactly these outcomes as `Rpc`, and `Caught`, `ProbeCaught` and the step contracts state what such a fault does to the cache. |
| WidgetHosting.FaultOf | tools/Dashboard/DevHome.Dashboard/Services/WidgetHostingService.cs:40-52 | Which catch clause takes an exception: `Rpc` for one that `IsRpcFailure` selects (:40), `Other` for every other one (:49). A specification function without a contract of its own; the step contracts state what each fault does to the cache. |
| WidgetHosting.Caught | tools/Dashboard/DevHome.Dashboard/Services/WidgetHostingService.cs:40-52 | An RPC error nulls both handles. Any other exception leaves both as they are. |
| WidgetHosting.ProbeCaught | tools/Dashboard/DevHome.Dashboard/Services/WidgetHostingService.cs:107-118 | In the catalog probe, an RPC error nulls both handles. Another exception nulls only the catalog. |
| WidgetHosting.HostStep | tools/Dashboard/DevHome.Dashboard/Services/WidgetHostingService.cs:35-52 | One attempt on the host. A cached host is used as it is. Without one, a host is registered, and only then does `Register`'s outcome matter. A returning call ends the attempt with its value and the host cached. A failing call or registration retries with that fault. An RPC fault nulls both handles. Any other fault leaves the catalog alone, and it keeps the host cached, including one just registered. |
| WidgetHosting.HostLoop | tools/Dashboard/DevHome.Dashboard/Services/WidgetHostingService.cs:30-86 | The retry loop from a given attempt: at least one attempt runs while any remain, and never more than 3 in all. |
| WidgetHosting.HostStepIgnoresRegistrationWhenCached | tools/Dashboard/DevHome.Dashboard/Services/WidgetHostingService.cs:37 | `??=`: with a host cached, the outcome `Register` would have is never consulted. |
| WidgetHosting.HostLoopEndsAtReturningStep | tools/Dashboard/DevHome.Dashboard/Services/WidgetHostingService.cs:33-38 | The first attempt whose step returns ends the loop with that value and cache. A failed attempt goes on to the next one from the updated cache. |
| WidgetHosting.HostLoopCachedHostAnswers | tools/Dashboard/DevHome.Dashboard/Services/WidgetHostingService.cs:37-38 | A cached host whose call returns ends the loop at once with that answer, the cache unchanged. |
| WidgetHosting.HostLoopRegisteredHostAnswers | tools/Dashboard/DevHome.Dashboard/Services/WidgetHostingService.cs:37-38 | With no host cached, a registered host whose call returns ends the loop with that answer, and that host is cached. |
| WidgetHosting.HostLoopKeepsCachedHostWithoutRpc | tools/Dashboard/DevHome.Dashboard/Services/WidgetHostingService.cs:37-52 | When no call fails with an RPC error, a cached host stays cached to the end and the cache is unchanged. `Register`'s outcomes never matter. |
| WidgetHosting.HostLoopRegistersOnceWithoutRpc | tools/Dashboard/DevHome.Dashboard/Services/WidgetHostingService.cs:37-52 | When no call fails with an RPC error, a host is registered at most once. Once `Register` returned one, that host stays cached and later registration outcomes do not change the loop. |
| WidgetHosting.HostLoopOutcome | tools/Dashboard/DevHome.Dashboard/Services/WidgetHostingService.cs:30-86 | The body runs 1 to 3 times. `null` comes only after all 3 attempts. A value is the last attempt's result from the host, which stays cached. |
| WidgetHosting.HostLoopStopsAtSuccess | tools/Dashboard/DevHome.Dashboard/Services/WidgetHostingService.cs:37-38 | No attempt is made after a successful one: outcomes of later attempts do not change the call. |
| WidgetHosting.HostLoopNeverFetchesCatalog | tools/Dashboard/DevHome.Dashboard/Services/WidgetHostingService.cs:30-86 | A call on the host never installs a catalog; the cached one is kept or nulled. |
| WidgetHosting.CatalogStep | tools/Dashboard/DevHome.Dashboard/Services/WidgetHostingService.cs:134-151 | One attempt on the catalog. A cached catalog is used as it is. Without one, a catalog is fetched, and only then does `GetDefault`'s outcome matter. A returning call ends the attempt with its value and the catalog cached. A failing call or fetch retries with that fault. An RPC fault nulls both handles. Any other fault leaves the host alone, and it keeps the catalog cached, including one just fetched. |
| WidgetHosting.CatalogLoop | tools/Dashboard/DevHome.Dashboard/Services/WidgetHostingService.cs:129-221 | The retry loop from a given attempt: at least one attempt runs while any remain, and never more than 3 in all. |
| WidgetHosting.CatalogStepIgnoresFetchWhenCached | tools/Dashboard/DevHome.Dashboard/Services/WidgetHostingService.cs:136 | `??=`: with a catalog cached, the outcome `GetDefault` would have is never consulted. |
| WidgetHosting.CatalogLoopEndsAtReturningStep | tools/Dashboard/DevHome.Dashboard/Services/WidgetHostingService.cs:132-137 | The first attempt whose step returns ends the loop with that value and cache. A failed attempt goes on to the next one from the updated cache. |
| WidgetHosting.CatalogLoopCachedCatalogAnswers | tools/Dashboard/DevHome.Dashboard/Services/WidgetHostingService.cs:136-137 | A cached catalog whose call returns ends the loop at once with that answer, the cache unchanged. |
| WidgetHosting.CatalogLoopFetchedCatalogAnswers | tools/Dashboard/DevHome.Dashboard/Services/WidgetHostingService.cs:136-137 | With no catalog cached, a fetched catalog whose call returns ends the loop with that answer, and that catalog is cached. |
| WidgetHosting.CatalogLoopKeepsCachedCatalogWithoutRpc | tools/Dashboard/DevHome.Dashboard/Services/WidgetHostingService.cs:136-151 | When no call fails with an RPC error, a cached catalog stays cached to the end and the cache is unchanged. `GetDefault`'s outcomes never matter. |
| WidgetHosting.CatalogLoopFetchesOnceWithoutRpc | tools/Dashboard/DevHome.Dashboard/Services/WidgetHostingService.cs:136-151 | When no call fails with an RPC error, a catalog is fetched at most once. Once `GetDefault` returned one, that catalog stays cached and later fetch outcomes do not change the loop. |
| WidgetHosting.CatalogLoopOutcome | tools/Dashboard/DevHome.Dashboard/Services/WidgetHostingService.cs:129-221 | The body runs 1 to 3 times. "No value" comes only after all 3 attempts. A value is the last attempt's result from the catalog, which stays cached. |
| WidgetHosting.CatalogLoopNeverRegistersHost | tools/Dashboard/DevHome.Dashboard/Services/WidgetHostingService.cs:129-221 | A call on the catalog never installs a host; the cached one is kept or nulled. |
| WidgetHosting.ProbeStep | tools/Dashboard/DevHome.Dashboard/Services/WidgetHostingService.cs:97-118 | One attempt of the probe. A cached catalog is probed as it is. Without one, a catalog is fetched, and only then does `GetDefault`'s outcome matter. A returning `"fakeWidgetDefinitionId"` probe ends the attempt with that catalog, which is cached. A failure retries with its fault and leaves no catalog. |
| WidgetHosting.ProbeLoop | tools/Dashboard/DevHome.Dashboard/Services/WidgetHostingService.cs:92-122 | The retry loop from a given attempt: at least one attempt runs while any remain, never more than 3 in all, and the result is the catalog field as it stands at the end. |
| WidgetHosting.ProbeStepIgnoresFetchWhenCached | tools/Dashboard/DevHome.Dashboard/Services/WidgetHostingService.cs:99 | `??=`: with a catalog cached, the outcome `GetDefault` would have is never consulted. |
| WidgetHosting.ProbeLoopEndsAtReturningStep | tools/Dashboard/DevHome.Dashboard/Services/WidgetHostingService.cs:95-105 | The first attempt whose probe returns ends the loop with that catalog and cache. A failed attempt goes on to the next one from the updated cache. |
| WidgetHosting.ProbeLoopCachedCatalogAnswers | tools/Dashboard/DevHome.Dashboard/Services/WidgetHostingService.cs:99-105 | A cached catalog whose probe returns is returned at once, the cache unchanged. |
| WidgetHosting.ProbeLoopFetchedCatalogAnswers | tools/Dashboard/DevHome.Dashboard/Services/WidgetHostingService.cs:99-105 | With no catalog cached, a fetched catalog whose probe returns is cached and returned. |
| WidgetHosting.ProbeLoopOutcome | tools/Dashboard/DevHome.Dashboard/Services/WidgetHostingService.cs:92-122 | The returned catalog is always the cached one. It is non-null only if the probe on it succeeded at the last attempt made. `null` comes only after all 3 attempts. |
| WidgetHosting.ProbeLoopKeepsHostWithoutRpc | tools/Dashboard/DevHome.Dashboard/Services/WidgetHostingService.cs:107-118 | When no RPC error occurs, the probe loop leaves the host as it was. |
| WidgetHosting.WidgetHostingService.constructor | tools/Dashboard/DevHome.Dashboard/Services/WidgetHostingService.cs:17-18 | Both handles start `null`. |
| WidgetHosting.WidgetHostingService.RetryOnHost | tools/Dashboard/DevHome.Dashboard/Services/WidgetHostingService.cs:32-55 | The `while (attempt++ < MaxAttempts)` loop with `??=` and the catch clauses. Its result and final fields equal `HostLoop` from the fields on entry. |
| WidgetHosting.WidgetHostingService.RetryOnCatalog | tools/Dashboard/DevHome.Dashboard/Services/WidgetHostingService.cs:131-154 | The same loop on the catalog. Its result and final fields equal `CatalogLoop` from the fields on entry. |
| WidgetHosting.WidgetHostingService.GetWidgetsAsync | tools/Dashboard/DevHome.Dashboard/Services/WidgetHostingService.cs:30-56 | Returns the widgets, or `null` when attempts run out. The new fields are those of `HostLoop`. |
| WidgetHosting.WidgetHostingService.CreateWidgetAsync | tools/Dashboard/DevHome.Dashboard/Services/WidgetHostingService.cs:62-86 | Returns the new widget for the given id and size, or `null` when attempts run out. The new fields are those of `HostLoop`. |
| WidgetHosting.WidgetHostingService.GetWidgetCatalogAsync | tools/Dashboard/DevHome.Dashboard/Services/WidgetHostingService.cs:92-122 | Result and fields equal `ProbeLoop` from the entry fields. The result equals the cached catalog field. |
| WidgetHosting.WidgetHostingService.GetProviderDefinitionsAsync | tools/Dashboard/DevHome.Dashboard/Services/WidgetHostingService.cs:129-155 | Returns the provider definitions, or `[]` when attempts run out. The new fields are those of `CatalogLoop`. |
| WidgetHosting.WidgetHostingService.GetWidgetDefinitionsAsync | tools/Dashboard/DevHome.Dashboard/Services/WidgetHostingService.cs:162-188 | Returns the widget definitions, or `[]` when attempts run out. The new fields are those of `CatalogLoop`. |
| WidgetHosting.WidgetHostingService.GetWidgetDefinitionAsync | tools/Dashboard/DevHome.Dashboard/Services/WidgetHostingService.cs:195-221 | Returns the catalog's answer for the id (itself `null` for an unknown id), or `null` when attempts run out. The new fields are those of `CatalogLoop`. |

## Left out

- Real process creation, the Windows registry and `PackageHelper` are not modelled. They are inputs:
  - `run`, the result each process request would produce;
  - a registry snapshot;
  - one boolean per package query.
- `FormatArgs` and the constants file are not part of this model. Executables and argument lists are symbolic datatypes. `WslVersion2` is taken as 2, and no proof depends on its value.
- `ExitedSuccessfully()` is a boolean field of the process result. A `null` standard output is not distinguished from an empty one. So for a successful exit with `null` output, the source's `new StringReader(null)` at line 47 throws `ArgumentNullException`, while the model reads no lines and returns `Success({})`.
- The exception message texts, including the "Unable to launch" message in `UnregisterDistribution`, are not modelled. Every exception is the single value `WslServicesMediatorException`.
- Whether launched or installed processes succeed is not modelled: those calls are fire-and-forget. `LaunchDistribution` and `InstallDistribution` return the request they would start.
- `EqualsIgnoreCase`: case folding (`AsciiToUpper`) covers ASCII letters only, not the full invariant culture's upper-casing. Registry GUIDs are ASCII hex digits and braces.
- `GetAllRegisteredDistributions` builds each `WslRegisteredDistribution` as a value and sets `IsDefaultDistribution` through a field update. The source mutates a freshly allocated object that nothing else references, so no aliasing is lost.
- `LaunchDistribution`: line 154 asks again whether the Terminal package is present instead of reusing the executable chosen at line 147. The model takes both answers as inputs. `LaunchAndInstallAgree` holds only when they agree.
- The `Task.Run`/`await` offloading and concurrent callers sharing the cache fields are not modelled. Each public method is one sequential transition of the object.
- The COM objects, the `WidgetHostContext` GUID and `Register`'s argument are opaque. A handle is known only by its identity.
- `WidgetHost.Register` and `WidgetCatalog.GetDefault` are taken never to return `null`: a returned outcome always carries a handle. In the source a `null` would be stored by `??=`, and the next call on it would throw a `NullReferenceException` into the generic `catch`.
- Logging is not modelled.
- `GetWidgetsAsync` and the definition-list methods: a COM call returning a `null` array is not modelled. Those results are always sequences.
- `GetWidgetDefinitionAsync` does model the catalog answering `null` for an unknown id, as the inner `Option`.
