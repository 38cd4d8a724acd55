# Environment detection, modelled in Dafny

This project models the detection core of the *environment-latest* TypeScript
library: the helpers of `src/utils.ts` (`safeGet`, `hasGlobalObject`,
`userAgentIncludes`, `getEnvVar`, `parseVersion`) and the predicate catalogue
and informational functions of `src/detection.ts` (every `is*` constant, the
`platform`, `userAgent` and `arch` constants, `getNodeVersion`,
`getBrowserInfo` and `getSystemInfo`).

The library reads whatever the host puts in its global scope. The model makes
that scope an explicit input: a `Host` holds `globalThis` as a tree of
JavaScript values (`Js.Value`: objects, strings, integers and `null`; a missing
property is `None`, i.e. `undefined`). It also holds the four booleans that
`self instanceof WorkerGlobalScope` and its three relatives evaluate to. Every
exported constant of `src/detection.ts` becomes a function of the `Host`. Each
one reads the tree the same way and in the same order as the source. Where the
source calls a string method (`includes`, `startsWith`) on a value that may not
be a string, the call would throw and the surrounding `try` returns `false`;
the model spells out that case.

Modules, in dependency order:

- `Text` (`text.dfy`): ASCII `toLowerCase`/`toUpperCase`, `includes` as a
  left-to-right scan with its "there is an occurrence" characterisation, and
  JavaScript `split` on one character, with the `Join`/`Split` round trips.
- `Js` (`js.dfy`): the value tree, truthiness, `?.[key]`, and the relational
  comparisons the predicates use (`null` is 0, anything else that is not a
  number is NaN).
- `Types` (`types.dfy`): the records of `src/types.ts`.
- `Utils` (`utils.dfy`): `src/utils.ts`. `Resolve` is the `reduce` fold that
  `safeGet` runs over its split path; `ReadPath` adds the `?? defaultValue`.
- `VersionMatch` (`version_match.dfy`): the version regular expressions of
  getBrowserInfo, `/T\/([0-9.]+)/` and `/(?:T1|T2)\/([0-9.]+)/`. A match is
  leftmost, tries the alternatives in order, and the greedy group takes the
  longest run of digits and dots.
- `Detection` (`detection.dfy`): the predicate catalogue.
- `Info` (`info.dfy`): getNodeVersion, getBrowserInfo and getSystemInfo.
  getBrowserInfo and getSystemInfo change local state step by step in the
  source, so they are methods. Each is proved against a specification
  function: getBrowserInfo against the priority table `Choose`/`BrowserInfoOf`,
  getSystemInfo against the predicates and functions it combines.
- `DetectionFacts` (`detection_facts.dfy`): implications and exclusions
  between the predicates, and what an empty global scope yields.

The predicates in `Detection` are plain definitions with no contract, so they
have no row in the table. They correspond to the source as follows:
`IsBrowser` 16-26, `IsNode` 28-39, `IsBun` 41-50, `IsDeno` 52-61, `IsElectron`
63-72, `IsJsDom` 74-80, `IsReactNative` 82-92, `IsWebView` 94-105,
`IsCloudflareWorkers` 108-119, `IsVercelEdge` 121-131, `IsNetlifyEdge`
133-141, the worker predicates 144-190, `Platform` 193-197, `UserAgent` 199,
`IsMacOs` 201-212, `IsWindows` 214-225, `IsLinux` 227-238, `IsIos` 240-254,
`IsAndroid` 256-266, `IsFreeBSD` 268-277, `IsOpenBSD` 279-288, `Arch` 291,
`IsArm64` 293-299, `IsX64` 301-307, `Is32Bit` 309-315, `Is64Bit` 317-323,
`IsDevelopment` 326-333, `IsProduction` 335-342, `IsTest` 344-356, `IsCI`
358-372, `IsDocker` 374-382, `IsChrome` 385-396, `IsFirefox` 398-404,
`IsSafari` 406-417, `IsEdge` 419-425, `IsOpera` 427-435, `IsMobile` 438-449,
`IsTablet` 451-462, `IsDesktop` 464-470, `IsTouchDevice` 472-480. All of these
are lines of `src/detection.ts`. Other definitions without a contract of
their own, in `src/utils.ts`:
- `Utils.HasGlobalObject`: 38-48
- `Utils.UserAgentIncludes`: 73-83
- `Utils.Resolve`: 16
- `Text.Contains`: `.includes`, 78
- `Utils.DecimalValue`, `Utils.SegmentValue`, `Utils.SegmentAt`: 61-65

In `src/detection.ts`:
- `VersionMatch.CapturedVersion`: `match ? match[1] : ''`, 505-526
- `Info.Choose` and `Info.BrowserInfoOf`: 494-533

`Detection.Get` takes the segments of the dotted path the source passes to
`safeGet` (`["process", "versions", "node"]` for
`'process.versions.node'`). `Utils.SafeGetDottedPath` proves that reading the
segments is the same as `safeGet` on the dotted string. `Detection.Env` is
`getEnvVar`, through `Utils.GetEnvVarEntry`.

## Model

| member | source | states |
|---|---|---|
| `Text.Lower` | src/utils.ts:78 | `toLowerCase` keeps the length and lower-cases every character independently |
| `Text.LowerIdempotent` | src/utils.ts:78 | lower-casing twice is lower-casing once |
| `Text.LowerOfUpper` | src/utils.ts:78 | lower-casing forgets an earlier upper-casing, so `userAgentIncludes` cannot tell the search's case apart |
| `Text.ContainsIff` | src/utils.ts:78 | the `includes` scan is true exactly when the search occurs at some index |
| `Text.ContainsEmpty` | src/utils.ts:78 | every string includes `""` |
| `Text.ContainsLength` | src/utils.ts:78 | a string that includes `t` is at least as long as `t` |
| `Text.NotContainsWithoutChar` | src/detection.ts:311 | a string missing one of `t`'s characters does not include `t` |
| `Text.Split` | src/utils.ts:16 | `split('.')` yields at least one piece and no piece contains the separator |
| `Text.JoinOfSplit` | src/utils.ts:16 | joining the pieces of a split with the separator gives back the string |
| `Text.SplitOfJoin` | src/utils.ts:60 | splitting a join of separator-free pieces gives back the pieces |
| `Text.SplitNoSeparator` | src/utils.ts:60 | a string without the separator splits into itself alone |
| `Text.SplitAround` | src/utils.ts:16 | splitting around one separator splits each side independently |
| `Text.SplitPath2` | src/utils.ts:16 | `a.b` with dot-free parts splits into `[a, b]` |
| `Text.SplitPath3` | src/utils.ts:90 | `a.b.c` with dot-free parts splits into `[a, b, c]` |
| `Js.Step` | src/utils.ts:16 | `current?.[key]` is defined only on an object that has the key |
| `Utils.ReadPath` | src/utils.ts:15-17 | the fold's result, with `null`/`undefined` replaced by the default: either the default or a present non-null value |
| `Utils.SafeGet` | src/utils.ts:9-22 | `safeGet` never yields `null` in place of the default: either the default or a present non-null value |
| `Utils.SafeGetDottedPath` | src/utils.ts:16 | `safeGet` on a dotted path of dot-free segments reads exactly those segments |
| `Utils.ResolveUndefined` | src/utils.ts:16 | once the fold reaches `undefined` it stays `undefined` |
| `Utils.ResolveAppend` | src/utils.ts:16 | folding `a + b` is folding `b` from where `a` ends |
| `Utils.SafeGetFound` | src/utils.ts:15-17 | when every segment is present and the value is not `null`, safeGet yields that value |
| `Utils.SafeGetMissingSegment` | src/utils.ts:15-17 | as soon as one segment is absent, safeGet yields the default |
| `Utils.SafeGetNull` | src/utils.ts:15-17 | a `null` at the end of the path yields the default |
| `Utils.SafeGetEmptyScope` | src/utils.ts:14-21 | on an empty object every path yields the default |
| `Utils.UserAgentIncludesIgnoresCase` | src/utils.ts:73-83 | the search's case never changes the result, and `""` is found exactly when a user-agent string exists |
| `Utils.UserAgentIncludesWitness` | src/utils.ts:73-83 | a true test implies `navigator.userAgent` is a string at least as long as the search |
| `Utils.ReadNavigatorUserAgent` | src/detection.ts:199 | `safeGet(globalThis, 'navigator.userAgent')` is the property read directly, with `null` read as `undefined` |
| `Utils.GetEnvVar` | src/utils.ts:88-94 | getEnvVar never yields `null` |
| `Utils.EnvEntry` | src/utils.ts:88-94 | a present environment entry implies `process.env` is an object |
| `Utils.GetEnvVarEntry` | src/utils.ts:88-94 | for a dot-free name, getEnvVar is the entry of `process.env`, and `undefined` when `process`, `process.env` or the entry is missing |
| `Utils.LeadingDigits` | src/utils.ts:61 | `part.split(/[^0-9]/)[0]` is the longest all-digit prefix |
| `Utils.ParseVersion` | src/utils.ts:66 | `raw` is the input, unchanged |
| `Utils.DecimalValueOfDecimal` | src/utils.ts:61 | `parseInt` of the decimal rendering of `n` is `n` |
| `Utils.LeadingDigitsAppend` | src/utils.ts:61 | the leading digits of digits-then-text are those digits followed by the text's leading digits |
| `Utils.SegmentValueCases` | src/utils.ts:61 | a segment that is empty or starts with a non-digit is 0; a number followed by a non-digit suffix is that number |
| `Utils.SegmentValueOfDecimal` | src/utils.ts:61 | a segment that is the rendering of `n` is worth `n` |
| `Utils.ParseVersionSegments` | src/utils.ts:59-65 | major, minor and patch are the values of the first three segments, 0 where a segment is missing; later segments are ignored |
| `Utils.ParseVersionThree` | src/utils.ts:59-65 | for `x.y.z` with dot-free parts the fields are the values of `x`, `y` and `z` |
| `Utils.ParseVersionRoundTrip` | src/utils.ts:59-65 | parsing the rendering `a.b.c` (with an optional non-digit suffix on the patch) gives back a, b and c |
| `Utils.ParseVersionSingleSegment` | src/utils.ts:62-65 | a version without dots has minor and patch 0 |
| `Utils.ParseVersionExampleRelease` | src/utils.ts:59-67 | `"18.17.1"` parses to 18, 17, 1 |
| `Utils.ParseVersionExamplePrerelease` | src/utils.ts:59-67 | `"1.2.3-beta"` parses to 1, 2, 3 |
| `Utils.ParseVersionExampleMajorOnly` | src/utils.ts:59-67 | `"16"` parses to 16, 0, 0 |
| `Utils.ParseVersionExamplePrefixed` | src/utils.ts:59-67 | `"v18"` parses to 0, 0, 0 |
| `VersionMatch.FirstAlt` | src/detection.ts:525 | the first alternative, in order, that matches at an index, or none that does |
| `VersionMatch.RunEnd` | src/detection.ts:505 | the greedy `[0-9.]+` run ends at the first character that is not a digit or a dot |
| `VersionMatch.RunEndAt` | src/detection.ts:505 | any maximal run of digits and dots is the one the greedy group takes |
| `VersionMatch.Search` | src/detection.ts:505-526 | the match found is the leftmost, by the first alternative matching there, and its group is the greedy run after the `/`; no match means no index matches |
| `VersionMatch.CapturedVersionShape` | src/detection.ts:505-526 | the captured version is `""` exactly when nothing matches; otherwise a non-empty run of digits and dots right after a token and `/`, at the leftmost matching index |
| `VersionMatch.ChromeVersionExample` | src/detection.ts:505-506 | `Chrome/119.0 Safari` yields `119.0` |
| `VersionMatch.OperaVersionExample` | src/detection.ts:525-526 | `Opera/9.80 Version/12` yields `9.80` through the second alternative |
| `Info.GetNodeVersion` | src/detection.ts:483-492 | a version exactly when Node is detected and the marker is a non-empty string, and then parseVersion of that string |
| `Info.NodeVersionOfRelease` | src/detection.ts:483-492 | a Node host reporting `a.b.c` yields a, b and c |
| `Info.FirstTrue` | src/detection.ts:502-527 | the index of the first set flag, every earlier flag clear; none when all are clear |
| `Info.FirstTrueOfFive` | src/detection.ts:502-527 | over five flags, the first-set index is the if/else-if chain |
| `Info.ChooseChain` | src/detection.ts:498-527 | the priority table agrees with the source's if/else-if chain, branch by branch |
| `Info.GetBrowserInfo` | src/detection.ts:494-533 | the method that reassigns name, version and engine returns exactly the table's result |
| `Info.DetectedBrowserHasUserAgent` | src/detection.ts:199 | whenever an engine predicate holds, the `userAgent` constant is the string `navigator.userAgent`, so the version patterns see it |
| `Info.BrowserInfoPresence` | src/detection.ts:496 | null exactly outside a browser |
| `Info.ChoosePairs` | src/detection.ts:498-527 | name and engine come from the fixed pairs Chrome/Blink, Firefox/Gecko, Safari/WebKit, Edge/Blink, Opera/Blink, Unknown/Unknown |
| `Info.ChoosePriority` | src/detection.ts:502-527 | each name is chosen exactly when its flag is set and no earlier one is; Unknown, with an empty version, when none is |
| `Info.BrowserInfoPriority` | src/detection.ts:502-527 | the same, in a browser, for the five engine predicates in the order Chrome, Firefox, Safari, Edge, Opera |
| `Info.ChooseVersion` | src/detection.ts:505-526 | the version is `""` exactly when the chosen browser's pattern does not match, and otherwise digits and dots right after that browser's token and `/` |
| `Info.GetSystemInfo` | src/detection.ts:535-564 | platform and arch default to "Unknown" when empty; nodeVersion is getNodeVersion; browserInfo and userAgent are set exactly in a browser |
| `DetectionFacts.PlatformPrecedence` | src/detection.ts:193-197 | the platform is the first truthy hint, else `""`; empty hints fall through |
| `DetectionFacts.EmptyContainsNothing` | src/detection.ts:219 | `""` includes no non-empty string |
| `DetectionFacts.NoPlatformHints` | src/detection.ts:193-288 | with no platform hint, Windows, FreeBSD and OpenBSD are false, and macOS, Linux, Android and iOS rest on the user agent alone |
| `DetectionFacts.BrowserGate` | src/detection.ts:388-480 | outside a browser every engine predicate, isWebView, isDesktop and isTouchDevice are false, and getBrowserInfo is null |
| `DetectionFacts.ChromeExclusions` | src/detection.ts:385-435 | Chrome excludes Edge and Safari; Chrome and Opera overlap only through the `Opera` token |
| `DetectionFacts.WebViewWithoutWindowChrome` | src/detection.ts:94-105 | every browser whose `window.chrome` is falsy counts as a webview |
| `DetectionFacts.DesktopExcludesMobileAndTablet` | src/detection.ts:464-470 | isDesktop implies a browser that is neither mobile nor tablet |
| `DetectionFacts.TabletUserAgentNotMobile` | src/detection.ts:451-462 | a tablet's user agent does not contain "mobile" in any case |
| `DetectionFacts.IPadIsMobileAndTablet` | src/detection.ts:438-462 | a user agent `iPad` makes the host both mobile and tablet |
| `DetectionFacts.DevelopmentExcludesProduction` | src/detection.ts:326-342 | isDevelopment and isProduction never both hold |
| `DetectionFacts.TestRunnerMarkers` | src/detection.ts:344-356 | a defined JEST_WORKER_ID, VITEST or MOCHA makes isTest true, whatever NODE_ENV is |
| `DetectionFacts.WideArchitectures` | src/detection.ts:293-323 | x64 and arm64 are 64-bit and not 32-bit |
| `DetectionFacts.NoThirtyTwo` | src/detection.ts:311 | none of the x64 and arm64 names contains `32` |
| `DetectionFacts.EmptyArch` | src/detection.ts:291-323 | an empty arch makes all four architecture predicates false |
| `DetectionFacts.NodeExcludesMarkers` | src/detection.ts:28-72 | under isNode a present Bun or Electron marker is `""` or `0` |
| `DetectionFacts.EdgeRuntimesAreNotNode` | src/detection.ts:121-141 | the Vercel and Netlify edge runtimes are never Node |
| `DetectionFacts.EmptyScopeRuntimes` | src/detection.ts:16-141 | an empty global scope makes every runtime predicate false |
| `DetectionFacts.EmptyScopeSystem` | src/detection.ts:193-323 | an empty global scope gives `""` platform, arch and user agent, and no OS or architecture predicate |
| `DetectionFacts.EmptyScopeEnvironment` | src/detection.ts:326-492 | an empty global scope sets no environment or device flag and reports no Node version or browser information |
| `DetectionFacts.NodeHostExample` | src/detection.ts:28-39 | a Node host reporting `20.5.0` and no other marker is Node, not Bun or Electron, with version 20, 5, 0 |
| `DetectionFacts.ChromeByTokens` | src/detection.ts:385-396 | a browser with the Chrome token and neither Edg nor OPR is Chrome, not Safari and not Edge, and reports Chrome/Blink with the Chrome version |

## Left out

- `isFeatureSupported` (src/utils.ts:99-142) and `src/capabilities.ts`: they probe live host APIs (storage, a canvas rendering context, WebAssembly, media devices). Nothing about them can be stated beyond "true if the API exists".
- `hasGlobal` (src/utils.ts:27-33): no detection predicate uses it.
- `detectEnvironment` in `src/index.ts`: it only copies computed values and capability probes into a record.
- The worker predicates: `self instanceof ...` is taken as four booleans of the `Host`, because the prototype chain is not modelled.
- Values are objects, strings, integers and `null`. Functions, arrays, booleans, symbols, getters, prototypes and floating-point numbers are not modelled. So `current?.[key]` on a string or number primitive (which reads its properties, like `length`) yields `undefined` here.
- The relational comparisons (`maxTouchPoints > 1`, `innerWidth <= 768`) treat a string as NaN. JavaScript would convert a numeric string to a number.
- A `.includes` or `startsWith` call on a non-string is taken to throw, so the predicate is false. An object that happens to carry such a method is not modelled. Likewise `/iPad|iPhone|iPod/.test(v)` on a non-string is false: `String(v)` of `null`, a number or a plain object never contains those tokens, but a custom `toString` is not modelled.
- Utils.ParseVersion: `parseInt` is exact on arbitrarily long digit runs here, whereas JavaScript loses precision beyond 2^53.
- Text.Lower: only ASCII letters are case-folded; Unicode `toLowerCase` is not modelled.
- In a browser `window === globalThis`, a cycle that the `Host`'s value tree cannot hold. There `globalThis.window` is a tree of its own. The model's hosts therefore include every real host and more, and no lemma relies on the two being the same object.
- The predicates are module-level constants computed once when the module loads. Here each is a function of the `Host`, which gives the same values for a host that does not change.
- Utils.GetEnvVarEntry: requires a variable name without dots. For a dotted name getEnvVar walks deeper into `process.env`; `GetEnvVar` itself still models that case.
- The `catch` branch of getBrowserInfo: `userAgent.match` cannot throw, because whenever an engine predicate holds the user agent is a string (`Info.DetectedBrowserHasUserAgent`). The `catch` of getSystemInfo cannot be reached either.

## Behaviour of the code worth knowing

- isNode tests `process.versions.electron` and `process.versions.bun` for truthiness. A marker that is `""` or `0` therefore still allows isNode, and isNode and isBun can then both hold (`DetectionFacts.NodeExcludesMarkers`).
- src/types.ts:82-88 declares SystemInfo's `platform`, `arch` and `userAgent` as `string`. getSystemInfo stores whatever truthy value the host provided there, so in the model they are `Js.Value`s.
- iOS is detected from the user agent even when no platform hint exists (`DetectionFacts.NoPlatformHints`).
