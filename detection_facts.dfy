/** What the detection predicates of src/detection.ts imply about each other
    and about the host: precedence, exclusions, implications and the values
    an empty global scope yields. */
module DetectionFacts {
  import opened Text
  import opened Js
  import opened Types
  import opened Utils
  import opened Detection
  import opened Info
  import opened VersionMatch

  // ---------------------------------------------------------------------------
  // Platform
  // ---------------------------------------------------------------------------

  /** The platform is the first truthy hint among `userAgentData.platform`,
      `navigator.platform` and `process.platform`, else `""`; an empty hint
      falls through to the next one. */
  lemma PlatformPrecedence(h: Host)
    ensures var a := Get(h, ["navigator", "userAgentData", "platform"]);
      var b := Get(h, ["navigator", "platform"]);
      var c := Get(h, ["process", "platform"]);
      && (Truthy(a) ==> Platform(h) == a.value)
      && (!Truthy(a) && Truthy(b) ==> Platform(h) == b.value)
      && (!Truthy(a) && !Truthy(b) && Truthy(c) ==> Platform(h) == c.value)
      && (!Truthy(a) && !Truthy(b) && !Truthy(c) ==> Platform(h) == Str(""))
    ensures Platform(h) == Str("") || Truthy(Some(Platform(h)))
  {
  }

  /** The empty string contains no non-empty string. */
  lemma EmptyContainsNothing(t: string)
    requires t != ""
    ensures !Contains("", t)
  {
    if Contains("", t) {
      ContainsLength("", t);
    }
  }

  /** Without any platform hint the platform tests cannot fire: Windows,
      FreeBSD and OpenBSD are false, and macOS, Linux, Android and iOS rest
      on the user agent alone. */
  lemma NoPlatformHints(h: Host)
    requires !Truthy(Get(h, ["navigator", "userAgentData", "platform"]))
    requires !Truthy(Get(h, ["navigator", "platform"]))
    requires !Truthy(Get(h, ["process", "platform"]))
    ensures Platform(h) == Str("")
    ensures !IsWindows(h) && !IsFreeBSD(h) && !IsOpenBSD(h)
    ensures IsMacOs(h) <==> UaIncludes(h, " Mac ")
    ensures IsLinux(h) <==> UaIncludes(h, " Linux ")
    ensures IsAndroid(h) <==> UaIncludes(h, " Android ")
    ensures IsIos(h) <==> AppleMobileToken(UserAgent(h))
  {
    EmptyContainsNothing("Win");
    EmptyContainsNothing("FreeBSD");
    EmptyContainsNothing("OpenBSD");
    EmptyContainsNothing("iPad");
    EmptyContainsNothing("iPhone");
    EmptyContainsNothing("iPod");
  }

  // ---------------------------------------------------------------------------
  // Browser engines
  // ---------------------------------------------------------------------------

  /** Outside a browser every engine predicate, isWebView, isDesktop and
      isTouchDevice are false, and getBrowserInfo is null. */
  lemma BrowserGate(h: Host)
    requires !IsBrowser(h)
    ensures !IsChrome(h) && !IsFirefox(h) && !IsSafari(h) && !IsEdge(h) && !IsOpera(h)
    ensures !IsWebView(h) && !IsDesktop(h) && !IsTouchDevice(h)
    ensures BrowserInfoOf(h) == None
  {
  }

  /** Chrome excludes Edge and Safari; Chrome and Opera overlap only through
      the `Opera` token, since `OPR` rules Chrome out. */
  lemma ChromeExclusions(h: Host)
    ensures !(IsChrome(h) && IsEdge(h))
    ensures !(IsChrome(h) && IsSafari(h))
    ensures IsChrome(h) && IsOpera(h) ==> UaIncludes(h, "Opera") && !UaIncludes(h, "OPR")
  {
  }

  /** isWebView holds in every browser whose `window.chrome` is falsy, so a
      browser without that property (Firefox, Safari) counts as a webview
      whatever its user agent says. */
  lemma WebViewWithoutWindowChrome(h: Host)
    requires IsBrowser(h) && !Truthy(Step(Global(h, "window"), "chrome"))
    ensures IsWebView(h)
  {
  }

  // ---------------------------------------------------------------------------
  // Device class
  // ---------------------------------------------------------------------------

  /** A desktop is a browser that is neither mobile nor a tablet. */
  lemma DesktopExcludesMobileAndTablet(h: Host)
    ensures IsDesktop(h) ==> IsBrowser(h) && !IsMobile(h) && !IsTablet(h)
  {
  }

  /** A tablet's user agent does not contain "mobile" in any letter case. */
  lemma TabletUserAgentNotMobile(h: Host)
    ensures IsTablet(h) ==> !UaIncludes(h, "mobile") && !UaIncludes(h, "MOBILE")
  {
    UserAgentIncludesIgnoresCase(h.globalThis, "mobile");
    UserAgentIncludesIgnoresCase(h.globalThis, "Mobile");
    assert Lower("Mobile") == "mobile";
    assert Upper("mobile") == "MOBILE";
  }

  /** Mobile and tablet are not exclusive: a browser whose user agent is
      `iPad` is both (the iPad token makes it iOS, hence mobile, and also a
      tablet, since `Mobile` is absent). */
  lemma IPadIsMobileAndTablet(h: Host)
    requires NavigatorUserAgent(h.globalThis) == Some(Str("iPad"))
    ensures IsMobile(h) && IsTablet(h)
  {
    ReadNavigatorUserAgent(h.globalThis);
    assert UserAgent(h) == Str("iPad");
    assert IsPrefix("iPad", "iPad");
    assert AppleMobileToken(UserAgent(h));
    assert Lower("iPad") == "ipad";
    assert IsPrefix("ipad", "ipad");
    assert UaIncludes(h, "iPad");
    if UaIncludes(h, "Mobile") {
      ContainsLength(Lower("iPad"), Lower("Mobile"));
    }
  }

  // ---------------------------------------------------------------------------
  // Development environment and architecture
  // ---------------------------------------------------------------------------

  /** NODE_ENV cannot be a development and a production value at once. */
  lemma DevelopmentExcludesProduction(h: Host)
    ensures !(IsDevelopment(h) && IsProduction(h))
  {
  }

  /** A defined JEST_WORKER_ID, VITEST or MOCHA variable makes isTest true,
      whatever NODE_ENV is. */
  lemma TestRunnerMarkers(h: Host)
    ensures GetEnvVar(h.globalThis, "JEST_WORKER_ID").Some? ==> IsTest(h)
    ensures GetEnvVar(h.globalThis, "VITEST").Some? ==> IsTest(h)
    ensures GetEnvVar(h.globalThis, "MOCHA").Some? ==> IsTest(h)
  {
    GetEnvVarEntry(h.globalThis, "JEST_WORKER_ID");
    GetEnvVarEntry(h.globalThis, "VITEST");
    GetEnvVarEntry(h.globalThis, "MOCHA");
  }

  /** x64 and arm64 are 64-bit, and not 32-bit. */
  lemma WideArchitectures(h: Host)
    ensures IsX64(h) || IsArm64(h) ==> Is64Bit(h)
    ensures IsX64(h) || IsArm64(h) ==> !Is32Bit(h)
  {
    if IsX64(h) || IsArm64(h) {
      NoThirtyTwo(Arch(h).s);
    }
  }

  /** None of the 64-bit architecture names contains `32`. */
  lemma NoThirtyTwo(a: string)
    requires a == "x64" || a == "x86_64" || a == "arm64" || a == "aarch64"
    ensures !Contains(a, "32")
  {
    assert '3' !in a;
    NotContainsWithoutChar(a, "32", 0);
  }

  /** An empty (or missing) `process.arch` makes all four architecture
      predicates false. */
  lemma EmptyArch(h: Host)
    requires Arch(h) == Str("")
    ensures !IsArm64(h) && !IsX64(h) && !Is32Bit(h) && !Is64Bit(h)
  {
    EmptyContainsNothing("32");
    EmptyContainsNothing("64");
  }

  // ---------------------------------------------------------------------------
  // Node, Bun, Electron and edge runtimes
  // ---------------------------------------------------------------------------

  /** Under isNode a present Bun or Electron marker is a falsy value (`""` or
      `0`); that is the only way isNode can hold together with isBun or
      isElectron. */
  lemma NodeExcludesMarkers(h: Host)
    requires IsNode(h)
    ensures IsBun(h) ==> Get(h, ["process", "versions", "bun"]).value in {Str(""), Num(0)}
    ensures IsElectron(h) ==> Get(h, ["process", "versions", "electron"]).value in {Str(""), Num(0)}
  {
  }

  /** The Vercel and Netlify edge runtimes are never Node. */
  lemma EdgeRuntimesAreNotNode(h: Host)
    ensures IsVercelEdge(h) ==> !IsNode(h)
    ensures IsNetlifyEdge(h) ==> !IsNode(h)
  {
  }

  // ---------------------------------------------------------------------------
  // An empty global scope
  // ---------------------------------------------------------------------------

  /** With nothing in the global scope the runtime predicates are false. */
  lemma EmptyScopeRuntimes(h: Host)
    requires h.globalThis == Obj(map[])
    ensures !IsBrowser(h) && !IsNode(h) && !IsBun(h) && !IsDeno(h) && !IsElectron(h)
    ensures !IsJsDom(h) && !IsReactNative(h) && !IsWebView(h)
    ensures !IsCloudflareWorkers(h) && !IsVercelEdge(h) && !IsNetlifyEdge(h)
  {
  }

  /** With nothing in the global scope platform and arch are `""` and no
      operating-system or architecture predicate holds. */
  lemma EmptyScopeSystem(h: Host)
    requires h.globalThis == Obj(map[])
    ensures Platform(h) == Str("") && Arch(h) == Str("") && UserAgent(h) == Str("")
    ensures !IsMacOs(h) && !IsWindows(h) && !IsLinux(h) && !IsIos(h) && !IsAndroid(h)
    ensures !IsFreeBSD(h) && !IsOpenBSD(h)
    ensures !IsArm64(h) && !IsX64(h) && !Is32Bit(h) && !Is64Bit(h)
  {
    EmptyContainsNothing("Win");
    EmptyContainsNothing("FreeBSD");
    EmptyContainsNothing("OpenBSD");
    EmptyContainsNothing("iPad");
    EmptyContainsNothing("iPhone");
    EmptyContainsNothing("iPod");
    EmptyContainsNothing("32");
    EmptyContainsNothing("64");
  }

  /** With nothing in the global scope no environment flag is set and no
      Node version or browser information is reported. */
  lemma EmptyScopeEnvironment(h: Host)
    requires h.globalThis == Obj(map[])
    ensures !IsDevelopment(h) && !IsProduction(h) && !IsTest(h) && !IsCI(h) && !IsDocker(h)
    ensures !IsMobile(h) && !IsTablet(h) && !IsDesktop(h) && !IsTouchDevice(h)
    ensures GetNodeVersion(h) == None && BrowserInfoOf(h) == None
  {
  }

  // ---------------------------------------------------------------------------
  // A Node host and a Chrome user agent
  // ---------------------------------------------------------------------------

  /** A Node host reporting `20.5.0` with no Electron or Bun marker is Node
      and neither Bun nor Electron, and its version parses to 20, 5, 0. */
  lemma NodeHostExample(h: Host)
    requires Get(h, ["process", "versions", "node"]) == Some(Str("20.5.0"))
    requires Get(h, ["process", "versions", "electron"]).None?
    requires Get(h, ["process", "versions", "bun"]).None?
    ensures IsNode(h) && !IsBun(h) && !IsElectron(h)
    ensures GetNodeVersion(h) == Some(NodeVersionInfo(20, 5, 0, "20.5.0"))
  {
    assert Decimal(20) == "20" && Decimal(5) == "5" && Decimal(0) == "0";
    ParseVersionRoundTrip(20, 5, 0, "");
    assert "20" + "." + "5" + "." + ("0" + "") == "20.5.0";
  }

  /** A browser whose user agent has the Chrome token and neither Edg nor
      OPR is Chrome, not Safari and not Edge, and getBrowserInfo reports
      Chrome on Blink with the version after `Chrome/`. */
  lemma ChromeByTokens(h: Host)
    requires IsBrowser(h)
    requires UaIncludes(h, "Chrome") && !UaIncludes(h, "Edg") && !UaIncludes(h, "OPR")
    ensures IsChrome(h) && !IsSafari(h) && !IsEdge(h)
    ensures BrowserInfoOf(h) == Some(BrowserInfo("Chrome", CapturedVersion(UserAgentText(h), ["Chrome"]), "Blink"))
  {
    ChooseChain(true, IsFirefox(h), IsSafari(h), IsEdge(h), IsOpera(h), UserAgentText(h));
  }
}
