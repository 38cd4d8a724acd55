/** The predicate catalogue of src/detection.ts. Each exported constant is a
    function of the host, evaluated from the host's global scope in the same
    way and in the same order as the source. Where the source calls a string
    method on a value that is not a string, the call throws and the
    surrounding `try` makes the predicate false; the definitions below say
    so case by case. */
module Detection {
  import opened Text
  import opened Js
  import opened Utils

  /** A host: its global scope (`globalThis`), and what `self instanceof
      WorkerGlobalScope` and its three relatives evaluate to. */
  datatype Host = Host(
    globalThis: Value,
    selfIsWorkerScope: bool,
    selfIsDedicatedWorkerScope: bool,
    selfIsSharedWorkerScope: bool,
    selfIsServiceWorkerScope: bool)

  /** The global binding `name` (`undefined` when absent). */
  function Global(h: Host, name: string): Option<Value> { Step(Some(h.globalThis), name) }

  /** `typeof x !== 'undefined'`. */
  predicate Defined(v: Option<Value>) { v.Some? }

  /** `safeGet(globalThis, path)`, given the path's segments
      (`Utils.SafeGetDottedPath` relates it to the dotted string). The
      segment lists spare the verifier from unfolding `Split` on string
      literals; `Env` and `UserAgent` below read the same way, bridged to
      `Utils.GetEnvVar` and `Utils.NavigatorUserAgent` by
      `Utils.GetEnvVarEntry` and `Utils.ReadNavigatorUserAgent`. */
  function Get(h: Host, path: seq<string>): Option<Value> { ReadPath(h.globalThis, path, None) }

  /** `getEnvVar(name)` (equal to it by `Utils.GetEnvVarEntry`). */
  function Env(h: Host, name: string): Option<Value> { EnvEntry(h.globalThis, name) }

  predicate UaIncludes(h: Host, search: string) { UserAgentIncludes(h.globalThis, search) }

  /** `a || b` for values read through safeGet. */
  function Or(a: Option<Value>, b: Value): Value { if Truthy(a) then a.value else b }

  // ---------------------------------------------------------------------------
  // Core runtimes
  // ---------------------------------------------------------------------------

  predicate IsBrowser(h: Host)
  {
    Defined(Global(h, "window")) && Defined(Global(h, "document"))
    && Defined(Step(Global(h, "window"), "document"))
  }

  predicate IsNode(h: Host)
  {
    Get(h, ["process", "versions", "node"]).Some?
    && !Truthy(Get(h, ["process", "versions", "electron"]))
    && !Truthy(Get(h, ["process", "versions", "bun"]))
  }

  predicate IsBun(h: Host) { Get(h, ["process", "versions", "bun"]).Some? }

  predicate IsDeno(h: Host) { HasGlobalObject(h.globalThis, "Deno") && Get(h, ["Deno", "version", "deno"]).Some? }

  predicate IsElectron(h: Host) { Get(h, ["process", "versions", "electron"]).Some? }

  predicate IsJsDom(h: Host) { Defined(Global(h, "navigator")) && UaIncludes(h, "jsdom") }

  predicate IsReactNative(h: Host) { Step(Global(h, "navigator"), "product") == Some(Str("ReactNative")) }

  predicate IsWebView(h: Host)
  {
    IsBrowser(h)
    && (UaIncludes(h, "wv") || UaIncludes(h, "webview")
        || (Defined(Global(h, "window")) && !Truthy(Step(Global(h, "window"), "chrome"))))
  }

  // ---------------------------------------------------------------------------
  // Edge runtimes and workers
  // ---------------------------------------------------------------------------

  predicate IsCloudflareWorkers(h: Host)
  {
    HasGlobalObject(h.globalThis, "caches") && HasGlobalObject(h.globalThis, "addEventListener")
    && !HasGlobalObject(h.globalThis, "window") && !HasGlobalObject(h.globalThis, "document")
  }

  predicate IsVercelEdge(h: Host)
  {
    Env(h, "VERCEL") == Some(Str("1")) && Env(h, "VERCEL_REGION").Some? && !IsNode(h)
  }

  predicate IsNetlifyEdge(h: Host)
  {
    Env(h, "NETLIFY") == Some(Str("true")) && HasGlobalObject(h.globalThis, "Netlify") && !IsNode(h)
  }

  predicate IsWebWorker(h: Host) { h.selfIsWorkerScope }
  predicate IsDedicatedWorker(h: Host) { h.selfIsDedicatedWorkerScope }
  predicate IsSharedWorker(h: Host) { h.selfIsSharedWorkerScope }
  predicate IsServiceWorker(h: Host) { h.selfIsServiceWorkerScope }

  // ---------------------------------------------------------------------------
  // Operating systems
  // ---------------------------------------------------------------------------

  /** The `platform` constant: the first truthy hint, else `''`. */
  function Platform(h: Host): Value
  {
    Or(Get(h, ["navigator", "userAgentData", "platform"]),
      Or(Get(h, ["navigator", "platform"]),
        Or(Get(h, ["process", "platform"]), Str(""))))
  }

  /** The `userAgent` constant: `safeGet(globalThis, 'navigator.userAgent') || ''`. */
  function UserAgent(h: Host): Value { Or(Get(h, ["navigator", "userAgent"]), Str("")) }

  function ProcessPlatform(h: Host): Option<Value> { Get(h, ["process", "platform"]) }

  /** `/iPad|iPhone|iPod/.test(v)`. */
  predicate AppleMobileToken(v: Value)
  {
    match v
    case Str(s) => Contains(s, "iPad") || Contains(s, "iPhone") || Contains(s, "iPod")
    case _ => false
  }

  predicate IsMacOs(h: Host)
  {
    Platform(h) == Str("macOS") || Platform(h) == Str("MacIntel")
    || UaIncludes(h, " Mac ") || ProcessPlatform(h) == Some(Str("darwin"))
  }

  predicate IsWindows(h: Host)
  {
    Platform(h) == Str("Windows") || Platform(h) == Str("Win32")
    || match Platform(h)
       case Str(p) => Contains(p, "Win") || ProcessPlatform(h) == Some(Str("win32"))
       case _ => false  // `platform.includes` throws
  }

  predicate IsLinux(h: Host)
  {
    Platform(h) == Str("Linux")
    || match Platform(h)
       case Str(p) => IsPrefix("Linux", p) || UaIncludes(h, " Linux ") || ProcessPlatform(h) == Some(Str("linux"))
       case _ => false  // `platform.startsWith` throws
  }

  predicate IsIos(h: Host)
  {
    Platform(h) == Str("iOS")
    || (Platform(h) == Str("MacIntel") && Above(Get(h, ["navigator", "maxTouchPoints"]), 1))
    || AppleMobileToken(Platform(h))
    || AppleMobileToken(UserAgent(h))
  }

  predicate IsAndroid(h: Host)
  {
    Platform(h) == Str("Android") || UaIncludes(h, " Android ") || ProcessPlatform(h) == Some(Str("android"))
  }

  predicate IsFreeBSD(h: Host)
  {
    ProcessPlatform(h) == Some(Str("freebsd"))
    || match Platform(h)
       case Str(p) => Contains(p, "FreeBSD")
       case _ => false
  }

  predicate IsOpenBSD(h: Host)
  {
    ProcessPlatform(h) == Some(Str("openbsd"))
    || match Platform(h)
       case Str(p) => Contains(p, "OpenBSD")
       case _ => false
  }

  // ---------------------------------------------------------------------------
  // Architecture
  // ---------------------------------------------------------------------------

  /** The `arch` constant: `safeGet(globalThis, 'process.arch') || ''`. */
  function Arch(h: Host): Value { Or(Get(h, ["process", "arch"]), Str("")) }

  predicate IsArm64(h: Host) { Arch(h) == Str("arm64") || Arch(h) == Str("aarch64") }

  predicate IsX64(h: Host) { Arch(h) == Str("x64") || Arch(h) == Str("x86_64") }

  predicate Is32Bit(h: Host)
  {
    Arch(h) == Str("ia32") || Arch(h) == Str("x86")
    || match Arch(h)
       case Str(a) => Contains(a, "32")
       case _ => false
  }

  predicate Is64Bit(h: Host)
  {
    IsX64(h) || IsArm64(h)
    || match Arch(h)
       case Str(a) => Contains(a, "64")
       case _ => false
  }

  // ---------------------------------------------------------------------------
  // Development and CI environments
  // ---------------------------------------------------------------------------

  predicate IsDevelopment(h: Host)
  {
    Env(h, "NODE_ENV") == Some(Str("development")) || Env(h, "NODE_ENV") == Some(Str("dev"))
  }

  predicate IsProduction(h: Host)
  {
    Env(h, "NODE_ENV") == Some(Str("production")) || Env(h, "NODE_ENV") == Some(Str("prod"))
  }

  predicate IsTest(h: Host)
  {
    Env(h, "NODE_ENV") == Some(Str("test")) || Env(h, "JEST_WORKER_ID").Some?
    || Env(h, "VITEST").Some? || Env(h, "MOCHA").Some?
  }

  predicate IsCI(h: Host)
  {
    Env(h, "CI") == Some(Str("true")) || Env(h, "CONTINUOUS_INTEGRATION") == Some(Str("true"))
    || Env(h, "GITHUB_ACTIONS") == Some(Str("true")) || Env(h, "TRAVIS") == Some(Str("true"))
    || Env(h, "CIRCLECI") == Some(Str("true")) || Env(h, "JENKINS_URL").Some?
    || Env(h, "GITLAB_CI") == Some(Str("true"))
  }

  predicate IsDocker(h: Host)
  {
    Env(h, "DOCKER") == Some(Str("true")) || Env(h, "CONTAINER").Some?
  }

  // ---------------------------------------------------------------------------
  // Browser engines
  // ---------------------------------------------------------------------------

  predicate IsChrome(h: Host)
  {
    IsBrowser(h) && UaIncludes(h, "Chrome") && !UaIncludes(h, "Edg") && !UaIncludes(h, "OPR")
  }

  predicate IsFirefox(h: Host) { IsBrowser(h) && UaIncludes(h, "Firefox") }

  predicate IsSafari(h: Host)
  {
    IsBrowser(h) && UaIncludes(h, "Safari") && !UaIncludes(h, "Chrome") && !UaIncludes(h, "Chromium")
  }

  predicate IsEdge(h: Host) { IsBrowser(h) && UaIncludes(h, "Edg") }

  predicate IsOpera(h: Host) { IsBrowser(h) && (UaIncludes(h, "OPR") || UaIncludes(h, "Opera")) }

  // ---------------------------------------------------------------------------
  // Device class
  // ---------------------------------------------------------------------------

  function InnerWidth(h: Host): Option<Value> { Step(Global(h, "window"), "innerWidth") }

  predicate IsMobile(h: Host)
  {
    IsIos(h) || IsAndroid(h) || UaIncludes(h, "Mobile") || (IsBrowser(h) && AtMost(InnerWidth(h), 768))
  }

  predicate IsTablet(h: Host)
  {
    (UaIncludes(h, "Tablet") || UaIncludes(h, "iPad")
     || (IsBrowser(h) && Above(InnerWidth(h), 768) && AtMost(InnerWidth(h), 1024)))
    && !UaIncludes(h, "Mobile")
  }

  predicate IsDesktop(h: Host) { !IsMobile(h) && !IsTablet(h) && IsBrowser(h) }

  /** `'ontouchstart' in window`; `in` on a non-object throws. */
  predicate WindowHas(h: Host, key: string)
  {
    match Global(h, "window")
    case Some(Obj(m)) => key in m
    case _ => false
  }

  predicate IsTouchDevice(h: Host)
  {
    IsBrowser(h) && (WindowHas(h, "ontouchstart") || Above(Step(Global(h, "navigator"), "maxTouchPoints"), 0))
  }
}
