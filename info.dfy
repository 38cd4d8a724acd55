/** The informational functions of src/detection.ts: getNodeVersion,
    getBrowserInfo and getSystemInfo. */
module Info {
  import opened Text
  import opened Js
  import opened Types
  import opened Utils
  import opened Detection
  import opened VersionMatch

  // ---------------------------------------------------------------------------
  // getNodeVersion
  // ---------------------------------------------------------------------------

  function NodeVersionMarker(h: Host): Option<Value> { Get(h, ["process", "versions", "node"]) }

  /** `getNodeVersion()`: null unless Node is detected and the version marker
      is truthy; a marker that is not a string makes parseVersion throw
      (`version.split` is not a function), which also yields null. */
  function GetNodeVersion(h: Host): (r: Option<NodeVersionInfo>)
    ensures r.Some? <==> IsNode(h) && NodeVersionMarker(h).value.Str? && NodeVersionMarker(h).value.s != ""
    ensures r.Some? ==> r.value == ParseVersion(NodeVersionMarker(h).value.s)
    ensures r.Some? ==> r.value.raw == NodeVersionMarker(h).value.s
  {
    if !IsNode(h) then None
    else
      var version := NodeVersionMarker(h);
      if !Truthy(version) then None
      else match version.value
        case Str(s) => Some(ParseVersion(s))
        case _ => None
  }

  /** A Node host reporting `a.b.c` yields exactly a, b and c. */
  lemma NodeVersionOfRelease(h: Host, a: nat, b: nat, c: nat)
    requires IsNode(h)
    requires NodeVersionMarker(h) == Some(Str(Decimal(a) + "." + Decimal(b) + "." + Decimal(c)))
    ensures GetNodeVersion(h) == Some(NodeVersionInfo(a, b, c, Decimal(a) + "." + Decimal(b) + "." + Decimal(c)))
  {
    assert Decimal(c) + "" == Decimal(c);
    ParseVersionRoundTrip(a, b, c, "");
  }

  // ---------------------------------------------------------------------------
  // getBrowserInfo
  // ---------------------------------------------------------------------------

  /** The browsers getBrowserInfo can name, with their engine and the tokens
      its version pattern accepts before the `/`. */
  datatype Family = Chrome | Firefox | Safari | Edge | Opera
  {
    function Name(): string
    {
      match this
      case Chrome => "Chrome"
      case Firefox => "Firefox"
      case Safari => "Safari"
      case Edge => "Edge"
      case Opera => "Opera"
    }

    function Engine(): string
    {
      match this
      case Chrome => "Blink"
      case Firefox => "Gecko"
      case Safari => "WebKit"
      case Edge => "Blink"
      case Opera => "Blink"
    }

    function VersionTokens(): seq<string>
    {
      match this
      case Chrome => ["Chrome"]
      case Firefox => ["Firefox"]
      case Safari => ["Version"]
      case Edge => ["Edg"]
      case Opera => ["OPR", "Opera"]
    }
  }

  predicate Detected(h: Host, f: Family)
  {
    match f
    case Chrome => IsChrome(h)
    case Firefox => IsFirefox(h)
    case Safari => IsSafari(h)
    case Edge => IsEdge(h)
    case Opera => IsOpera(h)
  }

  /** The order in which getBrowserInfo consults the engine predicates. */
  const Priority: seq<Family> := [Chrome, Firefox, Safari, Edge, Opera]

  /** What the engine predicates say about the host, in priority order. */
  function Flags(h: Host): seq<bool>
  {
    [IsChrome(h), IsFirefox(h), IsSafari(h), IsEdge(h), IsOpera(h)]
  }

  /** The index of the first `true` in `bs`. */
  function FirstTrue(bs: seq<bool>): (r: Option<nat>)
    ensures r.Some? ==> r.value < |bs| && bs[r.value]
    ensures r.Some? ==> forall j :: 0 <= j < r.value ==> !bs[j]
    ensures r.None? ==> forall j :: 0 <= j < |bs| ==> !bs[j]
  {
    if bs == [] then None
    else if bs[0] then Some(0)
    else match FirstTrue(bs[1..])
      case Some(j) => Some(j + 1)
      case None => None
  }

  /** FirstTrue over five flags is the if/else chain over them. */
  lemma FirstTrueOfFive(c: bool, f: bool, s: bool, e: bool, o: bool)
    ensures FirstTrue([c, f, s, e, o])
      == if c then Some(0) else if f then Some(1) else if s then Some(2)
         else if e then Some(3) else if o then Some(4) else None
  {
    var bs := [c, f, s, e, o];
    assert bs[1..] == [f, s, e, o];
    assert bs[1..][1..] == [s, e, o];
    assert bs[1..][1..][1..] == [e, o];
    assert bs[1..][1..][1..][1..] == [o];
    assert bs[1..][1..][1..][1..][1..] == [];
    if c {
    } else if f {
      assert FirstTrue(bs[1..]) == Some(0);
    } else if s {
      assert FirstTrue(bs[1..][1..]) == Some(0);
    } else if e {
      assert FirstTrue(bs[1..][1..][1..]) == Some(0);
    } else if o {
      assert FirstTrue(bs[1..][1..][1..][1..]) == Some(0);
    } else {
      assert FirstTrue(bs[1..][1..][1..][1..][1..]) == None;
    }
  }

  /** The `userAgent` constant as the string the version patterns run on. */
  function UserAgentText(h: Host): string
  {
    match UserAgent(h)
    case Str(s) => s
    case _ => ""
  }

  /** The table-driven reading of getBrowserInfo's chain, given what the five
      engine predicates say (in priority order) and the user agent: the first
      detected family with its engine and captured version, else Unknown. */
  function Choose(flags: seq<bool>, ua: string): BrowserInfo
    requires |flags| == |Priority|
  {
    match FirstTrue(flags)
    case None => BrowserInfo("Unknown", "", "Unknown")
    case Some(k) =>
      var f := Priority[k];
      BrowserInfo(f.Name(), CapturedVersion(ua, f.VersionTokens()), f.Engine())
  }

  /** getBrowserInfo's result: null outside a browser, else the choice. */
  function BrowserInfoOf(h: Host): Option<BrowserInfo>
  {
    if !IsBrowser(h) then None else Some(Choose(Flags(h), UserAgentText(h)))
  }

  /** The table agrees with the source's if/else chain. */
  lemma ChooseChain(c: bool, f: bool, s: bool, e: bool, o: bool, ua: string)
    ensures Choose([c, f, s, e, o], ua)
      == if c then BrowserInfo("Chrome", CapturedVersion(ua, ["Chrome"]), "Blink")
         else if f then BrowserInfo("Firefox", CapturedVersion(ua, ["Firefox"]), "Gecko")
         else if s then BrowserInfo("Safari", CapturedVersion(ua, ["Version"]), "WebKit")
         else if e then BrowserInfo("Edge", CapturedVersion(ua, ["Edg"]), "Blink")
         else if o then BrowserInfo("Opera", CapturedVersion(ua, ["OPR", "Opera"]), "Blink")
         else BrowserInfo("Unknown", "", "Unknown")
  {
    FirstTrueOfFive(c, f, s, e, o);
  }

  /** `getBrowserInfo()`, as the source writes it: defaults, then an if/else
      chain that overwrites name, engine and version. */
  method GetBrowserInfo(h: Host) returns (info: Option<BrowserInfo>)
    ensures info == BrowserInfoOf(h)
  {
    if !IsBrowser(h) {
      return None;
    }
    var name := "Unknown";
    var version := "";
    var engine := "Unknown";
    var userAgent := UserAgentText(h);
    ChooseChain(IsChrome(h), IsFirefox(h), IsSafari(h), IsEdge(h), IsOpera(h), userAgent);
    if IsChrome(h) {
      name := "Chrome";
      engine := "Blink";
      version := CapturedVersion(userAgent, ["Chrome"]);
    } else if IsFirefox(h) {
      name := "Firefox";
      engine := "Gecko";
      version := CapturedVersion(userAgent, ["Firefox"]);
    } else if IsSafari(h) {
      name := "Safari";
      engine := "WebKit";
      version := CapturedVersion(userAgent, ["Version"]);
    } else if IsEdge(h) {
      name := "Edge";
      engine := "Blink";
      version := CapturedVersion(userAgent, ["Edg"]);
    } else if IsOpera(h) {
      name := "Opera";
      engine := "Blink";
      version := CapturedVersion(userAgent, ["OPR", "Opera"]);
    }
    info := Some(BrowserInfo(name, version, engine));
  }

  /** Whenever an engine predicate holds, the `userAgent` constant is the
      (non-empty) string `navigator.userAgent`, so the version patterns see
      the real user agent and `userAgent.match` cannot throw. */
  lemma DetectedBrowserHasUserAgent(h: Host, f: Family)
    requires Detected(h, f)
    ensures NavigatorUserAgent(h.globalThis).Some? && NavigatorUserAgent(h.globalThis).value.Str?
    ensures UserAgent(h) == NavigatorUserAgent(h.globalThis).value
    ensures UserAgentText(h) == NavigatorUserAgent(h.globalThis).value.s
  {
    var token := match f
      case Chrome => "Chrome"
      case Firefox => "Firefox"
      case Safari => "Safari"
      case Edge => "Edg"
      case Opera => if UaIncludes(h, "OPR") then "OPR" else "Opera";
    assert UaIncludes(h, token);
    UserAgentIncludesWitness(h.globalThis, token);
    ReadNavigatorUserAgent(h.globalThis);
  }

  /** Outside a browser getBrowserInfo is null, inside it never is. */
  lemma BrowserInfoPresence(h: Host)
    ensures BrowserInfoOf(h).None? <==> !IsBrowser(h)
  {
  }

  /** Name and engine always come from the fixed pairs Chrome/Blink,
      Firefox/Gecko, Safari/WebKit, Edge/Blink, Opera/Blink, Unknown/Unknown. */
  lemma ChoosePairs(flags: seq<bool>, ua: string)
    requires |flags| == |Priority|
    ensures var i := Choose(flags, ua);
      (i.name, i.engine) in {("Chrome", "Blink"), ("Firefox", "Gecko"), ("Safari", "WebKit"),
                             ("Edge", "Blink"), ("Opera", "Blink"), ("Unknown", "Unknown")}
  {
  }

  /** The priority chain: each name is chosen exactly when its flag is set
      and no flag earlier in the order Chrome, Firefox, Safari, Edge, Opera
      is; Unknown (with an empty version) when none is. */
  lemma ChoosePriority(c: bool, f: bool, s: bool, e: bool, o: bool, ua: string)
    ensures var n := Choose([c, f, s, e, o], ua).name;
      && (n == "Chrome" <==> c)
      && (n == "Firefox" <==> !c && f)
      && (n == "Safari" <==> !c && !f && s)
      && (n == "Edge" <==> !c && !f && !s && e)
      && (n == "Opera" <==> !c && !f && !s && !e && o)
      && (n == "Unknown" <==> !c && !f && !s && !e && !o)
    ensures Choose([c, f, s, e, o], ua).name == "Unknown" ==> Choose([c, f, s, e, o], ua).version == ""
  {
    FirstTrueOfFive(c, f, s, e, o);
  }

  /** In a browser, the name getBrowserInfo reports follows the engine
      predicates in priority order. */
  lemma BrowserInfoPriority(h: Host)
    requires IsBrowser(h)
    ensures var n := BrowserInfoOf(h).value.name;
      && (n == "Chrome" <==> IsChrome(h))
      && (n == "Firefox" <==> !IsChrome(h) && IsFirefox(h))
      && (n == "Safari" <==> !IsChrome(h) && !IsFirefox(h) && IsSafari(h))
      && (n == "Edge" <==> !IsChrome(h) && !IsFirefox(h) && !IsSafari(h) && IsEdge(h))
      && (n == "Opera" <==> !IsChrome(h) && !IsFirefox(h) && !IsSafari(h) && !IsEdge(h) && IsOpera(h))
      && (n == "Unknown" <==> !IsChrome(h) && !IsFirefox(h) && !IsSafari(h) && !IsEdge(h) && !IsOpera(h))
    ensures BrowserInfoOf(h).value.name == "Unknown" ==> BrowserInfoOf(h).value.version == ""
  {
    ChoosePriority(IsChrome(h), IsFirefox(h), IsSafari(h), IsEdge(h), IsOpera(h), UserAgentText(h));
  }

  /** The version is either empty or a non-empty run of digits and dots that
      stands in the user agent right after the chosen browser's token and a
      `/` (at the leftmost such place); it is empty only when no such place
      exists. */
  lemma ChooseVersion(flags: seq<bool>, ua: string)
    requires |flags| == |Priority|
    ensures var i := Choose(flags, ua);
      forall f :: f in Priority && i.name == f.Name() ==>
        && (i.version == "" <==> NoMatchBetween(ua, f.VersionTokens(), 0, |ua|))
        && (i.version != "" ==>
              (IsVersionText(i.version)
               && exists p: nat, k :: 0 <= k < |f.VersionTokens()| && VersionAfter(ua, f.VersionTokens()[k], p, i.version)))
  {
    match FirstTrue(flags)
    case None =>
    case Some(k) =>
      var g := Priority[k];
      CapturedVersionShape(ua, g.VersionTokens());
      forall f | f in Priority && g.Name() == f.Name() ensures f == g {
      }
  }

  // ---------------------------------------------------------------------------
  // getSystemInfo
  // ---------------------------------------------------------------------------

  /** `getSystemInfo()`: start from platform and arch (defaulting to
      "Unknown"), then add the Node version and the browser fields when
      those hosts are detected. */
  method GetSystemInfo(h: Host) returns (system: SystemInfo)
    ensures Platform(h) == Str("") ==> system.platform == Str("Unknown")
    ensures Platform(h) != Str("") ==> system.platform == Platform(h)
    ensures Arch(h) == Str("") ==> system.arch == Str("Unknown")
    ensures Arch(h) != Str("") ==> system.arch == Arch(h)
    ensures system.nodeVersion == GetNodeVersion(h)
    ensures system.browserInfo.Some? <==> IsBrowser(h)
    ensures system.browserInfo == BrowserInfoOf(h)
    ensures system.userAgent == (if IsBrowser(h) then Some(UserAgent(h)) else None)
  {
    system := SystemInfo(Or(Some(Platform(h)), Str("Unknown")), Or(Some(Arch(h)), Str("Unknown")), None, None, None);

    if IsNode(h) {
      var nodeVersion := GetNodeVersion(h);
      if nodeVersion.Some? {
        system := system.(nodeVersion := nodeVersion);
      }
    }

    if IsBrowser(h) {
      var browserInfo := GetBrowserInfo(h);
      if browserInfo.Some? {
        system := system.(browserInfo := browserInfo);
      }
      system := system.(userAgent := Some(UserAgent(h)));
    }
  }
}
