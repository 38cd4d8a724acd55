/** The helpers of src/utils.ts: tolerant property-path reads, global
    checks, the user-agent substring test, environment variables and the
    version parser. */
module Utils {
  import opened Text
  import opened Js
  import opened Types

  // ---------------------------------------------------------------------------
  // safeGet
  // ---------------------------------------------------------------------------

  /** `keys.reduce((current, key) => current?.[key], current)`. */
  function Resolve(current: Option<Value>, keys: seq<string>): Option<Value>
    decreases |keys|
  {
    if keys == [] then current else Resolve(Step(current, keys[0]), keys[1..])
  }

  /** Resolve already-split path segments, and fall back to the default when
      the result is `undefined` or `null` (the `?? defaultValue`). */
  function ReadPath(obj: Value, keys: seq<string>, defaultValue: Option<Value>): (r: Option<Value>)
    ensures r == defaultValue || (r.Some? && r.value != Null)
  {
    var found := Resolve(Some(obj), keys);
    if found.None? || found == Some(Null) then defaultValue else found
  }

  /** `safeGet(obj, path, defaultValue)`: split the path on dots and read it. */
  function SafeGet(obj: Value, path: string, defaultValue: Option<Value>): (r: Option<Value>)
    ensures r == defaultValue || (r.Some? && r.value != Null)
  {
    ReadPath(obj, Split(path, '.'), defaultValue)
  }

  /** A dotted path made of dot-free segments reads those segments, so
      `safeGet(globalThis, 'a.b.c')` is `ReadPath(globalThis, ["a", "b", "c"])`. */
  lemma SafeGetDottedPath(obj: Value, keys: seq<string>, defaultValue: Option<Value>)
    requires |keys| >= 1
    requires forall k :: 0 <= k < |keys| ==> '.' !in keys[k]
    ensures SafeGet(obj, Join(keys, '.'), defaultValue) == ReadPath(obj, keys, defaultValue)
  {
    SplitOfJoin(keys, '.');
  }

  /** Once a step yields `undefined`, every later step does too. */
  lemma {:induction false} ResolveUndefined(keys: seq<string>)
    ensures Resolve(None, keys) == None
  {
    if keys != [] {
      ResolveUndefined(keys[1..]);
    }
  }

  /** Resolving a path in two pieces is resolving it at once. */
  lemma {:induction false} ResolveAppend(current: Option<Value>, a: seq<string>, b: seq<string>)
    ensures Resolve(current, a + b) == Resolve(Resolve(current, a), b)
    decreases |a|
  {
    if a == [] {
      assert a + b == b;
    } else {
      assert a + b != [] && (a + b)[0] == a[0];
      assert (a + b)[1..] == a[1..] + b;
      ResolveAppend(Step(current, a[0]), a[1..], b);
      assert Resolve(current, a + b) == Resolve(Step(current, a[0]), a[1..] + b);
    }
  }

  /** When every segment is present and the last one holds a value other than
      `null`, safeGet returns that value, whatever the default. */
  lemma SafeGetFound(obj: Value, path: string, defaultValue: Option<Value>, v: Value)
    requires Resolve(Some(obj), Split(path, '.')) == Some(v) && v != Null
    ensures SafeGet(obj, path, defaultValue) == Some(v)
  {
  }

  /** safeGet returns the default as soon as the first `k + 1` segments fail
      to resolve, whatever the remaining segments are. */
  lemma SafeGetMissingSegment(obj: Value, path: string, defaultValue: Option<Value>, k: nat)
    requires k < |Split(path, '.')|
    requires Resolve(Some(obj), Split(path, '.')[..k + 1]) == None
    ensures SafeGet(obj, path, defaultValue) == defaultValue
  {
    var keys := Split(path, '.');
    assert keys == keys[..k + 1] + keys[k + 1..];
    ResolveAppend(Some(obj), keys[..k + 1], keys[k + 1..]);
    ResolveUndefined(keys[k + 1..]);
  }

  /** A final value of `null` also yields the default. */
  lemma SafeGetNull(obj: Value, path: string, defaultValue: Option<Value>)
    requires Resolve(Some(obj), Split(path, '.')) == Some(Null)
    ensures SafeGet(obj, path, defaultValue) == defaultValue
  {
  }

  /** Reading a path from an empty global scope always gives the default. */
  lemma SafeGetEmptyScope(path: string, defaultValue: Option<Value>)
    ensures SafeGet(Obj(map[]), path, defaultValue) == defaultValue
  {
    var keys := Split(path, '.');
    assert Step(Some(Obj(map[])), keys[0]) == None;
    ResolveUndefined(keys[1..]);
  }

  // ---------------------------------------------------------------------------
  // hasGlobalObject, userAgentIncludes, getEnvVar
  // ---------------------------------------------------------------------------

  /** `hasGlobalObject(name)`: the global is neither `undefined` nor `null`. */
  predicate HasGlobalObject(global: Value, name: string)
  {
    var v := Step(Some(global), name);
    v.Some? && v.value != Null
  }

  /** `navigator.userAgent` read directly (not through safeGet). */
  function NavigatorUserAgent(global: Value): Option<Value>
  {
    Step(Step(Some(global), "navigator"), "userAgent")
  }

  /** `userAgentIncludes(search)`: false unless `navigator.userAgent` is a
      string; otherwise both sides are lower-cased before the substring test. */
  predicate UserAgentIncludes(global: Value, search: string)
  {
    match NavigatorUserAgent(global)
    case Some(Str(ua)) => Contains(Lower(ua), Lower(search))
    case _ => false
  }

  /** The search string's case never matters, and the empty string is found
      in every user-agent string. */
  lemma UserAgentIncludesIgnoresCase(global: Value, search: string)
    ensures UserAgentIncludes(global, Upper(search)) == UserAgentIncludes(global, search)
    ensures UserAgentIncludes(global, Lower(search)) == UserAgentIncludes(global, search)
    ensures UserAgentIncludes(global, "") <==> NavigatorUserAgent(global).Some? && NavigatorUserAgent(global).value.Str?
  {
    LowerOfUpper(search);
    LowerIdempotent(search);
    if NavigatorUserAgent(global).Some? && NavigatorUserAgent(global).value.Str? {
      ContainsEmpty(Lower(NavigatorUserAgent(global).value.s));
    }
  }

  /** A true test reveals a user-agent string at least as long as the search. */
  lemma UserAgentIncludesWitness(global: Value, search: string)
    requires UserAgentIncludes(global, search)
    ensures NavigatorUserAgent(global).Some? && NavigatorUserAgent(global).value.Str?
    ensures |search| <= |NavigatorUserAgent(global).value.s|
  {
    ContainsLength(Lower(NavigatorUserAgent(global).value.s), Lower(search));
  }

  /** The user agent read through safeGet is the directly read property,
      with `null` read as `undefined`. */
  lemma ReadNavigatorUserAgent(global: Value)
    ensures ReadPath(global, ["navigator", "userAgent"], None)
      == (if NavigatorUserAgent(global) == Some(Null) then None else NavigatorUserAgent(global))
  {
    var keys := ["navigator", "userAgent"];
    assert keys[1..] == ["userAgent"] && ["userAgent"][1..] == [];
    calc {
      Resolve(Some(global), keys);
      Resolve(Step(Some(global), "navigator"), ["userAgent"]);
      Resolve(NavigatorUserAgent(global), []);
    }
  }

  /** `getEnvVar(name)`: `safeGet(globalThis, 'process.env.' + name)`. */
  function GetEnvVar(global: Value, name: string): (r: Option<Value>)
    ensures r != Some(Null)
  {
    SafeGet(global, "process.env." + name, None)
  }

  /** `process.env`, read one property at a time. */
  function ProcessEnv(global: Value): Option<Value>
  {
    Step(Step(Some(global), "process"), "env")
  }

  /** The entry `name` of the `process.env` object, `null` read as `undefined`. */
  function EnvEntry(global: Value, name: string): (r: Option<Value>)
    ensures r.None? || (r.value != Null && ProcessEnv(global).Some? && ProcessEnv(global).value.Obj?)
  {
    var v := Step(ProcessEnv(global), name);
    if v == Some(Null) then None else v
  }

  /** For a variable name without dots, getEnvVar is the entry of the
      `process.env` object, with `null` read as `undefined`; so it is
      `undefined` when `process`, `process.env` or the entry is missing. */
  lemma GetEnvVarEntry(global: Value, name: string)
    requires '.' !in name
    ensures GetEnvVar(global, name) == EnvEntry(global, name)
    ensures Step(ProcessEnv(global), name).None? ==> GetEnvVar(global, name).None?
  {
    var path := "process.env." + name;
    assert path == "process" + ['.'] + "env" + ['.'] + name;
    SplitPath3("process", "env", name, '.');
    var keys := ["process", "env", name];
    var proc := Step(Some(global), "process");
    assert keys[1..] == ["env", name] && keys[1..][1..] == [name] && [name][1..] == [];
    calc {
      Resolve(Some(global), keys);
      Resolve(proc, ["env", name]);
      Resolve(Step(proc, "env"), [name]);
      Resolve(Step(ProcessEnv(global), name), []);
    }
  }

  // ---------------------------------------------------------------------------
  // parseVersion
  // ---------------------------------------------------------------------------

  /** `part.split(/[^0-9]/)[0]`: the run of digits at the start of `s`. */
  function LeadingDigits(s: string): (d: string)
    ensures IsPrefix(d, s) && AllDigits(d)
    ensures |d| == |s| || !IsDigit(s[|d|])
  {
    if s == [] || !IsDigit(s[0]) then "" else [s[0]] + LeadingDigits(s[1..])
  }

  /** `parseInt(d, 10)` for a string of decimal digits. */
  function DecimalValue(d: string): nat
    requires AllDigits(d)
  {
    if d == [] then 0 else DecimalValue(d[..|d| - 1]) * 10 + (d[|d| - 1] as int - '0' as int)
  }

  /** `parseInt(part.split(/[^0-9]/)[0] || '0', 10)`. */
  function SegmentValue(part: string): nat
  {
    var d := LeadingDigits(part);
    DecimalValue(if d == "" then "0" else d)
  }

  /** `parts[i] || 0`: a missing segment counts as 0. */
  function SegmentAt(parts: seq<string>, i: nat): nat
  {
    if i < |parts| then SegmentValue(parts[i]) else 0
  }

  /** `parseVersion(version)`. */
  function ParseVersion(version: string): (r: NodeVersionInfo)
    ensures r.raw == version
  {
    var parts := Split(version, '.');
    NodeVersionInfo(SegmentAt(parts, 0), SegmentAt(parts, 1), SegmentAt(parts, 2), version)
  }

  /** The decimal rendering of a natural number, `String(n)`. */
  function Decimal(n: nat): (s: string)
    ensures |s| >= 1 && AllDigits(s)
  {
    if n < 10 then [('0' as int + n) as char]
    else Decimal(n / 10) + [('0' as int + n % 10) as char]
  }

  lemma {:induction false} DecimalValueOfDecimal(n: nat)
    ensures DecimalValue(Decimal(n)) == n
  {
    if n >= 10 {
      var s := Decimal(n);
      DecimalValueOfDecimal(n / 10);
      assert s[..|s| - 1] == Decimal(n / 10);
    }
  }

  lemma {:induction false} LeadingDigitsAppend(p: string, t: string)
    requires AllDigits(p)
    ensures LeadingDigits(p + t) == p + LeadingDigits(t)
  {
    if p != [] {
      assert (p + t)[0] == p[0] && IsDigit(p[0]);
      assert (p + t)[1..] == p[1..] + t;
      LeadingDigitsAppend(p[1..], t);
      assert LeadingDigits(p + t) == [p[0]] + LeadingDigits(p[1..] + t);
      assert [p[0]] + (p[1..] + LeadingDigits(t)) == ([p[0]] + p[1..]) + LeadingDigits(t);
      assert p == [p[0]] + p[1..];
    } else {
      assert p + t == t;
    }
  }

  /** A segment is worth the value of its leading digits: a segment that is
      empty or starts with a non-digit (`"v18"`) is worth 0, and a number
      followed by a non-digit suffix (`"3-beta"`) is worth that number. */
  lemma SegmentValueCases(n: nat, suffix: string, part: string)
    requires suffix == "" || !IsDigit(suffix[0])
    ensures (part == "" || !IsDigit(part[0])) ==> SegmentValue(part) == 0
    ensures SegmentValue(Decimal(n) + suffix) == n
  {
    LeadingDigitsAppend(Decimal(n), suffix);
    assert LeadingDigits(suffix) == "";
    assert Decimal(n) + "" == Decimal(n);
    DecimalValueOfDecimal(n);
    assert DecimalValue("0") == 0 by {
      assert "0"[..0] == "";
    }
  }

  /** The fields of parseVersion are the values of the first three
      dot-separated segments, 0 for a missing one; later segments are
      ignored. */
  lemma {:induction false} ParseVersionSegments(segments: seq<string>)
    requires |segments| >= 1
    requires forall k :: 0 <= k < |segments| ==> '.' !in segments[k]
    ensures var r := ParseVersion(Join(segments, '.'));
      && r.major == SegmentValue(segments[0])
      && r.minor == (if |segments| > 1 then SegmentValue(segments[1]) else 0)
      && r.patch == (if |segments| > 2 then SegmentValue(segments[2]) else 0)
  {
    SplitOfJoin(segments, '.');
  }

  /** Round trip: rendering `a.b.c` and parsing it gives back a, b and c,
      also with a non-digit suffix on the patch (`"1.2.3-beta"`). */
  lemma ParseVersionRoundTrip(a: nat, b: nat, c: nat, suffix: string)
    requires '.' !in suffix && (suffix == "" || !IsDigit(suffix[0]))
    ensures var r := ParseVersion(Decimal(a) + "." + Decimal(b) + "." + (Decimal(c) + suffix));
      r.major == a && r.minor == b && r.patch == c
  {
    var x, y, z := Decimal(a), Decimal(b), Decimal(c) + suffix;
    DecimalHasNoDot(a);
    DecimalHasNoDot(b);
    DecimalHasNoDot(c);
    assert '.' !in z;
    ParseVersionThree(x, y, z);
    SegmentValueOfDecimal(a);
    SegmentValueOfDecimal(b);
    SegmentValueCases(c, suffix, "");
  }

  lemma SegmentValueOfDecimal(n: nat)
    ensures SegmentValue(Decimal(n)) == n
  {
    SegmentValueCases(n, "", "");
    assert Decimal(n) + "" == Decimal(n);
  }

  lemma ParseVersionThree(x: string, y: string, z: string)
    requires '.' !in x && '.' !in y && '.' !in z
    ensures var r := ParseVersion(x + "." + y + "." + z);
      r.major == SegmentValue(x) && r.minor == SegmentValue(y) && r.patch == SegmentValue(z)
  {
    JoinThree(x, y, z);
    ParseVersionSegments([x, y, z]);
  }

  lemma JoinThree(x: string, y: string, z: string)
    ensures Join([x, y, z], '.') == x + "." + y + "." + z
  {
    var segments := [x, y, z];
    assert segments[1..] == [y, z];
    assert [y, z][1..] == [z];
    assert Join([y, z], '.') == y + ['.'] + z;
    assert Join(segments, '.') == x + ['.'] + (y + ['.'] + z);
  }

  lemma DecimalHasNoDot(n: nat)
    ensures '.' !in Decimal(n)
  {
    var s := Decimal(n);
    assert forall i :: 0 <= i < |s| ==> IsDigit(s[i]);
  }

  /** A version without dots (`"16"`) has minor and patch 0. */
  lemma ParseVersionSingleSegment(version: string)
    requires '.' !in version
    ensures ParseVersion(version).major == SegmentValue(version)
    ensures ParseVersion(version).minor == 0 && ParseVersion(version).patch == 0
  {
    SplitNoSeparator(version, '.');
  }

  /** Examples: `"18.17.1"` parses to 18, 17, 1. */
  lemma ParseVersionExampleRelease()
    ensures ParseVersion("18.17.1") == NodeVersionInfo(18, 17, 1, "18.17.1")
  {
    assert Decimal(18) == "18" && Decimal(17) == "17" && Decimal(1) == "1";
    ParseVersionRoundTrip(18, 17, 1, "");
    assert "18" + "." + "17" + "." + ("1" + "") == "18.17.1";
  }

  /** `"1.2.3-beta"`: the pre-release suffix on the patch is stripped. */
  lemma ParseVersionExamplePrerelease()
    ensures ParseVersion("1.2.3-beta") == NodeVersionInfo(1, 2, 3, "1.2.3-beta")
  {
    assert Decimal(1) == "1" && Decimal(2) == "2" && Decimal(3) == "3";
    ParseVersionRoundTrip(1, 2, 3, "-beta");
    assert "1" + "." + "2" + "." + ("3" + "-beta") == "1.2.3-beta";
  }

  /** `"16"`: the missing minor and patch are 0. */
  lemma ParseVersionExampleMajorOnly()
    ensures ParseVersion("16") == NodeVersionInfo(16, 0, 0, "16")
  {
    ParseVersionSingleSegment("16");
    assert Decimal(16) == "16";
    SegmentValueOfDecimal(16);
  }

  /** `"v18"`: a segment starting with a non-digit is 0. */
  lemma ParseVersionExamplePrefixed()
    ensures ParseVersion("v18") == NodeVersionInfo(0, 0, 0, "v18")
  {
    ParseVersionSingleSegment("v18");
    SegmentValueCases(0, "", "v18");
  }
}
