/** The version regular expressions of getBrowserInfo, `/T\/([0-9.]+)/` and
    `/(?:T1|T2)\/([0-9.]+)/`, as used by `String.prototype.match` without
    flags: case-sensitive, leftmost match, alternatives tried in order at
    each position, and the greedy group takes the longest run of digits and
    dots. */
module VersionMatch {
  import opened Text
  import opened Js

  predicate IsVersionChar(c: char) { IsDigit(c) || c == '.' }

  /** Alternative `alt`, a `/` and one version character start at index `i`. */
  predicate AltMatchesAt(s: string, alt: string, i: nat)
  {
    i + |alt| + 1 < |s| && s[i..i + |alt|] == alt && s[i + |alt|] == '/' && IsVersionChar(s[i + |alt| + 1])
  }

  /** No alternative matches at any index in `[from, to)`. */
  predicate NoMatchBetween(s: string, alts: seq<string>, from: nat, to: nat)
  {
    forall p, k :: from <= p < to && 0 <= k < |alts| ==> !AltMatchesAt(s, alts[k], p)
  }

  /** The first alternative, from index `j` on, that matches at `i`. */
  function FirstAlt(s: string, alts: seq<string>, i: nat, j: nat): (r: Option<nat>)
    requires j <= |alts|
    ensures r.Some? ==> j <= r.value < |alts| && AltMatchesAt(s, alts[r.value], i)
    ensures r.Some? ==> forall k :: j <= k < r.value ==> !AltMatchesAt(s, alts[k], i)
    ensures r.None? ==> forall k :: j <= k < |alts| ==> !AltMatchesAt(s, alts[k], i)
    decreases |alts| - j
  {
    if j == |alts| then None
    else if AltMatchesAt(s, alts[j], i) then Some(j)
    else FirstAlt(s, alts, i, j + 1)
  }

  /** End of the greedy run `[0-9.]+` that starts at `j`. */
  function RunEnd(s: string, j: nat): (e: nat)
    requires j <= |s|
    ensures j <= e <= |s|
    ensures forall q :: j <= q < e ==> IsVersionChar(s[q])
    ensures e == |s| || !IsVersionChar(s[e])
    decreases |s| - j
  {
    if j == |s| || !IsVersionChar(s[j]) then j else RunEnd(s, j + 1)
  }

  /** RunEnd is the end of any maximal run of version characters from `j`. */
  lemma {:induction false} RunEndAt(s: string, j: nat, e: nat)
    requires j <= e <= |s|
    requires forall q :: j <= q < e ==> IsVersionChar(s[q])
    requires e == |s| || !IsVersionChar(s[e])
    ensures RunEnd(s, j) == e
    decreases e - j
  {
    if j < e {
      RunEndAt(s, j + 1, e);
    }
  }

  /** A match: where it starts, which alternative matched, and group 1. */
  datatype Match = Match(start: nat, alt: nat, group: string)

  /** Where group 1 of a match by alternative `alt` at `p` begins. */
  function GroupStart(alt: string, p: nat): nat { p + |alt| + 1 }

  /** The leftmost match at or after index `i`. */
  function Search(s: string, alts: seq<string>, i: nat): (r: Option<Match>)
    ensures r.Some? ==> var m := r.value;
      && i <= m.start && m.alt < |alts| && AltMatchesAt(s, alts[m.alt], m.start)
      && (forall k :: 0 <= k < m.alt ==> !AltMatchesAt(s, alts[k], m.start))
      && NoMatchBetween(s, alts, i, m.start)
      && m.group == s[GroupStart(alts[m.alt], m.start)..RunEnd(s, GroupStart(alts[m.alt], m.start))]
    ensures r.None? ==> NoMatchBetween(s, alts, i, |s|)
    decreases |s| - i
  {
    if i >= |s| then None
    else match FirstAlt(s, alts, i, 0)
      case Some(k) =>
        var g := GroupStart(alts[k], i);
        Some(Match(i, k, s[g..RunEnd(s, g)]))
      case None => Search(s, alts, i + 1)
  }

  /** `match ? match[1] : ''`. */
  function CapturedVersion(s: string, alts: seq<string>): string
  {
    match Search(s, alts, 0)
    case Some(m) => m.group
    case None => ""
  }

  /** At index `p`, alternative `alt` and a `/` are followed by `v`, and `v`
      cannot be extended by another digit or dot. */
  predicate VersionAfter(s: string, alt: string, p: nat, v: string)
  {
    && OccursAt(s, alt + "/" + v, p)
    && (p + |alt| + 1 + |v| == |s| || !IsVersionChar(s[p + |alt| + 1 + |v|]))
  }

  predicate IsVersionText(v: string) { forall q :: 0 <= q < |v| ==> IsVersionChar(v[q]) }

  /** The captured version is empty exactly when nothing matches; otherwise it
      is a non-empty run of digits and dots standing right after one of the
      alternatives and a `/`, at the leftmost index where any alternative
      matches. */
  lemma CapturedVersionShape(s: string, alts: seq<string>)
    ensures CapturedVersion(s, alts) == "" <==> NoMatchBetween(s, alts, 0, |s|)
    ensures var v := CapturedVersion(s, alts);
      v != "" ==> IsVersionText(v) && exists p: nat, k :: 0 <= k < |alts| && VersionAfter(s, alts[k], p, v) && NoMatchBetween(s, alts, 0, p)
  {
    match Search(s, alts, 0)
    case None =>
    case Some(m) =>
      var alt := alts[m.alt];
      var g := GroupStart(alt, m.start);
      var v := m.group;
      assert v[0] == s[g];
      assert s[m.start..m.start + |alt + "/" + v|] == alt + "/" + v by {
        assert s[m.start..m.start + |alt|] == alt;
        assert s[m.start + |alt|] == '/';
        assert s[g..g + |v|] == v;
        assert alt + "/" + v == s[m.start..m.start + |alt|] + [s[m.start + |alt|]] + s[g..g + |v|];
      }
      assert VersionAfter(s, alt, m.start, v);
  }

  /** The greedy group takes the whole run of digits and dots after the
      first match. */
  lemma ChromeVersionExample(s: string)
    requires s == "Chrome/119.0 Safari"
    ensures CapturedVersion(s, ["Chrome"]) == "119.0"
  {
    assert AltMatchesAt(s, "Chrome", 0);
    assert FirstAlt(s, ["Chrome"], 0, 0) == Some(0);
    assert s[7..12] == "119.0" && s[12] == ' ';
    RunEndAt(s, 7, 12);
  }

  /** The Opera pattern takes whichever alternative matches first. */
  lemma OperaVersionExample(s: string)
    requires s == "Opera/9.80 Version/12"
    ensures CapturedVersion(s, ["OPR", "Opera"]) == "9.80"
  {
    assert !AltMatchesAt(s, "OPR", 0);
    assert AltMatchesAt(s, "Opera", 0);
    assert FirstAlt(s, ["OPR", "Opera"], 0, 0) == Some(1);
    assert s[6..10] == "9.80" && s[10] == ' ';
    RunEndAt(s, 6, 10);
  }
}
