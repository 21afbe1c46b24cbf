/** Link classification: `extractBvidFromURL` in server/router/task.go. Four unanchored
    patterns are tried in a fixed order; the first that matches anywhere in the URL
    decides. A short link is resolved through the redirect lookup and classified again. */
module Links {
  import opened Text
  import opened Common

  datatype LinkType = Video | Short | Season | Episode

  datatype ExtractError =
    | Unrecognized             // no pattern matched
    | RedirectFailed(cause: string)
    | RedirectLimit            // the hop bound of this model ran out

  /** The message each error carries when the caller prefixes it. */
  function ErrorText(e: ExtractError): string
  {
    match e
    case Unrecognized => "无法从URL中提取视频ID"
    case RedirectFailed(cause) => cause
    case RedirectLimit => "too many redirects"
  }

  /** A pattern `lead(fixed cls+)`: `lead` is literal text before the capture group,
      `fixed` literal text that opens the capture, `cls+` a greedy run that closes it. */
  datatype Pattern = Pattern(lead: string, fixed: string, cls: CharClass, kind: LinkType)
  {
    function Literal(): string { lead + fixed }
  }

  /** The patterns in the order they are tried. */
  const Patterns: seq<Pattern> := [
    Pattern("bilibili.com/video/", "BV", Word, Video),
    Pattern("b23.tv/", "", Word, Short),
    Pattern("bilibili.com/bangumi/play/ss", "", Digit, Season),
    Pattern("bilibili.com/bangumi/play/ep", "", Digit, Episode)
  ]

  /** The pattern matches with its match starting at `i`. */
  predicate MatchesAt(s: string, p: Pattern, i: int)
  {
    0 <= i && i + |p.Literal()| < |s|
    && OccursAt(s, i, p.Literal())
    && InClass(s[i + |p.Literal()|], p.cls)
  }

  predicate MatchesSomewhere(s: string, p: Pattern)
  {
    exists i :: 0 <= i < |s| && MatchesAt(s, p, i)
  }

  /** Leftmost start, at or after `from`, of a match of `p`. */
  function FindFrom(s: string, p: Pattern, from: nat): (r: Option<nat>)
    requires from <= |s|
    decreases |s| - from
    ensures r.Some? ==> from <= r.value < |s| && MatchesAt(s, p, r.value)
    ensures r.Some? ==> forall j :: from <= j < r.value ==> !MatchesAt(s, p, j)
    ensures r.None? ==> forall j :: from <= j ==> !MatchesAt(s, p, j)
  {
    if from == |s| then None
    else if MatchesAt(s, p, from) then Some(from)
    else FindFrom(s, p, from + 1)
  }

  /** The capture group of the match starting at `i`: the fixed text and the whole run. */
  function CaptureAt(s: string, p: Pattern, i: nat): (c: string)
    requires MatchesAt(s, p, i)
    ensures |c| > |p.fixed| && IsPrefix(p.fixed, c)
    ensures forall k :: |p.fixed| <= k < |c| ==> InClass(c[k], p.cls)
    ensures i + |p.lead| + |c| <= |s| && s[i + |p.lead|..i + |p.lead| + |c|] == c
    ensures i + |p.lead| + |c| < |s| ==> !InClass(s[i + |p.lead| + |c|], p.cls)
  {
    var start := i + |p.lead|;
    var runStart := i + |p.Literal()|;
    var e := RunEnd(s, p.cls, runStart);
    assert runStart < e by { assert InClass(s[runStart], p.cls); }
    FixedAt(s, p, i);
    var c := s[start..e];
    assert c[..|p.fixed|] == s[start..runStart];
    c
  }

  /** A match starting at `i` has the fixed text right after the lead. */
  lemma FixedAt(s: string, p: Pattern, i: nat)
    requires MatchesAt(s, p, i)
    ensures s[i + |p.lead|..i + |p.Literal()|] == p.fixed
  {
    OccursAtSlice(s, i, p.Literal());
    assert s[i..i + |p.Literal()|] == p.lead + p.fixed;
    assert s[i + |p.lead|..i + |p.Literal()|] == s[i..i + |p.Literal()|][|p.lead|..];
  }

  /** `FindStringSubmatch` of one pattern: the capture of its leftmost match. */
  function Capture(s: string, p: Pattern): (r: Option<string>)
    ensures r.Some? <==> MatchesSomewhere(s, p)
    ensures r.Some? ==> FindFrom(s, p, 0).Some? && r.value == CaptureAt(s, p, FindFrom(s, p, 0).value)
  {
    match FindFrom(s, p, 0)
    case None => None
    case Some(i) => Some(CaptureAt(s, p, i))
  }

  datatype Match = Match(index: nat, kind: LinkType, capture: string)

  /** The first pattern of `ps`, from position `k` on, that matches anywhere. */
  function FirstMatchFrom(s: string, ps: seq<Pattern>, k: nat): (r: Option<Match>)
    requires k <= |ps|
    decreases |ps| - k
    ensures r.Some? ==> k <= r.value.index < |ps|
                        && Capture(s, ps[r.value.index]) == Some(r.value.capture)
                        && r.value.kind == ps[r.value.index].kind
                        && forall j :: k <= j < r.value.index ==> !MatchesSomewhere(s, ps[j])
    ensures r.None? ==> forall j :: k <= j < |ps| ==> !MatchesSomewhere(s, ps[j])
  {
    if k == |ps| then None
    else
      match Capture(s, ps[k])
      case Some(c) => Some(Match(k, ps[k].kind, c))
      case None => FirstMatchFrom(s, ps, k + 1)
  }

  /** `extractBvidFromURL` over an ordered pattern list `ps`. `redirect` is the
      redirect-location lookup, applied to the whole URL; `hops` bounds how many lookups
      one call may make (the source recurses without a bound). */
  function ExtractWith(ps: seq<Pattern>, url: string, redirect: string -> Outcome<string>, hops: nat)
    : (r: Result<(string, LinkType), ExtractError>)
    decreases hops
    ensures r.Ok? ==> r.value.1 != Short
  {
    match FirstMatchFrom(url, ps, 0)
    case None => Err(Unrecognized)
    case Some(m) =>
      if m.kind == Short then
        if hops == 0 then Err(RedirectLimit)
        else
          match redirect(url)
          case Failed(cause) => Err(RedirectFailed(cause))
          case Got(next) => ExtractWith(ps, next, redirect, hops - 1)
      else Ok((m.capture, m.kind))
  }

  /** A URL in which no pattern matches is refused. */
  lemma NoPatternUnrecognized(ps: seq<Pattern>, url: string, redirect: string -> Outcome<string>, hops: nat)
    requires forall j :: 0 <= j < |ps| ==> !MatchesSomewhere(url, ps[j])
    ensures ExtractWith(ps, url, redirect, hops) == Err(Unrecognized)
  {
    assert FirstMatchFrom(url, ps, 0).None?;
  }

  /** When the first pattern that matches is not the short link, the result is its
      capture and its link type, whatever the redirect lookup and the hop bound. */
  lemma {:induction false} FirstNonShortDecides(ps: seq<Pattern>, url: string, redirect: string -> Outcome<string>, hops: nat, k: nat)
    requires k < |ps| && ps[k].kind != Short
    requires MatchesSomewhere(url, ps[k])
    requires forall j :: 0 <= j < k ==> !MatchesSomewhere(url, ps[j])
    ensures ExtractWith(ps, url, redirect, hops) == Ok((Capture(url, ps[k]).value, ps[k].kind))
  {
    var m := FirstMatchFrom(url, ps, 0);
    assert m.Some? && m.value.index == k;
  }

  /** A short link whose redirect lookup fails passes that failure on. */
  lemma ShortLookupFailure(ps: seq<Pattern>, url: string, redirect: string -> Outcome<string>, hops: nat)
    requires FirstMatchFrom(url, ps, 0).Some? && FirstMatchFrom(url, ps, 0).value.kind == Short
    requires hops > 0 && redirect(url).Failed?
    ensures ExtractWith(ps, url, redirect, hops) == Err(RedirectFailed(redirect(url).cause))
  {
  }

  /** A short link is classified as whatever its redirect target is, one hop less. */
  lemma ShortFollowsRedirect(ps: seq<Pattern>, url: string, redirect: string -> Outcome<string>, hops: nat)
    requires FirstMatchFrom(url, ps, 0).Some? && FirstMatchFrom(url, ps, 0).value.kind == Short
    requires hops > 0 && redirect(url).Got?
    ensures ExtractWith(ps, url, redirect, hops) == ExtractWith(ps, redirect(url).value, redirect, hops - 1)
  {
  }

  /** The hop bound only matters when it runs out: any larger bound gives the same answer. */
  lemma {:induction false} ExtractHopsMonotone(ps: seq<Pattern>, url: string, redirect: string -> Outcome<string>, hops: nat, more: nat)
    requires hops <= more
    requires ExtractWith(ps, url, redirect, hops) != Err(RedirectLimit)
    ensures ExtractWith(ps, url, redirect, more) == ExtractWith(ps, url, redirect, hops)
    decreases hops
  {
    var m := FirstMatchFrom(url, ps, 0);
    if m.Some? && m.value.kind == Short && redirect(url).Got? {
      ExtractHopsMonotone(ps, redirect(url).value, redirect, hops - 1, more - 1);
    }
  }

  /** A successful result is the capture of some pattern of that link type: its fixed
      opening text followed by a non-empty run of the pattern's class. */
  lemma {:induction false} ExtractCaptureShape(ps: seq<Pattern>, url: string, redirect: string -> Outcome<string>, hops: nat)
    returns (j: nat)
    requires ExtractWith(ps, url, redirect, hops).Ok?
    ensures j < |ps|
    ensures var (id, kind) := ExtractWith(ps, url, redirect, hops).value;
      ps[j].kind == kind && |id| > |ps[j].fixed| && IsPrefix(ps[j].fixed, id)
      && forall k :: |ps[j].fixed| <= k < |id| ==> InClass(id[k], ps[j].cls)
    decreases hops
  {
    var m := FirstMatchFrom(url, ps, 0).value;
    if m.kind == Short {
      j := ExtractCaptureShape(ps, redirect(url).value, redirect, hops - 1);
    } else {
      j := m.index;
      var i := FindFrom(url, ps[j], 0).value;
      assert m.capture == CaptureAt(url, ps[j], i);
    }
  }

  /** A pattern whose link type fixes the shape of its capture. */
  predicate WellShapedPattern(p: Pattern)
  {
    (p.kind == Video ==> p.fixed == "BV" && p.cls == Word)
    && (p.kind in {Season, Episode} ==> p.fixed == "" && p.cls == Digit)
  }

  predicate WellShaped(ps: seq<Pattern>)
  {
    forall j :: 0 <= j < |ps| ==> WellShapedPattern(ps[j])
  }

  lemma RouterPatternsWellShaped()
    ensures WellShaped(Patterns)
  {
  }

  /** The identifier shape each link type promises. */
  predicate IdShape(id: string, kind: LinkType)
  {
    (kind == Video ==> |id| > 2 && id[..2] == "BV" && AllIn(id, Word))
    && (kind in {Season, Episode} ==> |id| > 0 && AllIn(id, Digit))
  }

  lemma CaptureHasIdShape(p: Pattern, id: string)
    requires WellShapedPattern(p)
    requires |id| > |p.fixed| && IsPrefix(p.fixed, id)
    requires forall k :: |p.fixed| <= k < |id| ==> InClass(id[k], p.cls)
    ensures IdShape(id, p.kind)
  {
    if p.kind == Video {
      forall k | 0 <= k < |id| ensures IsWordChar(id[k]) {
        if k >= 2 { assert InClass(id[k], Word); }
      }
    }
  }

  /** Over well-shaped patterns a video id is `BV` followed by word characters and a
      season or episode id is a non-empty run of digits. */
  lemma ExtractWithShape(ps: seq<Pattern>, url: string, redirect: string -> Outcome<string>, hops: nat)
    requires WellShaped(ps)
    requires ExtractWith(ps, url, redirect, hops).Ok?
    ensures IdShape(ExtractWith(ps, url, redirect, hops).value.0, ExtractWith(ps, url, redirect, hops).value.1)
  {
    var j := ExtractCaptureShape(ps, url, redirect, hops);
    CaptureHasIdShape(ps[j], ExtractWith(ps, url, redirect, hops).value.0);
  }

  /** `extractBvidFromURL` with the router's four patterns: a video id is `BV` followed
      by word characters, a season or episode id a non-empty run of digits. */
  function Extract(url: string, redirect: string -> Outcome<string>, hops: nat)
    : (r: Result<(string, LinkType), ExtractError>)
    ensures r.Ok? ==> r.value.1 != Short && IdShape(r.value.0, r.value.1)
  {
    var r := ExtractWith(Patterns, url, redirect, hops);
    if r.Ok? then
      RouterPatternsWellShaped();
      ExtractWithShape(Patterns, url, redirect, hops);
      r
    else r
  }
}
