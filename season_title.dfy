/** The season-title heuristic of `createTask` (server/router/task.go): when the caller
    names no season, the first `[...]` group of the first item's title is taken as the
    season name unless it looks like a number, a quality label, a duration or an
    upper-case tag. */
module SeasonTitle {
  import opened Common
  import opened Text

  /** First position at or after `from` holding `c`. */
  function IndexOf(s: string, c: char, from: nat): (r: Option<nat>)
    requires from <= |s|
    decreases |s| - from
    ensures r.Some? ==> from <= r.value < |s| && s[r.value] == c
                        && forall j :: from <= j < r.value ==> s[j] != c
    ensures r.None? ==> forall j :: from <= j < |s| ==> s[j] != c
  {
    if from == |s| then None
    else if s[from] == c then Some(from)
    else IndexOf(s, c, from + 1)
  }

  /** `\[([^\]]+)\]` has a match starting at `i`: a `[`, at least one character other
      than `]`, then a `]`. */
  predicate BracketAt(s: string, i: int)
  {
    0 <= i && i + 1 < |s| && s[i] == '[' && s[i + 1] != ']'
    && exists k :: i + 1 < k < |s| && s[k] == ']'
  }

  /** Leftmost bracket match at or after `from`. */
  function FindBracket(s: string, from: nat): (r: Option<nat>)
    requires from <= |s|
    decreases |s| - from
    ensures r.Some? ==> from <= r.value && BracketAt(s, r.value)
                        && forall j :: from <= j < r.value ==> !BracketAt(s, j)
    ensures r.None? ==> forall j :: from <= j ==> !BracketAt(s, j)
  {
    if from == |s| then None
    else if from + 1 < |s| && s[from] == '[' && s[from + 1] != ']' && IndexOf(s, ']', from + 1).Some?
    then Some(from)
    else FindBracket(s, from + 1)
  }

  /** `FindStringSubmatch` of `\[([^\]]+)\]`: the group of the leftmost match, which runs
      from just after the `[` to just before the first `]` that follows. */
  function FirstBracket(s: string): (r: Option<string>)
    ensures r.None? <==> forall i :: !BracketAt(s, i)
    ensures r.Some? ==> |r.value| > 0 && (forall k :: 0 <= k < |r.value| ==> r.value[k] != ']')
    ensures r.Some? ==> exists i :: BracketAt(s, i) && (forall j :: 0 <= j < i ==> !BracketAt(s, j))
                                    && i + |r.value| + 1 < |s| && s[i + 1..i + 1 + |r.value|] == r.value
                                    && s[i + 1 + |r.value|] == ']'
  {
    match FindBracket(s, 0)
    case None => None
    case Some(i) =>
      var close := IndexOf(s, ']', i + 1).value;
      Some(s[i + 1..close])
  }

  /** `^\d+$`. */
  predicate IsNumeric(c: string)
  {
    |c| > 0 && AllIn(c, Digit)
  }

  /** The quality labels of `^(高清|超清|清晰|流畅|极速|杜比|真彩|超高清|1080P|720P|480P|360P)`. */
  const QualityTokens: seq<string> := [
    "高清", "超清", "清晰", "流畅", "极速", "杜比", "真彩", "超高清",
    "1080P", "720P", "480P", "360P"
  ]

  predicate HasQualityPrefix(c: string)
  {
    exists k :: 0 <= k < |QualityTokens| && IsPrefix(QualityTokens[k], c)
  }

  /** `^\d+分\d+秒$`, decided by reading the leading digits. */
  predicate IsDuration(c: string)
  {
    var k := RunEnd(c, Digit, 0);
    0 < k && k + 2 < |c| && c[k] == '分' && c[|c| - 1] == '秒' && AllIn(c[k + 1..|c| - 1], Digit)
  }

  /** `^\d+分\d+秒$` stated directly: digits, `分`, digits, `秒`, nothing else. */
  ghost predicate DurationShape(c: string)
  {
    exists k :: 0 < k && k + 2 < |c| && AllIn(c[..k], Digit) && c[k] == '分'
                && AllIn(c[k + 1..|c| - 1], Digit) && c[|c| - 1] == '秒'
  }

  /** `^[A-Z]+$`. */
  predicate IsAcronym(c: string)
  {
    |c| > 0 && forall i :: 0 <= i < |c| ==> 'A' <= c[i] <= 'Z'
  }

  /** The four exclusions; a candidate that meets none of them names a season. */
  predicate Excluded(c: string)
  {
    IsNumeric(c) || HasQualityPrefix(c) || IsDuration(c) || IsAcronym(c)
  }

  /** The season title: the caller's when given, else the first bracket group of
      `title` when it survives the exclusions, else "". */
  function InferSeasonTitle(explicit: string, title: string): (r: string)
    ensures explicit != "" ==> r == explicit
    ensures explicit == "" ==>
      (r != "" <==> FirstBracket(title).Some? && !Excluded(FirstBracket(title).value))
    ensures explicit == "" && r != "" ==> FirstBracket(title) == Some(r)
  {
    if explicit != "" then explicit
    else
      match FirstBracket(title)
      case None => ""
      case Some(c) => if Excluded(c) then "" else c
  }

  /** The leading-digits reading of the duration pattern agrees with its direct statement. */
  lemma {:induction false} DurationReadings(c: string)
    ensures IsDuration(c) <==> DurationShape(c)
  {
    var k := RunEnd(c, Digit, 0);
    if IsDuration(c) {
      assert AllIn(c[..k], Digit);
      assert c[k] == '分';
    }
    if DurationShape(c) {
      var k' :| 0 < k' && k' + 2 < |c| && AllIn(c[..k'], Digit) && c[k'] == '分'
                 && AllIn(c[k' + 1..|c| - 1], Digit) && c[|c| - 1] == '秒';
      forall i | 0 <= i < k' ensures InClass(c[i], Digit) {
        assert c[..k'][i] == c[i];
      }
      RunEndUnique(c, Digit, 0, k');
    }
  }

  /** A bracket group with no `]` that opens the title is the candidate. */
  lemma {:induction false} LeadingBracket(c: string, rest: string)
    requires |c| > 0 && forall k :: 0 <= k < |c| ==> c[k] != ']'
    ensures FirstBracket("[" + c + "]" + rest) == Some(c)
  {
    var s := "[" + c + "]" + rest;
    assert s[|c| + 1] == ']';
    assert BracketAt(s, 0);
    assert FindBracket(s, 0) == Some(0);
    assert forall j :: 1 <= j < |c| + 1 ==> s[j] == c[j - 1];
    assert forall j :: 1 <= j < |c| + 1 ==> s[j] != ']';
    assert IndexOf(s, ']', 1) == Some(|c| + 1);
    assert s[1..|c| + 1] == c;
  }

  /** A title that opens with a bracket group is decided by that group alone. */
  lemma LeadingGroupDecides(c: string, rest: string)
    requires |c| > 0 && forall k :: 0 <= k < |c| ==> c[k] != ']'
    ensures InferSeasonTitle("", "[" + c + "]" + rest) == if Excluded(c) then "" else c
  {
    LeadingBracket(c, rest);
  }

  /** A quality label such as 1080P is not a season name. */
  lemma QualityLabelExcluded()
    ensures Excluded("1080P")
  {
    assert IsPrefix(QualityTokens[8], "1080P");
  }

  /** An upper-case tag such as a region code is not a season name. */
  lemma AcronymExcluded()
    ensures Excluded("NA")
  {
  }

  /** A duration such as 12分30秒 is not a season name. */
  lemma DurationExcluded()
    ensures Excluded("12分30秒")
  {
    assert DurationShape("12分30秒") by {
      assert AllIn("12分30秒"[..2], Digit);
    }
    DurationReadings("12分30秒");
  }

  /** A name that passes every exclusion names the season. */
  lemma SeriesNameAccepted()
    ensures !Excluded("MySeries")
  {
    assert !IsAcronym("MySeries") by { assert !('A' <= "MySeries"[1] <= 'Z'); }
    assert !IsNumeric("MySeries") by { assert !IsDigit("MySeries"[0]); }
    assert !IsDuration("MySeries") by { assert RunEnd("MySeries", Digit, 0) == 0; }
    assert !HasQualityPrefix("MySeries") by {
      forall k | 0 <= k < |QualityTokens| ensures !IsPrefix(QualityTokens[k], "MySeries") {
        assert QualityTokens[k][0] != 'M';
      }
    }
  }

  /** Only the first bracket group is examined: a quality label in front hides a real
      season name behind it. */
  lemma QualityLabelFirst(rest: string)
    ensures InferSeasonTitle("", "[1080P]" + rest) == ""
  {
    QualityLabelExcluded();
    LeadingGroupDecides("1080P", rest);
    assert "[" + "1080P" + "]" + rest == "[1080P]" + rest;
  }
}
