/**
 * The fragment of Python's `re` that the feed patterns use: literal text, greedy
 * `\s*`, `[^>]+`, `[\d.]+`, and the fixed-width date stamp, around one capture group.
 * Every greedy class in those patterns is disjoint from the first character of what
 * follows it, so the greedy, non-backtracking matcher below finds the same match as
 * Python's backtracking matcher.  re.search tries start positions left to right and
 * reports the first that matches.
 */
module Regex {
  import opened Wrappers
  import opened Strings
  import opened DateText

  datatype CharClass = Space | NotGt | DigitOrDot

  predicate InClass(c: char, k: CharClass) {
    match k
    case Space => IsSpace(c)
    case NotGt => c != '>'
    case DigitOrDot => IsDigitOrDot(c)
  }

  datatype Token =
    | Lit(text: string)      // the characters themselves, escapes removed
    | Star(cls: CharClass)   // cls*  (greedy)
    | Plus(cls: CharClass)   // cls+  (greedy)
    | Stamp(sep: char)       // \d{4}<sep>\d{2}<sep>\d{2} \d{2}:\d{2}:\d{2}

  /** prefix (group) suffix */
  datatype Pattern = Pattern(prefix: seq<Token>, group: Token, suffix: seq<Token>)

  /** Where a greedy run of `cls` starting at `i` ends. */
  function RunEnd(text: string, i: nat, cls: CharClass): (k: nat)
    requires i <= |text|
    ensures i <= k <= |text| && (k < |text| ==> !InClass(text[k], cls))
    ensures forall j :: i <= j < k ==> InClass(text[j], cls)
    decreases |text| - i
  {
    if i < |text| && InClass(text[i], cls) then RunEnd(text, i + 1, cls) else i
  }

  /** The end of the match of one token at `i`, if it matches there. */
  function MatchToken(t: Token, text: string, i: nat): (r: Option<nat>)
    requires i <= |text|
    ensures r.Some? ==> i <= r.value <= |text|
  {
    match t
    case Lit(s) => if i + |s| <= |text| && text[i..i + |s|] == s then Some(i + |s|) else None
    case Star(cls) => Some(RunEnd(text, i, cls))
    case Plus(cls) => var k := RunEnd(text, i, cls); if k > i then Some(k) else None
    case Stamp(sep) => if i + 19 <= |text| && StampShape(text[i..i + 19], sep) then Some(i + 19) else None
  }

  /** The end of the match of `ts[n..]`, one token after another, starting at `i`. */
  function MatchTokens(ts: seq<Token>, n: nat, text: string, i: nat): (r: Option<nat>)
    requires n <= |ts| && i <= |text|
    ensures r.Some? ==> i <= r.value <= |text|
    decreases |ts| - n
  {
    if n == |ts| then Some(i)
    else
      match MatchToken(ts[n], text, i)
      case None => None
      case Some(j) => MatchTokens(ts, n + 1, text, j)
  }

  /** The text captured by the group if the whole pattern matches at `i`. */
  function MatchAt(p: Pattern, text: string, i: nat): Option<string>
    requires i <= |text|
  {
    var a :- MatchTokens(p.prefix, 0, text, i);
    var b :- MatchToken(p.group, text, a);
    var _ :- MatchTokens(p.suffix, 0, text, b);
    Some(text[a..b])
  }

  /** The first position at or after `i` where the pattern matches. */
  function FirstMatchFrom(p: Pattern, text: string, i: nat): (r: Option<nat>)
    requires i <= |text|
    ensures r.Some? ==> i <= r.value <= |text| && MatchAt(p, text, r.value).Some?
    ensures r.Some? ==> forall j :: i <= j < r.value ==> MatchAt(p, text, j).None?
    ensures r.None? ==> forall j :: i <= j <= |text| ==> MatchAt(p, text, j).None?
    decreases |text| - i
  {
    if MatchAt(p, text, i).Some? then Some(i)
    else if i == |text| then None
    else FirstMatchFrom(p, text, i + 1)
  }

  /** re.search(pattern, text).group(1), or None when nothing matches. */
  function Search(p: Pattern, text: string): (r: Option<string>)
    ensures r.None? <==> forall j :: 0 <= j <= |text| ==> MatchAt(p, text, j).None?
    ensures r.Some? ==> exists k ::
      (0 <= k <= |text| && MatchAt(p, text, k) == r
      && forall j :: 0 <= j < k ==> MatchAt(p, text, j).None?)
  {
    var k :- FirstMatchFrom(p, text, 0);
    MatchAt(p, text, k)
  }

  /**
   * `match.group(1).strip()` of the first match, or None: NTUASProvider._search and
   * the older script's search_one.
   */
  function SearchGroup(p: Pattern, text: string): (r: Option<string>)
    ensures r.Some? <==> Search(p, text).Some?
    ensures r.Some? ==> r.value == Strip(Search(p, text).value)
  {
    match Search(p, text)
    case Some(c) => Some(Strip(c))
    case None => None
  }

  /** What a `[\d.]+` group captures is a digits-and-dots run, and strip leaves it alone. */
  lemma DigitGroupCapture(p: Pattern, text: string)
    requires p.group == Plus(DigitOrDot)
    ensures SearchGroup(p, text).Some? ==> IsDigitRun(SearchGroup(p, text).value)
  {
    if Search(p, text).Some? {
      var k := FirstMatchFrom(p, text, 0).value;
      assert MatchAt(p, text, k) == Search(p, text);
      var a := MatchTokens(p.prefix, 0, text, k).value;
      var b := MatchToken(p.group, text, a).value;
      assert Search(p, text).value == text[a..b];
      assert forall j :: a <= j < b ==> InClass(text[j], DigitOrDot);
      DigitRunStrips(text[a..b]);
    }
  }

  /** What a date-stamp group captures has the stamp's shape, and strip leaves it alone. */
  lemma StampGroupCapture(p: Pattern, text: string, sep: char)
    requires p.group == Stamp(sep)
    ensures SearchGroup(p, text).Some? ==> StampShape(SearchGroup(p, text).value, sep)
  {
    if Search(p, text).Some? {
      var k := FirstMatchFrom(p, text, 0).value;
      assert MatchAt(p, text, k) == Search(p, text);
      var a := MatchTokens(p.prefix, 0, text, k).value;
      var c := Search(p, text).value;
      assert c == text[a..a + 19];
      assert c[0] == c[0..4][0] && c[18] == c[17..19][1];
      StripWithoutOuterSpaces(c);
    }
  }
}
