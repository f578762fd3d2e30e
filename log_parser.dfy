/**
 * The raid-log line parser of the local map: a state machine over the
 * current raid that reacts to map loading, matchmaking, game creation, game
 * start and match end lines, and picks up the server address. Each regular
 * expression the parser uses is written out as a scanner over the line, with
 * the greedy-with-backtracking outcome of Python's `re.search` made explicit.
 */
module LogParser {
  import opened Wrappers
  import opened Digits

  // ------------------------------------------------------------ text scanning

  /** The text p occurs in s at position i. */
  predicate StartsWith(s: string, i: nat, p: string)
  {
    i + |p| <= |s| && s[i..i + |p|] == p
  }

  /** The first occurrence of p in s at or after i. */
  function FindFrom(s: string, p: string, i: nat): (r: Option<nat>)
    ensures r.Some? ==> (i <= r.value <= |s| && StartsWith(s, r.value, p)
      && forall j :: i <= j < r.value ==> !StartsWith(s, j, p))
    ensures r.None? ==> forall j :: i <= j <= |s| ==> !StartsWith(s, j, p)
    decreases |s| - i
  {
    if i > |s| then None
    else if StartsWith(s, i, p) then Some(i)
    else FindFrom(s, p, i + 1)
  }

  /** Python's `p in s`. */
  predicate Contains(s: string, p: string)
  {
    FindFrom(s, p, 0).Some?
  }

  lemma ContainsMeansOccurs(s: string, p: string)
    ensures Contains(s, p) <==> exists i :: 0 <= i <= |s| && StartsWith(s, i, p)
  {
    if !Contains(s, p) {
      assert forall j :: 0 <= j <= |s| ==> !StartsWith(s, j, p);
    }
  }

  /** The number of characters of the class starting at j. */
  function Run(s: string, j: nat, inClass: char -> bool): (n: nat)
    ensures j + n <= |s| || (j > |s| && n == 0)
    ensures forall k :: j <= k < j + n ==> inClass(s[k])
    ensures j + n < |s| ==> !inClass(s[j + n])
    decreases |s| - j
  {
    if j < |s| && inClass(s[j]) then 1 + Run(s, j + 1, inClass) else 0
  }

  predicate IsWordChar(c: char) { 'a' <= c <= 'z' || 'A' <= c <= 'Z' || IsDigit(c) || c == '_' }
  predicate IsNumberChar(c: char) { IsDigit(c) || c == '.' || c == ',' }

  /** Every character of s is a digit, a dot or a comma. */
  predicate NumberText(s: string)
  {
    forall i :: 0 <= i < |s| ==> IsNumberChar(s[i])
  }
  predicate IsIdChar(c: char) { 'A' <= c <= 'Z' || IsDigit(c) }
  predicate NotComma(c: char) { c != ',' }

  /**
   * `re.search(prefix + X, s)`: the group X matches at the first position
   * where the prefix occurs and `at` succeeds right after it.
   */
  function SearchFrom(s: string, i: nat, prefix: string, at: (string, nat) -> Option<string>): (r: Option<string>)
    ensures r.Some? ==> exists j :: i <= j <= |s| && StartsWith(s, j, prefix) && at(s, j + |prefix|) == r
    ensures r.None? ==> forall j :: i <= j <= |s| && StartsWith(s, j, prefix) ==> at(s, j + |prefix|).None?
    decreases |s| - i
  {
    if i > |s| then None
    else if StartsWith(s, i, prefix) && at(s, i + |prefix|).Some? then at(s, i + |prefix|)
    else SearchFrom(s, i + 1, prefix, at)
  }

  function Search(s: string, prefix: string, at: (string, nat) -> Option<string>): Option<string>
  {
    SearchFrom(s, 0, prefix, at)
  }

  /** `(?P<mapBundleName>[a-zA-Z0-9_]+)\.bundle` at j: the whole word run, which must be followed by ".bundle". */
  function BundleAt(s: string, j: nat): (r: Option<string>)
    ensures r.Some? ==> (|r.value| > 0 && (forall c :: c in r.value ==> IsWordChar(c))
      && StartsWith(s, j, r.value) && StartsWith(s, j + |r.value|, ".bundle"))
  {
    var n := Run(s, j, IsWordChar);
    if n >= 1 && StartsWith(s, j + n, ".bundle") then Some(s[j..j + n]) else None
  }

  /** `[0-9.,]+ real:(?P<queueTime>[0-9.,]+)` at j. */
  function QueueAt(s: string, j: nat): (r: Option<string>)
    ensures r.Some? ==> |r.value| > 0 && forall c :: c in r.value ==> IsNumberChar(c)
  {
    var n := Run(s, j, IsNumberChar);
    if n >= 1 && StartsWith(s, j + n, " real:") then
      var k := j + n + 6;
      var m := Run(s, k, IsNumberChar);
      if m >= 1 then Some(s[k..k + m]) else None
    else None
  }

  /** `(?P<map>[^,]+)` at j: everything up to the next comma or the end of the line. */
  function LocationAt(s: string, j: nat): (r: Option<string>)
    ensures r.Some? ==> |r.value| > 0 && ',' !in r.value
  {
    var n := Run(s, j, NotComma);
    if n >= 1 then Some(s[j..j + n]) else None
  }

  /** `(?P<raidId>[A-Z0-9]{6})` at j: exactly six id characters, whatever follows. */
  function ShortIdAt(s: string, j: nat): (r: Option<string>)
    ensures r.Some? ==> |r.value| == 6 && forall c :: c in r.value ==> IsIdChar(c)
  {
    if j + 6 <= |s| && forall k :: j <= k < j + 6 ==> IsIdChar(s[k]) then Some(s[j..j + 6]) else None
  }

  /** `\d{1,3}\.` at j: one to three digits and then a dot, giving the position after the dot. */
  function OctetDotAt(s: string, j: nat): (r: Option<nat>)
    ensures r.Some? ==> (j + 2 <= r.value <= j + 4 && r.value <= |s| && s[r.value - 1] == '.'
      && DigitGroup(s[j..r.value - 1]))
  {
    var n := Run(s, j, IsDigit);
    if 1 <= n <= 3 && j + n < |s| && s[j + n] == '.' then
      var g := s[j..j + n];
      assert forall i :: 0 <= i < |g| ==> g[i] == s[j + i];
      Some(j + n + 1)
    else None
  }

  /** `\d{1,3}\.\d{1,3}\.\d{1,3}\.\d{1,3}` at j; the last group takes as many digits as it can, up to three. */
  function IpAt(s: string, j: nat): (r: Option<string>)
  {
    match OctetDotAt(s, j)
    case None => None
    case Some(a) =>
      match OctetDotAt(s, a)
      case None => None
      case Some(b) =>
        match OctetDotAt(s, b)
        case None => None
        case Some(c) =>
          var n := Run(s, c, IsDigit);
          if n >= 1 then Some(s[j..c + Min3(n)]) else None
  }

  function Min3(n: nat): (r: nat)
    ensures r <= 3 && r <= n && (r == n || r == 3)
  {
    if n < 3 then n else 3
  }

  /** A dotted quad: four groups of one to three ASCII digits separated by dots. */
  predicate DigitGroup(g: string)
  {
    1 <= |g| <= 3 && forall i :: 0 <= i < |g| ==> IsDigit(g[i])
  }

  ghost predicate IsDottedQuad(ip: string)
  {
    exists a, b, c, d :: DigitGroup(a) && DigitGroup(b) && DigitGroup(c) && DigitGroup(d)
      && ip == a + "." + b + "." + c + "." + d
  }

  /** The positions IpAt passes through: after each dot, and the end of the match. */
  lemma IpAtSteps(s: string, j: nat) returns (a: nat, b: nat, c: nat, e: nat)
    requires IpAt(s, j).Some?
    ensures OctetDotAt(s, j) == Some(a) && OctetDotAt(s, a) == Some(b) && OctetDotAt(s, b) == Some(c)
    ensures Run(s, c, IsDigit) >= 1 && e == c + Min3(Run(s, c, IsDigit)) && e <= |s|
    ensures IpAt(s, j) == Some(s[j..e])
  {
    a := OctetDotAt(s, j).value;
    b := OctetDotAt(s, a).value;
    c := OctetDotAt(s, b).value;
    e := c + Min3(Run(s, c, IsDigit));
  }

  /** The four digit groups IpAt reads, and the match as their dotted join. */
  lemma IpAtGroups(s: string, j: nat) returns (g1: string, g2: string, g3: string, g4: string)
    requires IpAt(s, j).Some?
    ensures DigitGroup(g1) && DigitGroup(g2) && DigitGroup(g3) && DigitGroup(g4)
    ensures IpAt(s, j).value == g1 + "." + g2 + "." + g3 + "." + g4
  {
    var a, b, c, e := IpAtSteps(s, j);
    StepGroups(s, j, a, b, c, e);
    g1, g2, g3, g4 := s[j..a - 1], s[a..b - 1], s[b..c - 1], s[c..e];
    SplitAtDots(s, j, a, b, c, e);
  }

  /** The text between the positions IpAt passes through is four digit groups. */
  lemma StepGroups(s: string, j: nat, a: nat, b: nat, c: nat, e: nat)
    requires OctetDotAt(s, j) == Some(a) && OctetDotAt(s, a) == Some(b) && OctetDotAt(s, b) == Some(c)
    requires Run(s, c, IsDigit) >= 1 && e == c + Min3(Run(s, c, IsDigit))
    ensures j < a <= b && a < b <= c && b < c <= e <= |s|
    ensures s[a - 1] == '.' && s[b - 1] == '.' && s[c - 1] == '.'
    ensures DigitGroup(s[j..a - 1]) && DigitGroup(s[a..b - 1]) && DigitGroup(s[b..c - 1]) && DigitGroup(s[c..e])
  {
    LastGroup(s, c, e);
  }

  /** The last group IpAt reads: up to three of the digits starting at c. */
  lemma LastGroup(s: string, c: nat, e: nat)
    requires Run(s, c, IsDigit) >= 1 && e == c + Min3(Run(s, c, IsDigit))
    ensures c < e <= |s| && DigitGroup(s[c..e])
  {
    var g := s[c..e];
    assert forall i :: 0 <= i < |g| ==> g[i] == s[c + i];
  }

  lemma SplitAtDots(s: string, j: nat, a: nat, b: nat, c: nat, e: nat)
    requires j < a <= b && a < b <= c && b < c <= e <= |s|
    requires s[a - 1] == '.' && s[b - 1] == '.' && s[c - 1] == '.'
    ensures s[j..e] == s[j..a - 1] + "." + s[a..b - 1] + "." + s[b..c - 1] + "." + s[c..e]
  {
    assert s[j..e] == s[j..a - 1] + [s[a - 1]] + s[a..b - 1] + [s[b - 1]] + s[b..c - 1] + [s[c - 1]] + s[c..e];
  }

  /** What IpAt finds is a dotted quad. */
  lemma IpAtIsDottedQuad(s: string, j: nat)
    requires IpAt(s, j).Some?
    ensures IsDottedQuad(IpAt(s, j).value)
  {
    var g1, g2, g3, g4 := IpAtGroups(s, j);
  }

  // ------------------------------------------------------------ numbers

  /** str.replace(',', '.'). */
  function CommasToDots(s: string): (r: string)
    ensures |r| == |s|
    ensures forall k :: 0 <= k < |s| ==> r[k] == (if s[k] == ',' then '.' else s[k])
  {
    if s == [] then [] else CommasToDots(s[..|s| - 1]) + [if s[|s| - 1] == ',' then '.' else s[|s| - 1]]
  }

  /**
   * float() on a text of digits and dots: it needs at most one dot and at
   * least one digit ("1.", ".5" and "1.5" are numbers, "." and "1.2.3" raise
   * ValueError).
   */
  function DecimalValue(s: string): (r: Option<real>)
    requires forall c :: c in s ==> IsDigit(c) || c == '.'
    ensures r.Some? ==> r.value >= 0.0
    ensures r.None? <==> (s == "." || s == [] || exists k :: 0 <= k < |s| && s[k] == '.' && '.' in s[k + 1..])
    ensures AllDigits(s) && s != [] ==> r == Some(DigitsValue(s) as real)
  {
    match FindFrom(s, ".", 0)
    case None =>
      assert forall k :: 0 <= k < |s| ==> s[k] != '.' by {
        forall k | 0 <= k < |s| ensures s[k] != '.' { assert !StartsWith(s, k, "."); }
      }
      if s == [] then None else Some(DigitsValue(s) as real)
    case Some(k) =>
      assert s[k] == '.' by { assert s[k..k + 1] == "."; }
      assert !AllDigits(s) by { assert s[k] in s; }
      assert forall j :: 0 <= j < k ==> s[j] != '.' by {
        forall j | 0 <= j < k ensures s[j] != '.' { assert !StartsWith(s, j, "."); }
      }
      var whole, frac := s[..k], s[k + 1..];
      assert forall c :: c in whole ==> IsDigit(c) by {
        forall c | c in whole ensures IsDigit(c) { var j :| 0 <= j < k && whole[j] == c; assert s[j] == c; }
      }
      if '.' in frac || |s| == 1 then None
      else Some(DottedValue(whole, frac))
  }

  /** The value of the digits whole "." frac. */
  function DottedValue(whole: string, frac: string): real
    requires AllDigits(whole) && AllDigits(frac)
  {
    DigitsValue(whole) as real + DigitsValue(frac) as real / Pow10(|frac|) as real
  }

  /**
   * float() of the digits w, a dot and the digits f: the number the digits
   * of w and f spell together, over ten to the number of digits after the dot.
   */
  lemma DecimalValueDotted(w: string, f: string)
    requires AllDigits(w) && AllDigits(f) && |w| + |f| > 0
    ensures AllDigits(w + f)
    ensures forall c :: c in w + "." + f ==> IsDigit(c) || c == '.'
    ensures DecimalValue(w + "." + f) == Some(DigitsValue(w + f) as real / Pow10(|f|) as real)
  {
    DecimalValueParts(w, f);
    DigitsValueAppend(w, f);
    ShiftedQuotient(DigitsValue(w + f), DigitsValue(w), DigitsValue(f), Pow10(|f|));
  }

  /** float() of w "." f adds the value of f, shifted behind the dot, to the value of w. */
  lemma DecimalValueParts(w: string, f: string)
    requires AllDigits(w) && AllDigits(f) && |w| + |f| > 0
    ensures forall c :: c in w + "." + f ==> IsDigit(c) || c == '.'
    ensures DecimalValue(w + "." + f) == Some(DottedValue(w, f))
  {
    var s := w + "." + f;
    forall c | c in s ensures IsDigit(c) || c == '.' {
      assert c in w || c == '.' || c in f;
    }
    FirstDot(w, f);
    assert s[..|w|] == w && s[|w| + 1..] == f;
    DecimalValueAt(s, |w|);
  }

  /** float() of a text whose only dot is at k adds the digits behind the dot, shifted, to those before it. */
  lemma DecimalValueAt(s: string, k: nat)
    requires forall c :: c in s ==> IsDigit(c) || c == '.'
    requires FindFrom(s, ".", 0) == Some(k) && |s| > 1
    requires k < |s| && AllDigits(s[..k]) && AllDigits(s[k + 1..])
    ensures DecimalValue(s) == Some(DottedValue(s[..k], s[k + 1..]))
  {
    assert '.' !in s[k + 1..];
  }

  /** The dot after the digits w is the first one. */
  lemma FirstDot(w: string, f: string)
    requires AllDigits(w)
    ensures FindFrom(w + "." + f, ".", 0) == Some(|w|)
  {
    var s := w + "." + f;
    assert StartsWith(s, |w|, ".") by { assert s[|w|..|w| + 1] == "."; }
    forall j | 0 <= j < |w| ensures !StartsWith(s, j, ".") {
      assert s[j] == w[j] && w[j] in w;
      assert s[j..j + 1] == [s[j]];
    }
  }

  lemma ShiftedQuotient(n: nat, whole: nat, frac: nat, p: nat)
    requires p >= 1 && n == whole * p + frac
    ensures n as real / p as real == whole as real + frac as real / p as real
  {
    assert (whole * p) as real == whole as real * p as real;
  }

  // ------------------------------------------------------------ raid state

  /** RaidInfo; the times are readings of the clock passed to the parser. */
  datatype RaidInfo = RaidInfo(raidId: string, mapId: string, isOnline: bool, isPmc: bool,
                               serverIp: Option<string>, startTime: Option<int>, queueTime: real)

  /** What a raid looks like when its map has just loaded. */
  function NewRaid(mapId: string): (r: RaidInfo)
    ensures r.mapId == mapId && r.raidId == "" && !r.isOnline && r.isPmc && r.serverIp.None? && r.queueTime == 0.0
  {
    RaidInfo("", mapId, false, true, None, None, 0.0)
  }

  /** MAP_BUNDLES: scene bundle name to in-game map id. */
  const MapBundles: map<string, string> := map[
    "city_preset" := "TarkovStreets",
    "customs_preset" := "bigmap",
    "factory_day_preset" := "factory4_day",
    "factory_night_preset" := "factory4_night",
    "laboratory_preset" := "laboratory",
    "labyrinth_preset" := "Labyrinth",
    "lighthouse_preset" := "Lighthouse",
    "rezerv_base_preset" := "RezervBase",
    "sandbox_preset" := "Sandbox",
    "sandbox_high_preset" := "Sandbox_high",
    "shopping_mall" := "Interchange",
    "shoreline_preset" := "Shoreline",
    "woods_preset" := "Woods"]

  const ScenePrefix: string := "scene preset path:maps/"
  const NetworkMarker: string := "TRACE-NetworkGameCreate profileStatus"

  /** The bundle a map-loading line names, if the line is one. */
  function SceneBundle(line: string): Option<string>
  {
    if Contains(line, ScenePrefix) then Search(line, ScenePrefix, BundleAt) else None
  }

  /** The map-loading step: a known bundle replaces the current raid by a new one; anything else changes nothing. */
  function AfterMapLoad(raid: Option<RaidInfo>, line: string): (r: Option<RaidInfo>)
    ensures SceneBundle(line).Some? && SceneBundle(line).value in MapBundles ==>
      r == Some(NewRaid(MapBundles[SceneBundle(line).value]))
    ensures !(SceneBundle(line).Some? && SceneBundle(line).value in MapBundles) ==> r == raid
  {
    match SceneBundle(line)
    case Some(b) => if b in MapBundles then Some(NewRaid(MapBundles[b])) else raid
    case None => raid
  }

  /** What the matchmaking line's "real:" field holds. */
  datatype QueueField = NoQueueField | QueueSeconds(seconds: real) | NotANumber

  function QueueTime(line: string): (q: QueueField)
    ensures q == NoQueueField <==> Search(line, "MatchingCompleted:", QueueAt).None?
  {
    match Search(line, "MatchingCompleted:", QueueAt)
    case None => NoQueueField
    case Some(text) =>
      var t := CommasToDots(text);
      assert forall c :: c in t ==> IsDigit(c) || c == '.' by {
        forall c | c in t ensures IsDigit(c) || c == '.' {
          var k :| 0 <= k < |t| && t[k] == c;
          assert text[k] in text;
        }
      }
      match DecimalValue(t)
      case None => NotANumber
      case Some(v) => QueueSeconds(v)
  }

  /**
   * re.search finds the prefix at k and the group after it when the prefix's
   * first character does not occur between i and k.
   */
  lemma {:induction false} SearchFromFirst(s: string, i: nat, k: nat, prefix: string,
                                           at: (string, nat) -> Option<string>)
    requires i <= k && StartsWith(s, k, prefix) && at(s, k + |prefix|).Some?
    requires |prefix| > 0 && forall j :: i <= j < k ==> s[j] != prefix[0]
    ensures SearchFrom(s, i, prefix, at) == at(s, k + |prefix|)
    decreases k - i
  {
    if i < k {
      if i + |prefix| <= |s| { assert s[i..i + |prefix|][0] == s[i]; }
      SearchFromFirst(s, i + 1, k, prefix, at);
    }
  }

  /**
   * On a line "…MatchingCompleted:<a> real:<b>" whose text before the marker
   * holds no 'M', the queue time is float() of b with its commas read as dots,
   * and NotANumber when float() raises.
   */
  lemma QueueTimeReadsReal(pre: string, a: string, b: string)
    requires forall k :: 0 <= k < |pre| ==> pre[k] != 'M'
    requires |a| > 0 && |b| > 0 && NumberText(a) && NumberText(b)
    ensures forall c :: c in CommasToDots(b) ==> IsDigit(c) || c == '.'
    ensures var line := pre + "MatchingCompleted:" + a + " real:" + b;
      match DecimalValue(CommasToDots(b))
      case Some(v) => QueueTime(line) == QueueSeconds(v)
      case None => QueueTime(line) == NotANumber
  {
    DotsOnly(b);
    var m := "MatchingCompleted:";
    var line := pre + m + a + " real:" + b;
    var k := |pre|;
    MarkerAt(pre, a, b);
    forall i | 0 <= i < k ensures line[i] != m[0] { assert line[i] == pre[i]; }
    QueueFieldAt(pre + m, a, b);
    SearchFromFirst(line, 0, k, m, QueueAt);
    assert Search(line, m, QueueAt) == Some(b);
  }

  /** A run of digits, dots and commas has only digits and dots once the commas are dots. */
  lemma DotsOnly(text: string)
    requires NumberText(text)
    ensures forall c :: c in CommasToDots(text) ==> IsDigit(c) || c == '.'
  {
    var t := CommasToDots(text);
    forall c | c in t ensures IsDigit(c) || c == '.' {
      var k :| 0 <= k < |t| && t[k] == c;
    }
  }

  lemma MarkerAt(pre: string, a: string, b: string)
    ensures StartsWith(pre + "MatchingCompleted:" + a + " real:" + b, |pre|, "MatchingCompleted:")
    ensures StartsWith(pre + "MatchingCompleted:" + a + " real:" + b, |pre|, "MatchingCompleted")
    ensures Contains(pre + "MatchingCompleted:" + a + " real:" + b, "MatchingCompleted")
  {
    var line := pre + "MatchingCompleted:" + a + " real:" + b;
    assert line[|pre|..|pre| + 18] == "MatchingCompleted:";
    var marker := "MatchingCompleted";
    assert StartsWith(line, |pre|, marker) by { assert line[|pre|..|pre| + 17] == marker; }
    ContainsMeansOccurs(line, marker);
  }

  /** QueueAt right after the marker: the number run, " real:", and the field up to the end of the line. */
  lemma QueueFieldAt(head: string, a: string, b: string)
    requires |a| > 0 && |b| > 0 && NumberText(a) && NumberText(b)
    ensures QueueAt(head + a + " real:" + b, |head|) == Some(b)
  {
    NumberRunAt(head, a, b);
    FieldToEnd(head + a + " real:", b);
  }

  /** After the marker: the run of number characters a, then " real:". */
  lemma NumberRunAt(head: string, a: string, b: string)
    requires |a| > 0 && NumberText(a)
    ensures Run(head + a + " real:" + b, |head|, IsNumberChar) == |a|
    ensures StartsWith(head + a + " real:" + b, |head| + |a|, " real:")
  {
    var x := head + a;
    var y := x + " real:";
    var line := y + b;
    var j := |head|;
    forall i | j <= i < |x| ensures IsNumberChar(line[i]) {
      assert line[i] == a[i - j];
    }
    assert line[|x|] == ' ';
    assert line[|x|..|y|] == " real:";
  }

  /** The field after " real:": a run of number characters up to the end of the line. */
  lemma FieldToEnd(y: string, b: string)
    requires |b| > 0 && NumberText(b)
    ensures Run(y + b, |y|, IsNumberChar) == |b|
    ensures (y + b)[|y|..|y| + |b|] == b
  {
    forall i | |y| <= i < |y + b| ensures IsNumberChar((y + b)[i]) {
      assert (y + b)[i] == b[i - |y|];
    }
    assert (y + b)[|y|..] == b;
  }

  /**
   * The game-creation step: the location overwrites the map id, a six
   * character id sets the raid id, the online flag is recomputed and the PMC
   * flag follows "Pmc" or "Savage" when either is present.
   */
  function AfterGameCreate(raid: RaidInfo, line: string): (r: RaidInfo)
    ensures r.mapId == (if Search(line, "Location: ", LocationAt).Some? then Search(line, "Location: ", LocationAt).value else raid.mapId)
    ensures r.raidId == (if Search(line, "shortId: ", ShortIdAt).Some? then Search(line, "shortId: ", ShortIdAt).value else raid.raidId)
    ensures r.isOnline <==> Contains(line, "RaidMode: Online")
    ensures r.isPmc == (if Contains(line, "Pmc") then true else if Contains(line, "Savage") then false else raid.isPmc)
    ensures r.serverIp == raid.serverIp && r.startTime == raid.startTime && r.queueTime == raid.queueTime
  {
    var withMap := match Search(line, "Location: ", LocationAt)
      case Some(m) => raid.(mapId := m)
      case None => raid;
    var withId := match Search(line, "shortId: ", ShortIdAt)
      case Some(id) => withMap.(raidId := id)
      case None => withMap;
    var online := withId.(isOnline := Contains(line, "RaidMode: Online"));
    if Contains(line, "Pmc") then online.(isPmc := true)
    else if Contains(line, "Savage") then online.(isPmc := false)
    else online
  }

  /** The prefixes of the four address patterns, tried in this order. */
  const IpPrefixes: seq<string> := ["", "Server: ", "Connect to ", "EndPoint: "]

  predicate IsLocalAddress(ip: string)
  {
    StartsWith(ip, 0, "127.") || StartsWith(ip, 0, "192.168.")
  }

  /** A server address may be stored: a dotted quad outside 127.* and 192.168.*. */
  ghost predicate AcceptableServerIp(ip: string)
  {
    IsDottedQuad(ip) && !IsLocalAddress(ip)
  }

  /** The address the pattern loop settles on: the first pattern whose match is not a local address. */
  function ServerIpFrom(line: string, prefixes: seq<string>): (r: Option<string>)
    ensures r.Some? ==> AcceptableServerIp(r.value)
    ensures r.Some? ==> exists k :: 0 <= k < |prefixes| && Search(line, prefixes[k], IpAt) == r
  {
    if prefixes == [] then None
    else match Search(line, prefixes[0], IpAt)
      case Some(ip) =>
        if !IsLocalAddress(ip) then
          IpFoundIsDottedQuad(line, prefixes[0]);
          Some(ip)
        else ServerIpFrom(line, prefixes[1..])
      case None => ServerIpFrom(line, prefixes[1..])
  }

  lemma IpFoundIsDottedQuad(line: string, prefix: string)
    requires Search(line, prefix, IpAt).Some?
    ensures IsDottedQuad(Search(line, prefix, IpAt).value)
  {
    var j :| 0 <= j <= |line| && StartsWith(line, j, prefix) && IpAt(line, j + |prefix|) == Search(line, prefix, IpAt);
    IpAtIsDottedQuad(line, j + |prefix|);
  }

  /** Python's truth value of the stored address: None and "" are false. */
  predicate HasServerIp(raid: RaidInfo)
  {
    raid.serverIp.Some? && raid.serverIp.value != ""
  }

  /** What parse_line returns: the raid that started, nothing, or the ValueError float() raised. */
  datatype LineResult = Started(raid: RaidInfo) | NoEvent | RaisedValueError

  /** The matchmaking step: None when float() raises, otherwise the raid with the queue time the line gives. */
  function AfterMatching(raid: Option<RaidInfo>, line: string): (r: Option<Option<RaidInfo>>)
    ensures r.None? <==> Contains(line, "MatchingCompleted") && raid.Some? && QueueTime(line) == NotANumber
    ensures r.Some? ==> (r.value.Some? <==> raid.Some?)
    ensures r.Some? && raid.Some? ==> r.value.value == raid.value.(queueTime := r.value.value.queueTime)
    ensures Contains(line, "MatchingCompleted") && raid.Some? && QueueTime(line).QueueSeconds? ==>
      r == Some(Some(raid.value.(queueTime := QueueTime(line).seconds)))
    ensures !(Contains(line, "MatchingCompleted") && raid.Some?) || QueueTime(line) == NoQueueField ==> r == Some(raid)
  {
    if Contains(line, "MatchingCompleted") && raid.Some? then
      match QueueTime(line)
      case NotANumber => None
      case QueueSeconds(v) => Some(Some(raid.value.(queueTime := v)))
      case NoQueueField => Some(raid)
    else Some(raid)
  }

  /** The time stamp and channel in front of the module's sample matchmaking line. */
  const SampleHead: string := "2024-12-05 14:30:30|  application|"

  /** The module's sample matchmaking line. */
  const SampleMatchingLine: string := SampleHead + "MatchingCompleted:" + "5.2" + " real:" + "5.1"

  /** The same line as a locale with a decimal comma writes it. */
  const SampleMatchingLineComma: string := SampleHead + "MatchingCompleted:" + "5,2" + " real:" + "5,1"

  /** Both sample lines are matchmaking lines whose queue time is 5.1 s, the "real:" field. */
  lemma SampleQueueTime()
    ensures Contains(SampleMatchingLine, "MatchingCompleted") && Contains(SampleMatchingLineComma, "MatchingCompleted")
    ensures QueueTime(SampleMatchingLine) == QueueSeconds(5.1)
    ensures QueueTime(SampleMatchingLineComma) == QueueSeconds(5.1)
  {
    assert forall k :: 0 <= k < |SampleHead| ==> SampleHead[k] != 'M';
    FiveOne();
    QueueTimeReadsReal(SampleHead, "5.2", "5.1");
    QueueTimeReadsReal(SampleHead, "5,2", "5,1");
    MarkerAt(SampleHead, "5.2", "5.1");
    MarkerAt(SampleHead, "5,2", "5,1");
  }

  /** Either sample line sets the queue time of a raid in progress to 5.1 s and changes nothing else. */
  lemma SampleMatchingStep(raid: RaidInfo)
    ensures AfterMatching(Some(raid), SampleMatchingLine) == Some(Some(raid.(queueTime := 5.1)))
    ensures AfterMatching(Some(raid), SampleMatchingLineComma) == Some(Some(raid.(queueTime := 5.1)))
  {
    SampleQueueTime();
  }

  /** "5.1" and "5,1" both read as 5.1. */
  lemma FiveOne()
    ensures CommasToDots("5.1") == "5.1" && CommasToDots("5,1") == "5.1"
    ensures forall c :: c in "5.1" ==> IsDigit(c) || c == '.'
    ensures DecimalValue("5.1") == Some(5.1)
    ensures NumberText("5.2") && NumberText("5.1") && NumberText("5,2") && NumberText("5,1")
  {
    CommaFive();
    DecimalFive();
  }

  lemma CommaFive()
    ensures CommasToDots("5.1") == "5.1" && CommasToDots("5,1") == "5.1"
    ensures NumberText("5.2") && NumberText("5.1") && NumberText("5,2") && NumberText("5,1")
  {
    var t, u := CommasToDots("5.1"), CommasToDots("5,1");
    assert t[0] == '5' && t[1] == '.' && t[2] == '1';
    assert u[0] == '5' && u[1] == '.' && u[2] == '1';
  }

  lemma DecimalFive()
    ensures forall c :: c in "5.1" ==> IsDigit(c) || c == '.'
    ensures DecimalValue("5.1") == Some(5.1)
  {
    var s := "5.1";
    assert StartsWith(s, 1, ".") by { assert s[1..2] == "."; }
    assert !StartsWith(s, 0, ".") by { assert s[0..1][0] == '5'; }
    assert FindFrom(s, ".", 0) == Some(1);
    assert s[..1] == "5" && s[2..] == "1";
  }


  /** The game-creation step, taken only with a raid in progress. */
  function AfterCreate(raid: Option<RaidInfo>, line: string): (r: Option<RaidInfo>)
    ensures r.Some? <==> raid.Some?
    ensures r.Some? ==> r.value.serverIp == raid.value.serverIp
  {
    if Contains(line, NetworkMarker) && raid.Some? then Some(AfterGameCreate(raid.value, line)) else raid
  }

  /** The match-over step: the raid ends. */
  function AfterMatchOver(raid: Option<RaidInfo>, line: string): (r: Option<RaidInfo>)
    ensures r == if Contains(line, "UserMatchOver") then None else raid
  {
    if Contains(line, "UserMatchOver") && raid.Some? then None else raid
  }

  /** The address step: a raid without an address takes the first public one the patterns find. */
  function AfterAddressSearch(raid: Option<RaidInfo>, line: string): (r: Option<RaidInfo>)
    ensures r.Some? <==> raid.Some?
    ensures r.Some? && HasServerIp(raid.value) ==> r == raid
    ensures r.Some? ==> r.value == raid.value.(serverIp := r.value.serverIp)
    ensures r.Some? && r.value.serverIp != raid.value.serverIp ==>
      ServerIpFrom(line, IpPrefixes).Some? && r.value.serverIp == ServerIpFrom(line, IpPrefixes)
  {
    if raid.Some? && !HasServerIp(raid.value) then
      match ServerIpFrom(line, IpPrefixes)
      case Some(ip) => Some(raid.value.(serverIp := Some(ip)))
      case None => raid
    else raid
  }

  /**
   * parse_line on a state and a line, as one function: (the new current raid,
   * the result). `now` is the clock reading stored as start time.
   */
  function ParseStep(raid: Option<RaidInfo>, line: string, now: int): (Option<RaidInfo>, LineResult)
  {
    var loaded := AfterMapLoad(raid, line);
    match AfterMatching(loaded, line)
    case None => (loaded, RaisedValueError)
    case Some(queued) =>
      var created := AfterCreate(queued, line);
      if Contains(line, "GameStarted") && created.Some? then
        var started := created.value.(startTime := Some(now));
        (Some(started), Started(started))
      else (AfterAddressSearch(AfterMatchOver(created, line), line), NoEvent)
  }

  /** Every address a raid can hold is a public dotted quad; parse_line keeps it so. */
  ghost predicate IpInvariant(raid: Option<RaidInfo>)
  {
    raid.Some? && raid.value.serverIp.Some? ==> AcceptableServerIp(raid.value.serverIp.value)
  }

  /** parse_line only ever stores a public dotted quad as server address. */
  lemma ServerIpAlwaysPublic(raid: Option<RaidInfo>, line: string, now: int)
    requires IpInvariant(raid)
    ensures IpInvariant(ParseStep(raid, line, now).0)
  {
    var loaded := AfterMapLoad(raid, line);
    assert loaded.Some? ==> loaded.value.serverIp.None? || loaded == raid;
    assert IpInvariant(loaded);
    match AfterMatching(loaded, line)
    case None =>
    case Some(queued) =>
      assert queued.Some? ==> queued.value.serverIp == loaded.value.serverIp;
      var created := AfterCreate(queued, line);
      assert created.Some? ==> created.value.serverIp == loaded.value.serverIp;
      assert IpInvariant(created);
      if !(Contains(line, "GameStarted") && created.Some?) {
        var ended := AfterMatchOver(created, line);
        assert IpInvariant(ended);
        AddressSearchKeeps(ended, line);
      }
  }

  /** The address step only ever stores an acceptable address. */
  lemma AddressSearchKeeps(raid: Option<RaidInfo>, line: string)
    requires IpInvariant(raid)
    ensures IpInvariant(AfterAddressSearch(raid, line))
  {
    var next := AfterAddressSearch(raid, line);
    if next.Some? && next.value.serverIp.Some? && next.value.serverIp != raid.value.serverIp {
      assert AcceptableServerIp(ServerIpFrom(line, IpPrefixes).value);
    }
  }

  /**
   * The server address is set at most once per raid: a raid that kept its
   * identity (no new map load) and already had an address still has the
   * same one afterwards.
   */
  lemma ServerIpSetOnce(raid: Option<RaidInfo>, line: string, now: int)
    requires raid.Some? && HasServerIp(raid.value) && AfterMapLoad(raid, line) == raid
    requires ParseStep(raid, line, now).0.Some?
    ensures ParseStep(raid, line, now).0.value.serverIp == raid.value.serverIp
  {
    match AfterMatching(raid, line)
    case None =>
    case Some(queued) =>
      var created := AfterCreate(queued, line);
      assert created.value.serverIp == raid.value.serverIp;
  }

  /** Only a GameStarted line with a raid in progress returns a raid, and what it returns is the new current raid. */
  lemma OnlyGameStartedReturns(raid: Option<RaidInfo>, line: string, now: int)
    ensures var (next, result) := ParseStep(raid, line, now);
      && (result.Started? ==> Contains(line, "GameStarted") && next == Some(result.raid) && result.raid.startTime == Some(now))
      && (Contains(line, "GameStarted") && AfterMapLoad(raid, line).Some? && result != RaisedValueError ==> result.Started?)
  {
  }

  /** A UserMatchOver line that is not a GameStarted line ends the raid. */
  lemma MatchOverClearsRaid(raid: Option<RaidInfo>, line: string, now: int)
    requires Contains(line, "UserMatchOver") && !Contains(line, "GameStarted")
    requires ParseStep(raid, line, now).1 != RaisedValueError
    ensures ParseStep(raid, line, now) == (None, NoEvent)
  {
  }

  /** A line that mentions none of the markers and no address leaves the state alone. */
  lemma UnrelatedLineChangesNothing(raid: Option<RaidInfo>, line: string, now: int)
    requires !Contains(line, ScenePrefix) && !Contains(line, "MatchingCompleted") && !Contains(line, NetworkMarker)
    requires !Contains(line, "GameStarted") && !Contains(line, "UserMatchOver")
    requires forall k :: 0 <= k < |IpPrefixes| ==> Search(line, IpPrefixes[k], IpAt).None?
    ensures ParseStep(raid, line, now) == (raid, NoEvent)
  {
  }

  /** LogParser: the raid being tracked. */
  class Parser {
    var currentRaid: Option<RaidInfo>

    constructor ()
      ensures currentRaid.None?
    {
      currentRaid := None;
    }

    /** parse_line. */
    method ParseLine(line: string, now: int) returns (r: LineResult)
      modifies this
      ensures (currentRaid, r) == ParseStep(old(currentRaid), line, now)
    {
      currentRaid := AfterMapLoad(currentRaid, line);
      var queued := AfterMatching(currentRaid, line);
      if queued.None? {
        return RaisedValueError;
      }
      currentRaid := AfterCreate(queued.value, line);
      if Contains(line, "GameStarted") && currentRaid.Some? {
        currentRaid := Some(currentRaid.value.(startTime := Some(now)));
        return Started(currentRaid.value);
      }
      if Contains(line, "UserMatchOver") && currentRaid.Some? {
        currentRaid := None;
      }
      if currentRaid.Some? && !HasServerIp(currentRaid.value) {
        var ip := FindServerIp(line);
        if ip.Some? {
          currentRaid := Some(currentRaid.value.(serverIp := ip));
        }
      }
      return NoEvent;
    }

    /** The pattern loop of parse_line: try each address pattern in turn, stop at the first public address. */
    static method FindServerIp(line: string) returns (ip: Option<string>)
      ensures ip == ServerIpFrom(line, IpPrefixes)
    {
      for k := 0 to |IpPrefixes|
        invariant ServerIpFrom(line, IpPrefixes[k..]) == ServerIpFrom(line, IpPrefixes)
      {
        assert IpPrefixes[k..][0] == IpPrefixes[k] && IpPrefixes[k..][1..] == IpPrefixes[k + 1..];
        var found := Search(line, IpPrefixes[k], IpAt);
        if found.Some? && !IsLocalAddress(found.value) {
          return found;
        }
      }
      return None;
    }
  }
}
