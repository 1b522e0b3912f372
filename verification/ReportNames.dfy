/** File names of queued diagnostic reports: printed, parsed and sorted as text. */
module ReportNames {
  import opened FixedWidth
  import opened Wrappers

  // ---------------------------------------------------------------------------
  // The order of text
  // ---------------------------------------------------------------------------

  predicate Less(a: string, b: string) {
    if a == [] then b != []
    else b != [] && (a[0] < b[0] || (a[0] == b[0] && Less(a[1..], b[1..])))
  }

  lemma {:induction false} LessIsTotal(a: string, b: string)
    ensures !(Less(a, b) && Less(b, a)) && !Less(a, a)
    ensures a == b || Less(a, b) || Less(b, a)
  {
    if a != [] {
      if b != [] {
        LessIsTotal(a[1..], b[1..]);
        assert a == [a[0]] + a[1..] && b == [b[0]] + b[1..];
      }
      LessIsTotal(a[1..], a[1..]);
    }
  }

  lemma {:induction false} LessIsTransitive(a: string, b: string, c: string)
    requires Less(a, b) && Less(b, c)
    ensures Less(a, c)
  {
    if a != [] && a[0] == b[0] == c[0] {
      LessIsTransitive(a[1..], b[1..], c[1..]);
    }
  }

  /** Fronts of equal length decide, and equal fronts leave the decision to the rest. */
  lemma {:induction false} LessByFront(a: string, b: string, x: string, y: string)
    requires |a| == |b|
    ensures Less(a + x, b + y) <==> Less(a, b) || (a == b && Less(x, y))
  {
    if a == [] {
      assert a + x == x && b + y == y;
    } else {
      LessByFront(a[1..], b[1..], x, y);
      assert (a + x)[1..] == a[1..] + x && (b + y)[1..] == b[1..] + y;
      assert a == [a[0]] + a[1..] && b == [b[0]] + b[1..];
    }
  }

  lemma EqualByFront(a: string, b: string, x: string, y: string)
    requires |a| == |b|
    ensures a + x == b + y <==> a == b && x == y
  {
    assert (a + x)[..|a|] == a && (b + y)[..|b|] == b;
    assert (a + x)[|a|..] == x && (b + y)[|b|..] == y;
  }

  predicate Increasing(names: seq<string>) {
    forall i, j :: 0 <= i < j < |names| ==> Less(names[i], names[j])
  }

  predicate IsLeast(names: set<string>, least: string) {
    least in names && forall n :: n in names && n != least ==> Less(least, n)
  }

  lemma {:induction false} LeastExists(names: set<string>)
    requires names != {}
    ensures exists least :: IsLeast(names, least)
    decreases |names|
  {
    var n :| n in names;
    if names == {n} {
      assert IsLeast(names, n);
    } else {
      LeastExists(names - {n});
      var rest :| IsLeast(names - {n}, rest);
      LessIsTotal(n, rest);
      var least := if Less(n, rest) then n else rest;
      forall m | m in names && m != least
        ensures Less(least, m)
      {
        if least == n && m != rest {
          LessIsTransitive(n, rest, m);
        }
      }
      assert IsLeast(names, least);
    }
  }

  lemma LeastIsUnique(names: set<string>)
    ensures forall a, b :: IsLeast(names, a) && IsLeast(names, b) ==> a == b
  {
    forall a, b | IsLeast(names, a) && IsLeast(names, b)
      ensures a == b
    {
      LessIsTotal(a, b);
    }
  }

  /** The names in increasing order. */
  function SortedNames(names: set<string>): (sorted: seq<string>)
    ensures Increasing(sorted)
    ensures forall n :: n in sorted <==> n in names
    ensures |sorted| == |names|
    decreases |names|
  {
    if names == {} then []
    else
      LeastExists(names);
      LeastIsUnique(names);
      var least :| IsLeast(names, least);
      var rest := SortedNames(names - {least});
      assert forall i :: 0 <= i < |rest| ==> rest[i] in rest;
      [least] + rest
  }

  // ---------------------------------------------------------------------------
  // Decimal numbers of a fixed width
  // ---------------------------------------------------------------------------

  function Power10(width: nat): nat {
    if width == 0 then 1 else 10 * Power10(width - 1)
  }

  function Digit(d: int): (c: char)
    requires 0 <= d < 10
    ensures '0' <= c <= '9'
  {
    '0' + d as char
  }

  function Padded(n: nat, width: nat): (s: string)
    ensures |s| == width && forall i :: 0 <= i < |s| ==> '0' <= s[i] <= '9'
  {
    if width == 0 then "" else Padded(n / 10, width - 1) + [Digit(n % 10)]
  }

  /** Text order of padded numbers is numeric order, as long as they fit the width. */
  lemma {:induction false} PaddedOrder(m: nat, n: nat, width: nat)
    requires m < Power10(width) && n < Power10(width)
    ensures Less(Padded(m, width), Padded(n, width)) <==> m < n
    ensures Padded(m, width) == Padded(n, width) <==> m == n
  {
    if width > 0 {
      PaddedOrder(m / 10, n / 10, width - 1);
      DigitOrder(m % 10, n % 10);
      LessByFront(Padded(m / 10, width - 1), Padded(n / 10, width - 1), [Digit(m % 10)], [Digit(n % 10)]);
      EqualByFront(Padded(m / 10, width - 1), Padded(n / 10, width - 1), [Digit(m % 10)], [Digit(n % 10)]);
    }
  }

  lemma DigitOrder(d: int, e: int)
    requires 0 <= d < 10 && 0 <= e < 10
    ensures Less([Digit(d)], [Digit(e)]) <==> d < e
    ensures [Digit(d)] == [Digit(e)] <==> d == e
  {
    assert [Digit(d)][0] == Digit(d) && [Digit(e)][0] == Digit(e);
  }

  // ---------------------------------------------------------------------------
  // Universally unique identifiers
  // ---------------------------------------------------------------------------

  /** The 32 hexadecimal digits of an identifier. */
  type Uuid = u: seq<int> | |u| == 32 && forall i :: 0 <= i < |u| ==> 0 <= u[i] < 16
    witness seq(32, _ => 0)

  function HexDigit(d: int): char
    requires 0 <= d < 16
  {
    if d < 10 then '0' + d as char else 'a' + (d - 10) as char
  }

  function HexValue(c: char): Option<int> {
    if '0' <= c <= '9' then Some((c - '0') as int)
    else if 'a' <= c <= 'f' then Some((c - 'a') as int + 10)
    else if 'A' <= c <= 'F' then Some((c - 'A') as int + 10)
    else None
  }

  function Hex(u: seq<int>): (s: string)
    requires forall i :: 0 <= i < |u| ==> 0 <= u[i] < 16
    ensures |s| == |u|
  {
    seq(|u|, i requires 0 <= i < |u| => HexDigit(u[i]))
  }

  function ParseHex(s: string): (u: Option<seq<int>>)
    ensures u.Some? ==> |u.value| == |s| && forall i :: 0 <= i < |s| ==> 0 <= u.value[i] < 16
  {
    if forall i :: 0 <= i < |s| ==> HexValue(s[i]).Some?
    then Some(seq(|s|, i requires 0 <= i < |s| && HexValue(s[i]).Some? => HexValue(s[i]).value)) else None
  }

  function Hyphenated(u: Uuid): (s: string)
    ensures |s| == 36
  {
    var h := Hex(u);
    h[..8] + "-" + h[8..12] + "-" + h[12..16] + "-" + h[16..20] + "-" + h[20..]
  }

  function ParseHyphenated(s: string): Option<Uuid>
    requires |s| == 36
  {
    if s[8] == '-' && s[13] == '-' && s[18] == '-' && s[23] == '-'
    then ParseHex(s[..8] + s[9..13] + s[14..18] + s[19..23] + s[24..]) else None
  }

  /** The plain, hyphenated, braced and URN spellings, in either case of letters. */
  function ParseUuid(s: string): Option<Uuid> {
    if |s| == 32 then ParseHex(s)
    else if |s| == 36 then ParseHyphenated(s)
    else if |s| == 38 && s[0] == '{' && s[37] == '}' then ParseHyphenated(s[1..37])
    else if |s| == 45 && s[..9] == "urn:uuid:" then ParseHyphenated(s[9..])
    else None
  }

  lemma HexRoundTrip(u: Uuid)
    ensures ParseHex(Hex(u)) == Some(u)
  {
    var h := Hex(u);
    assert forall i :: 0 <= i < |h| ==> HexValue(h[i]) == Some(u[i]);
    assert ParseHex(h).value == u;
  }

  lemma UuidRoundTrip(u: Uuid)
    ensures ParseUuid(Hyphenated(u)) == Some(u)
    ensures '.' !in Hyphenated(u)
  {
    var s, h := Hyphenated(u), Hex(u);
    assert s[..8] == h[..8] && s[9..13] == h[8..12] && s[14..18] == h[12..16];
    assert s[19..23] == h[16..20] && s[24..] == h[20..];
    assert s[..8] + s[9..13] + s[14..18] + s[19..23] + s[24..] == h;
    HexRoundTrip(u);
    assert '.' !in h;
  }

  // ---------------------------------------------------------------------------
  // Report names
  // ---------------------------------------------------------------------------

  const MAX_SCOPE := 128
  const TIME_WIDTH := 20
  const SUFFIX := ".json"

  /** Seconds since the Unix epoch. */
  type Time = i64

  predicate IsScopeChar(c: char) {
    '0' <= c <= '9' || 'a' <= c <= 'z' || 'A' <= c <= 'Z' || c == '-' || c == '_'
  }

  predicate ValidScope(scope: string) {
    scope != "" && |scope| <= MAX_SCOPE && forall i :: 0 <= i < |scope| ==> IsScopeChar(scope[i])
  }

  /** Times before the epoch are printed as the epoch. */
  function Printable(t: Time): nat {
    if t < 0 then 0 else t
  }

  function AfterTime(scope: string, id: Uuid): string {
    "." + (scope + ("." + (Hyphenated(id) + SUFFIX)))
  }

  function PrintName(t: Time, scope: string, id: Uuid): string {
    Padded(Printable(t), TIME_WIDTH) + AfterTime(scope, id)
  }

  /** The name of a report, unless the device or the identifier is malformed. */
  function ReportName(endedAt: Time, deviceId: string, reportId: string): Option<string> {
    if !ValidScope(deviceId) then None
    else
      match ParseUuid(reportId)
      case None => None
      case Some(id) => Some(PrintName(endedAt, deviceId, id))
  }

  function Split(s: string): (parts: seq<string>)
    ensures parts != []
  {
    if s == "" then [""]
    else
      var rest := Split(s[1..]);
      if s[0] == '.' then [""] + rest else [[s[0]] + rest[0]] + rest[1..]
  }

  /** The device a file name belongs to, when it is a report's name. */
  function ReportScope(name: string): Option<string> {
    var parts := Split(name);
    if |parts| == 4 && parts[3] == "json" && ParseUuid(parts[2]).Some? then Some(parts[1]) else None
  }

  lemma {:induction false} SplitAtDot(a: string, rest: string)
    requires '.' !in a
    ensures Split(a + ("." + rest)) == [a] + Split(rest)
  {
    var s := a + ("." + rest);
    if a == "" {
      assert s[1..] == rest;
    } else {
      SplitAtDot(a[1..], rest);
      assert s[1..] == a[1..] + ("." + rest);
      assert a == [a[0]] + a[1..];
    }
  }

  lemma {:induction false} SplitNoDot(a: string)
    requires '.' !in a
    ensures Split(a) == [a]
  {
    if a != "" {
      SplitNoDot(a[1..]);
      assert a == [a[0]] + a[1..];
    }
  }

  /** Parsing a printed name gives back its device. */
  lemma ScopeRoundTrip(t: Time, scope: string, id: Uuid)
    requires ValidScope(scope)
    ensures ReportScope(PrintName(t, scope, id)) == Some(scope)
  {
    var h := Hyphenated(id);
    UuidRoundTrip(id);
    SplitPrinted(Padded(Printable(t), TIME_WIDTH), scope, h);
  }

  lemma SplitPrinted(time: string, scope: string, h: string)
    requires '.' !in time && '.' !in scope && '.' !in h
    ensures Split(time + ("." + (scope + ("." + (h + SUFFIX))))) == [time, scope, h, "json"]
  {
    assert SUFFIX == "." + "json";
    SplitAtDot(time, scope + ("." + (h + SUFFIX)));
    SplitAtDot(scope, h + SUFFIX);
    SplitAtDot(h, "json");
    SplitNoDot("json");
  }

  lemma TimeFits(t: Time)
    ensures Printable(t) < Power10(TIME_WIDTH)
  {
    assert Power10(4) == 1_0000;
    assert Power10(8) == 1_0000 * Power10(4);
    assert Power10(12) == 1_0000 * Power10(8);
    assert Power10(16) == 1_0000 * Power10(12);
    assert Power10(20) == 1_0000 * Power10(16);
  }

  lemma RestIsInjective(scope: string, id: Uuid, id': Uuid)
    ensures AfterTime(scope, id) == AfterTime(scope, id') <==> id == id'
  {
    var h, h' := Hyphenated(id) + SUFFIX, Hyphenated(id') + SUFFIX;
    EqualByFront(".", ".", scope + ("." + h), scope + ("." + h'));
    EqualByFront(scope, scope, "." + h, "." + h');
    EqualByFront(".", ".", h, h');
    EqualByFront(Hyphenated(id), Hyphenated(id'), SUFFIX, SUFFIX);
    UuidRoundTrip(id);
    UuidRoundTrip(id');
  }

  /** Two names are the same exactly when printed time, device and identifier are. */
  lemma NamesAreInjective(t: Time, scope: string, id: Uuid, t': Time, scope': string, id': Uuid)
    requires ValidScope(scope) && ValidScope(scope')
    ensures PrintName(t, scope, id) == PrintName(t', scope', id') <==>
              Printable(t) == Printable(t') && scope == scope' && id == id'
  {
    TimeFits(t);
    TimeFits(t');
    PaddedOrder(Printable(t), Printable(t'), TIME_WIDTH);
    EqualByFront(Padded(Printable(t), TIME_WIDTH), Padded(Printable(t'), TIME_WIDTH),
                 AfterTime(scope, id), AfterTime(scope', id'));
    ScopeRoundTrip(t, scope, id);
    ScopeRoundTrip(t', scope', id');
    if scope == scope' {
      RestIsInjective(scope, id, id');
    }
  }

  /** Names sort by time first, whatever the devices and identifiers. */
  lemma NamesSortByTime(t: Time, scope: string, id: Uuid, t': Time, scope': string, id': Uuid)
    ensures Printable(t) < Printable(t') ==> Less(PrintName(t, scope, id), PrintName(t', scope', id'))
    ensures Less(PrintName(t, scope, id), PrintName(t', scope', id')) ==> Printable(t) <= Printable(t')
  {
    TimeFits(t);
    TimeFits(t');
    PaddedOrder(Printable(t), Printable(t'), TIME_WIDTH);
    LessByFront(Padded(Printable(t), TIME_WIDTH), Padded(Printable(t'), TIME_WIDTH),
                AfterTime(scope, id), AfterTime(scope', id'));
  }
}

/** Which of the waiting reports is tried next. */
module RetryRotation {
  import opened Wrappers
  import opened ReportNames

  /** The place of the first name after `last`, or the number of names when none is. */
  function FirstAfter(reports: seq<string>, last: string): (i: nat)
    ensures i <= |reports|
    ensures forall j :: 0 <= j < i ==> !Less(last, reports[j])
    ensures i < |reports| ==> Less(last, reports[i])
  {
    if reports == [] || Less(last, reports[0]) then 0 else 1 + FirstAfter(reports[1..], last)
  }

  /** The place of the next report to try. */
  function NextPlace(reports: seq<string>, last: Option<string>): (i: nat)
    requires reports != []
    ensures i < |reports|
  {
    if last.None? then 0
    else
      var i := FirstAfter(reports, last.value);
      if i < |reports| then i else 0
  }

  function NextReportName(reports: seq<string>, last: Option<string>): Option<string> {
    if reports == [] then None else Some(reports[NextPlace(reports, last)])
  }

  /** The reports tried by `n` attempts in a row. */
  function Attempts(reports: seq<string>, last: Option<string>, n: nat): (tried: seq<string>)
    requires reports != []
    ensures |tried| == n
    decreases n
  {
    if n == 0 then []
    else
      var name := reports[NextPlace(reports, last)];
      [name] + Attempts(reports, Some(name), n - 1)
  }

  lemma AfterTheOneAtPlace(reports: seq<string>, j: nat)
    requires Increasing(reports) && j < |reports|
    ensures NextPlace(reports, Some(reports[j])) == if j + 1 < |reports| then j + 1 else 0
  {
    LessIsTotal(reports[j], reports[j]);
    var i := FirstAfter(reports, reports[j]);
    if i < j {
      LessIsTotal(reports[i], reports[j]);
    }
    assert j + 1 < |reports| ==> Less(reports[j], reports[j + 1]);
  }

  /** The place `i` steps on, around the end. */
  function Around(i: nat, n: nat): nat {
    if i < n then i else i - n
  }

  lemma {:induction false} InTurn(reports: seq<string>, last: Option<string>, n: nat, k: nat)
    requires Increasing(reports) && reports != [] && k < n <= |reports|
    ensures Attempts(reports, last, n)[k] == reports[Around(NextPlace(reports, last) + k, |reports|)]
    decreases k
  {
    if k > 0 {
      var i := NextPlace(reports, last);
      AfterTheOneAtPlace(reports, i);
      InTurn(reports, Some(reports[i]), n - 1, k - 1);
    }
  }

  lemma {:induction false} AttemptsSplit(reports: seq<string>, last: Option<string>, m: nat, n: nat)
    requires reports != [] && m > 0
    ensures Attempts(reports, last, m + n) ==
              Attempts(reports, last, m) + Attempts(reports, Some(Attempts(reports, last, m)[m - 1]), n)
    decreases m
  {
    if m > 1 {
      AttemptsSplit(reports, Some(reports[NextPlace(reports, last)]), m - 1, n);
    }
  }

  /** One more attempt continues from the one before it. */
  lemma OneMoreAttempt(reports: seq<string>, last: Option<string>, tried: seq<string>, now: Option<string>)
    requires reports != [] && tried == Attempts(reports, last, |tried|)
    requires now == if tried == [] then last else Some(tried[|tried| - 1])
    ensures tried + [reports[NextPlace(reports, now)]] == Attempts(reports, last, |tried| + 1)
  {
    if tried != [] {
      AttemptsSplit(reports, last, |tried|, 1);
      assert Attempts(reports, now, 1) == [reports[NextPlace(reports, now)]];
    }
  }

  /** The reports tried at the marked steps, when `lasts` tells what was tried last before each step. */
  function Picked(reports: seq<string>, tries: seq<bool>, lasts: seq<Option<string>>): seq<string>
    requires reports != [] && |lasts| >= |tries|
  {
    if tries == [] then []
    else
      var k := |tries| - 1;
      Picked(reports, tries[..k], lasts) + if tries[k] then [reports[NextPlace(reports, lasts[k])]] else []
  }

  /** When every try is remembered and nothing else is, the marked steps follow the rotation. */
  lemma {:induction false} PickedFollowsTheRotation(reports: seq<string>, tries: seq<bool>,
                                                    lasts: seq<Option<string>>, n: nat)
    requires reports != [] && |lasts| == |tries| + 1 && n <= |tries|
    requires forall k :: 0 <= k < |tries| ==>
               lasts[k + 1] == if tries[k] then Some(reports[NextPlace(reports, lasts[k])]) else lasts[k]
    ensures var picked := Picked(reports, tries[..n], lasts);
            && picked == Attempts(reports, lasts[0], |picked|)
            && lasts[n] == if picked == [] then lasts[0] else Some(picked[|picked| - 1])
    decreases n
  {
    if n > 0 {
      PickedFollowsTheRotation(reports, tries, lasts, n - 1);
      assert tries[..n][..n - 1] == tries[..n - 1];
      OneMoreAttempt(reports, lasts[0], Picked(reports, tries[..n - 1], lasts), lasts[n - 1]);
    }
  }

  /**
   Whatever was tried last, as many attempts as there are reports try each of them exactly once:
   first those after the last one, in order, then the others.
   */
  lemma EveryReportHasItsTurn(reports: seq<string>, last: Option<string>)
    requires Increasing(reports) && reports != []
    ensures var i := NextPlace(reports, last);
            Attempts(reports, last, |reports|) == reports[i..] + reports[..i]
  {
    var i := NextPlace(reports, last);
    forall k | 0 <= k < |reports|
      ensures Attempts(reports, last, |reports|)[k] == (reports[i..] + reports[..i])[k]
    {
      InTurn(reports, last, |reports|, k);
    }
  }

  lemma EachExactlyOnce(reports: seq<string>, last: Option<string>)
    requires Increasing(reports) && reports != []
    ensures multiset(Attempts(reports, last, |reports|)) == multiset(reports)
  {
    EveryReportHasItsTurn(reports, last);
    var i := NextPlace(reports, last);
    assert reports == reports[..i] + reports[i..];
  }

  lemma AsManyTriesAsReports(reports: seq<string>, tries: seq<bool>, lasts: seq<Option<string>>)
    requires Increasing(reports) && reports != [] && |lasts| == |tries| + 1
    requires forall k :: 0 <= k < |tries| ==>
               lasts[k + 1] == if tries[k] then Some(reports[NextPlace(reports, lasts[k])]) else lasts[k]
    requires |Picked(reports, tries, lasts)| == |reports|
    ensures multiset(Picked(reports, tries, lasts)) == multiset(reports)
  {
    PickedFollowsTheRotation(reports, tries, lasts, |tries|);
    assert tries[..|tries|] == tries;
    EachExactlyOnce(reports, lasts[0]);
  }
}
