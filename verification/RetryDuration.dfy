/** Durations in rate-limit text: "try again in 2h 30m" and the like, added up in capped 128-bit arithmetic. */
module RetryDuration {
  import opened Options
  import opened Backoff

  const U64_MAX: nat := 0xFFFF_FFFF_FFFF_FFFF
  const MARKERS: seq<string> := ["try again in", "retry after", "retry in"]

  datatype Unit = Days | Hours | Minutes | Seconds | Millis

  /** The sum so far, or a number that did not fit. */
  datatype Scanned = Overflow | Sum(total: nat, components: nat)

  predicate IsDigit(c: char) {
    '0' <= c <= '9'
  }

  predicate IsAsciiSpace(c: char) {
    c == ' ' || c == '\t' || c == '\n' || c == '\r' || c == '\U{000C}'
  }

  predicate IsSeparator(c: char) {
    IsAsciiSpace(c) || c == ','
  }

  /** The White_Space property of the Unicode Standard. */
  predicate IsSpace(c: char) {
    '\t' <= c <= '\r' || c == ' ' || c == '\U{0085}' || c == '\U{00A0}' || c == '\U{1680}'
    || '\U{2000}' <= c <= '\U{200A}' || c == '\U{2028}' || c == '\U{2029}' || c == '\U{202F}'
    || c == '\U{205F}' || c == '\U{3000}'
  }

  function LowerChar(c: char): char {
    if 'A' <= c <= 'Z' then c - 'A' + 'a' else c
  }

  function Lower(s: string): string {
    seq(|s|, i requires 0 <= i < |s| => LowerChar(s[i]))
  }

  /** Drops what satisfies p from the front. */
  function DropWhile(p: char -> bool, s: string): (r: string)
    ensures |r| <= |s|
    ensures r != [] ==> !p(r[0])
  {
    if s != [] && p(s[0]) then DropWhile(p, s[1..]) else s
  }

  function DigitRun(s: string): (n: nat)
    ensures n <= |s| && forall i :: 0 <= i < n ==> IsDigit(s[i])
    ensures n < |s| ==> !IsDigit(s[n])
  {
    if s == [] || !IsDigit(s[0]) then 0 else 1 + DigitRun(s[1..])
  }

  function Value(digits: string): nat
    requires forall i :: 0 <= i < |digits| ==> IsDigit(digits[i])
  {
    if digits == [] then 0
    else
      assert IsDigit(digits[|digits| - 1]);
      Value(digits[..|digits| - 1]) * 10 + (digits[|digits| - 1] - '0') as nat
  }

  predicate StartsWith(s: string, prefix: string) {
    |prefix| <= |s| && s[..|prefix|] == prefix
  }

  function UnitAt(s: string): (u: Option<Unit>)
    ensures u.Some? ==> |TextOf(u.value)| <= |s| && StartsWith(s, TextOf(u.value))
  {
    if StartsWith(s, "ms") then Some(Millis)
    else if s == [] then None
    else
      match s[0]
      case 'd' => Some(Days)
      case 'h' => Some(Hours)
      case 'm' => Some(Minutes)
      case 's' => Some(Seconds)
      case _ => None
  }

  function MillisPer(u: Unit): nat {
    match u
    case Days => 86_400_000
    case Hours => 3_600_000
    case Minutes => 60_000
    case Seconds => 1_000
    case Millis => 1
  }

  function TextOf(u: Unit): (s: string)
    ensures 1 <= |s| <= 2
  {
    match u
    case Days => "d"
    case Hours => "h"
    case Minutes => "m"
    case Seconds => "s"
    case Millis => "ms"
  }

  /** Components from the front until something is not one. */
  function Components(s: string, total: nat, count: nat): Scanned
    decreases |s|
  {
    var t := DropWhile(IsSeparator, s);
    if t == [] || !IsDigit(t[0]) then Sum(total, count)
    else
      var n := DigitRun(t);
      var number, u := Value(t[..n]), DropWhile(IsAsciiSpace, t[n..]);
      if number > U128_MAX then Overflow
      else
        match UnitAt(u)
        case None => Sum(total, count)
        case Some(unit) =>
          if number * MillisPer(unit) > U128_MAX || total + number * MillisPer(unit) > U128_MAX then Overflow
          else Components(u[|TextOf(unit)|..], total + number * MillisPer(unit), count + 1)
  }

  /** The first position of the phrase, if it occurs. */
  function Find(s: string, phrase: string): (at: Option<nat>)
    ensures at.Some? ==> at.value + |phrase| <= |s|
  {
    if StartsWith(s, phrase) then Some(0)
    else if s == [] then None
    else
      match Find(s[1..], phrase)
      case None => None
      case Some(k) => Some(k + 1)
  }

  /** What follows the first marker, in order of preference, that occurs. */
  function Candidate(s: string, markers: seq<string>): string {
    if markers == [] then s
    else
      match Find(s, markers[0])
      case Some(at) => s[at + |markers[0]|..]
      case None => Candidate(s, markers[1..])
  }

  function Capped(x: Scanned): Option<nat> {
    if x.Overflow? || x.components == 0 || x.total > U64_MAX || x.total > MAX_PARSED_COOLDOWN then None
    else Some(x.total)
  }

  function Parsed(input: string): Option<nat> {
    var candidate := DropWhile(IsSpace, Candidate(Lower(input), MARKERS));
    if candidate != [] && candidate[0] == '-' then None else Capped(Components(candidate, 0, 0))
  }

  method FindMarker(lower: string) returns (candidate: string)
    ensures candidate == Candidate(lower, MARKERS)
  {
    candidate := lower;
    for i := 0 to |MARKERS|
      invariant candidate == lower && Candidate(lower, MARKERS) == Candidate(lower, MARKERS[i..])
    {
      assert MARKERS[i..][0] == MARKERS[i] && MARKERS[i..][1..] == MARKERS[i + 1..];
      match Find(lower, MARKERS[i])
      case Some(position) => return lower[position + |MARKERS[i]|..];
      case None =>
    }
  }

  method SkipWhile(p: char -> bool, s: string, start: nat) returns (index: nat)
    requires start <= |s|
    ensures start <= index <= |s| && s[index..] == DropWhile(p, s[start..])
  {
    index := start;
    while index < |s| && p(s[index])
      invariant start <= index <= |s| && DropWhile(p, s[index..]) == DropWhile(p, s[start..])
    {
      assert s[index..][1..] == s[index + 1..];
      index := index + 1;
    }
  }

  method SkipDigits(s: string, start: nat) returns (index: nat)
    requires start <= |s|
    ensures start <= index <= |s| && index - start == DigitRun(s[start..])
  {
    index := start;
    while index < |s| && IsDigit(s[index])
      invariant start <= index <= |s| && DigitRun(s[start..]) == index - start + DigitRun(s[index..])
    {
      assert s[index..][1..] == s[index + 1..];
      index := index + 1;
    }
  }

  /** Adds up the components from the front; the scan always moves on. */
  method AddComponents(candidate: string) returns (sum: Scanned)
    ensures sum == Components(candidate, 0, 0)
  {
    hide Value, UnitAt, DropWhile, DigitRun, MillisPer, TextOf, StartsWith, IsSeparator, IsAsciiSpace;
    var index: nat, total: nat, components: nat := 0, 0, 0;
    assert candidate[0..] == candidate;
    while index < |candidate|
      invariant 0 <= index <= |candidate|
      invariant Components(candidate[index..], total, components) == Components(candidate, 0, 0)
      decreases |candidate| - index
    {
      index := SkipWhile(IsSeparator, candidate, index);
      if index >= |candidate| || !IsDigit(candidate[index]) { break; }
      var numberStart := index;
      index := SkipDigits(candidate, index);
      assert candidate[numberStart..][..index - numberStart] == candidate[numberStart..index];
      assert candidate[numberStart..][index - numberStart..] == candidate[index..];
      var number := Value(candidate[numberStart..index]);
      if number > U128_MAX { return Overflow; }
      index := SkipWhile(IsAsciiSpace, candidate, index);
      var unit := UnitAt(candidate[index..]);
      if unit.None? { break; }
      var part := number * MillisPer(unit.value);
      if part > U128_MAX || total + part > U128_MAX { return Overflow; }
      total, components := total + part, components + 1;
      assert candidate[index..][|TextOf(unit.value)|..] == candidate[index + |TextOf(unit.value)|..];
      index := index + |TextOf(unit.value)|;
    }
    return Sum(total, components);
  }

  /** Reads the duration in a rate-limit message, if there is one within the cap. */
  method ParseRetryDuration(input: string) returns (r: Option<nat>)
    ensures r == Parsed(input)
    ensures r.Some? ==> r.value <= MAX_PARSED_COOLDOWN
  {
    hide Components, Candidate, Lower;
    var candidate := FindMarker(Lower(input));
    var start := SkipWhile(IsSpace, candidate, 0);
    assert candidate[0..] == candidate;
    candidate := candidate[start..];
    if candidate != [] && candidate[0] == '-' { return None; }
    var sum := AddComponents(candidate);
    return Capped(sum);
  }
}

/** Printing a list of components and parsing it back. */
module RetryDurationTheorems {
  import opened Options
  import opened Backoff
  import opened RetryDuration

  /** A written component: what separates it from the one before, its digits, optional blanks, and its unit. */
  datatype Component = Component(separator: string, digits: string, gap: string, unit: Unit)

  /** Blanks, and the comma between components. */
  const BLANKS := " \t\n\r\U{000C}"

  predicate WellWritten(c: Component) {
    && (forall i :: 0 <= i < |c.separator| ==> c.separator[i] in BLANKS + ",")
    && c.digits != [] && (forall i :: 0 <= i < |c.digits| ==> IsDigit(c.digits[i]))
    && (forall i :: 0 <= i < |c.gap| ==> c.gap[i] in BLANKS)
  }

  function Letters(u: Unit): string {
    match u case Days => "d" case Hours => "h" case Minutes => "m" case Seconds => "s" case Millis => "ms"
  }

  /** What one of the unit is worth, in milliseconds. */
  function Worth(u: Unit): nat {
    match u
    case Millis => 1
    case Seconds => 1000
    case Minutes => 60 * 1000
    case Hours => 60 * 60 * 1000
    case Days => 24 * 60 * 60 * 1000
  }

  lemma UnitsAreRight(u: Unit)
    ensures TextOf(u) == Letters(u) && MillisPer(u) == Worth(u)
  {
  }

  lemma BlanksAreRight(c: Component)
    requires WellWritten(c)
    ensures forall i :: 0 <= i < |c.separator| ==> IsSeparator(c.separator[i])
    ensures forall i :: 0 <= i < |c.gap| ==> IsAsciiSpace(c.gap[i])
  {
    assert forall i :: 0 <= i < |c.separator| ==> c.separator[i] == ',' || c.separator[i] in BLANKS;
  }

  function Written(c: Component, rest: string): string {
    c.separator + (c.digits + (c.gap + (Letters(c.unit) + rest)))
  }

  function Print(cs: seq<Component>): string {
    if cs == [] then []
    else Written(cs[0], Print(cs[1..]))
  }

  /** The exact sum, in numbers of any size. */
  function Total(cs: seq<Component>): nat
    requires forall c :: c in cs ==> WellWritten(c)
  {
    if cs == [] then 0
    else
      assert WellWritten(cs[0]);
      Value(cs[0].digits) * Worth(cs[0].unit) + Total(cs[1..])
  }

  /** Text that does not go on with the list: no further number, and no s that would turn a final m into ms. */
  predicate EndsList(rest: string) {
    var t := DropWhile(IsSeparator, rest);
    (t == [] || !IsDigit(t[0])) && (rest == [] || rest[0] != 's')
  }

  lemma {:induction false} DropPrefix(p: char -> bool, a: string, b: string)
    requires forall i :: 0 <= i < |a| ==> p(a[i])
    ensures DropWhile(p, a + b) == DropWhile(p, b)
  {
    if a == [] {
      assert a + b == b;
    } else {
      assert (a + b)[1..] == a[1..] + b;
      DropPrefix(p, a[1..], b);
    }
  }

  lemma {:induction false} DigitRunOf(digits: string, rest: string)
    requires forall i :: 0 <= i < |digits| ==> IsDigit(digits[i])
    requires rest == [] || !IsDigit(rest[0])
    ensures DigitRun(digits + rest) == |digits|
  {
    var s := digits + rest;
    assert forall i :: 0 <= i < |digits| ==> s[i] == digits[i];
    assert rest != [] ==> s[|digits|] == rest[0];
  }

  lemma UnitTextReads(u: Unit, rest: string)
    requires rest == [] || rest[0] != 's'
    ensures UnitAt(TextOf(u) + rest) == Some(u) && (TextOf(u) + rest)[|TextOf(u)|..] == rest
    ensures var c := (TextOf(u) + rest)[0]; !IsDigit(c) && !IsAsciiSpace(c)
  {
    var s := TextOf(u) + rest;
    match u
    case Millis => assert s[..2] == "ms";
    case Minutes => assert s[0] == 'm' && (|s| >= 2 ==> s[1] == rest[0]);
    case Days => assert s[0] == 'd';
    case Hours => assert s[0] == 'h';
    case Seconds => assert s[0] == 's';
  }

  /** What follows a component never starts with s. */
  lemma NoS(cs: seq<Component>, rest: string)
    requires (forall c :: c in cs ==> WellWritten(c)) && EndsList(rest)
    ensures var s := Print(cs) + rest; s == [] || s[0] != 's'
  {
    if cs != [] {
      var c, s := cs[0], Print(cs) + rest;
      assert WellWritten(c);
      if c.separator != [] { assert s[0] == c.separator[0]; } else { assert s[0] == c.digits[0]; }
    } else {
      assert Print(cs) + rest == rest;
    }
  }

  lemma Unfolds(s: string, t: string, n: nat, u: string, unit: Unit, total: nat, count: nat)
    requires t == DropWhile(IsSeparator, s) && t != [] && IsDigit(t[0])
    requires n == DigitRun(t) && u == DropWhile(IsAsciiSpace, t[n..]) && UnitAt(u) == Some(unit)
    ensures var part := Value(t[..n]) * MillisPer(unit);
      Components(s, total, count) ==
        if Value(t[..n]) > U128_MAX || part > U128_MAX || total + part > U128_MAX then Overflow
        else Components(u[|TextOf(unit)|..], total + part, count + 1)
  {
    hide DropWhile, DigitRun, UnitAt, TextOf, MillisPer, Value;
  }

  /** Where the scan finds the digits, the unit and the rest of one written component. */
  lemma ScansOne(c: Component, rest: string)
    requires WellWritten(c) && (rest == [] || rest[0] != 's')
    ensures var tail := Letters(c.unit) + rest;
            var t := c.digits + (c.gap + tail);
      && DropWhile(IsSeparator, Written(c, rest)) == t && t[0] == c.digits[0]
      && DigitRun(t) == |c.digits| && t[..|c.digits|] == c.digits
      && DropWhile(IsAsciiSpace, t[|c.digits|..]) == tail
  {
    UnitsAreRight(c.unit);
    UnitTextReads(c.unit, rest);
    BlanksAreRight(c);
    hide DropWhile, DigitRun, Letters, TextOf, UnitAt, IsSeparator, IsAsciiSpace;
    var tail := Letters(c.unit) + rest;
    var after := c.gap + tail;
    var t := c.digits + after;
    DropPrefix(IsSeparator, c.separator, t);
    assert t[0] == c.digits[0] && IsDigit(t[0]);
    DigitIsKept(t);
    assert t[..|c.digits|] == c.digits && t[|c.digits|..] == after;
    DropPrefix(IsAsciiSpace, c.gap, tail);
    LetterIsKept(tail);
    if c.gap != [] {
      assert after[0] == c.gap[0];
      BlankIsNoDigit(after[0]);
    } else {
      assert after == tail;
    }
    DigitRunOf(c.digits, after);
  }

  lemma DigitIsKept(t: string)
    requires t != [] && IsDigit(t[0])
    ensures DropWhile(IsSeparator, t) == t
  {
  }

  lemma LetterIsKept(t: string)
    requires t != [] && !IsAsciiSpace(t[0])
    ensures DropWhile(IsAsciiSpace, t) == t
  {
  }

  lemma BlankIsNoDigit(c: char)
    requires IsAsciiSpace(c)
    ensures !IsDigit(c)
  {
  }

  /** One component, spelled out. */
  lemma ReadsOne(c: Component, rest: string, total: nat, count: nat)
    requires WellWritten(c) && (rest == [] || rest[0] != 's')
    ensures var part := Value(c.digits) * MillisPer(c.unit);
      Components(Written(c, rest), total, count) ==
        if Value(c.digits) > U128_MAX || part > U128_MAX || total + part > U128_MAX then Overflow
        else Components(rest, total + part, count + 1)
  {
    hide DropWhile, DigitRun, UnitAt, TextOf, MillisPer, Value, Components, Written;
    var tail := TextOf(c.unit) + rest;
    UnitsAreRight(c.unit);
    ScansOne(c, rest);
    UnitTextReads(c.unit, rest);
    Unfolds(Written(c, rest), c.digits + (c.gap + tail), |c.digits|, tail, c.unit, total, count);
  }

  lemma WrittenThen(c: Component, a: string, b: string)
    ensures Written(c, a) + b == Written(c, a + b)
  {
    var unit := TextOf(c.unit);
    Regroup(c.separator, c.digits + (c.gap + (unit + a)), b);
    Regroup(c.digits, c.gap + (unit + a), b);
    Regroup(c.gap, unit + a, b);
    Regroup(unit, a, b);
  }

  lemma EndIsRead(rest: string, total: nat, count: nat)
    requires EndsList(rest)
    ensures Components(rest, total, count) == Sum(total, count)
  {
  }

  /** Parsing a printed list adds exactly its total, unless a partial sum leaves 128 bits, and then the total does. */
  lemma {:induction false} ReadsAll(cs: seq<Component>, rest: string, total: nat, count: nat)
    requires (forall c :: c in cs ==> WellWritten(c)) && EndsList(rest) && total <= U128_MAX
    ensures var x := Components(Print(cs) + rest, total, count);
      if total + Total(cs) > U128_MAX then x == Overflow else x == Sum(total + Total(cs), count + |cs|)
    decreases |cs|
  {
    hide Value, Components, EndsList, Written, MillisPer;
    if cs == [] {
      assert Print(cs) + rest == rest;
      EndIsRead(rest, total, count);
    } else {
      var c, more := cs[0], Print(cs[1..]) + rest;
      assert WellWritten(c);
      NoS(cs[1..], rest);
      ReadsOne(c, more, total, count);
      WrittenThen(c, Print(cs[1..]), rest);
      var part := Value(c.digits) * MillisPer(c.unit);
      UnitCounts(c.unit);
      UnitsAreRight(c.unit);
      AtLeast(Value(c.digits), MillisPer(c.unit));
      if total + part <= U128_MAX { ReadsAll(cs[1..], rest, total + part, count + 1); }
    }
  }

  lemma UnitCounts(u: Unit)
    ensures MillisPer(u) >= 1
  {
  }

  lemma AtLeast(n: nat, per: nat)
    requires per >= 1
    ensures n <= n * per
  {
  }

  lemma TrimmedIsWellWritten(c: Component)
    requires WellWritten(c)
    ensures WellWritten(c.(separator := DropWhile(IsSpace, c.separator)))
  {
    DropKeeps(c.separator);
    hide DropWhile;
    var kept := DropWhile(IsSpace, c.separator);
    forall i | 0 <= i < |kept| ensures kept[i] in BLANKS + "," {
      var j :| 0 <= j < |c.separator| && c.separator[j] == kept[i];
    }
  }

  lemma SeparatorsOnly(cs: seq<Component>, rest: string)
    requires cs != [] && WellWritten(cs[0])
    ensures var s := Print(cs) + rest;
            var trimmed := cs[0].(separator := DropWhile(IsSpace, cs[0].separator));
      && DropWhile(IsSpace, s) == Print([trimmed] + cs[1..]) + rest
      && WellWritten(trimmed) && DropWhile(IsSpace, s) != [] && DropWhile(IsSpace, s)[0] != '-'
  {
    var c := cs[0];
    TrimmedIsWellWritten(c);
    var trimmed := c.(separator := DropWhile(IsSpace, c.separator));
    var tail := c.digits + (c.gap + (Letters(c.unit) + Print(cs[1..])));
    var all := [trimmed] + cs[1..];
    assert all[0] == trimmed && all[1..] == cs[1..];
    BlanksAreRight(trimmed);
    assert IsDigit(c.digits[0]);
    hide DropWhile, WellWritten, Letters, IsSeparator, IsSpace;
    Regroup(c.separator, tail, rest);
    Regroup(trimmed.separator, tail, rest);
    assert tail + rest != [] && (tail + rest)[0] == c.digits[0];
    DropInside(c.separator, tail + rest);
    FirstIsNoMinus(trimmed, tail + rest);
  }

  lemma FirstIsNoMinus(c: Component, more: string)
    requires WellWritten(c) && more != [] && IsDigit(more[0])
    ensures c.separator + more != [] && (c.separator + more)[0] != '-'
  {
    BlanksAreRight(c);
    if c.separator == [] { assert (c.separator + more)[0] == more[0]; }
  }

  lemma Regroup(a: string, b: string, c: string)
    ensures (a + b) + c == a + (b + c)
  {
  }

  /** Trimming stops inside the separators or right behind them. */
  lemma {:induction false} DropInside(separators: string, more: string)
    requires more != [] && IsDigit(more[0])
    ensures DropWhile(IsSpace, separators + more) == DropWhile(IsSpace, separators) + more
  {
    if separators == [] {
      assert separators + more == more;
    } else {
      assert (separators + more)[1..] == separators[1..] + more;
      DropInside(separators[1..], more);
    }
  }

  lemma {:induction false} DropKeeps(s: string)
    ensures forall i :: 0 <= i < |DropWhile(IsSpace, s)| ==> DropWhile(IsSpace, s)[i] in s
  {
    if s != [] { DropKeeps(s[1..]); }
  }

  /**
   * For every non-empty list of components of any size, in any letter case, after any text the marker search skips
   * and before any text that does not continue the list: the parse is the exact total when that is at most 366 days,
   * and nothing otherwise. The 64-bit and 128-bit limits never show.
   */
  lemma ParsesExactly(input: string, cs: seq<Component>, rest: string)
    requires cs != [] && (forall c :: c in cs ==> WellWritten(c)) && EndsList(rest)
    requires Candidate(Lower(input), MARKERS) == Print(cs) + rest
    ensures Parsed(input) == if Total(cs) <= MAX_PARSED_COOLDOWN then Some(Total(cs)) else None
  {
    hide Components, Value, EndsList, WellWritten, Print, Candidate, Lower;
    assert cs[0] in cs;
    SeparatorsOnly(cs, rest);
    var trimmed := cs[0].(separator := DropWhile(IsSpace, cs[0].separator));
    var all := [trimmed] + cs[1..];
    assert all[0] == trimmed && all[1..] == cs[1..];
    assert forall c :: c in all ==> c == trimmed || c in cs;
    ReadsAll(all, rest, 0, 0);
  }

  // --- marked text ----------------------------------------------------------------------------

  /** The letters of a printed list, of its units, and of a minus sign. */
  predicate Plain(s: string) {
    forall i :: 0 <= i < |s| ==> IsDigit(s[i]) || IsSeparator(s[i]) || s[i] in "dhms-"
  }

  lemma {:induction false} PrintIsPlain(cs: seq<Component>)
    requires forall c :: c in cs ==> WellWritten(c)
    ensures Plain(Print(cs))
  {
    if cs != [] {
      var c, more := cs[0], Print(cs[1..]);
      assert WellWritten(c);
      PrintIsPlain(cs[1..]);
      assert Plain(TextOf(c.unit));
      PlainConcat(TextOf(c.unit), more);
      PlainConcat(c.gap, TextOf(c.unit) + more);
      PlainConcat(c.digits, c.gap + (TextOf(c.unit) + more));
      PlainConcat(c.separator, c.digits + (c.gap + (TextOf(c.unit) + more)));
    }
  }

  lemma PlainConcat(a: string, b: string)
    requires Plain(a) && Plain(b)
    ensures Plain(a + b)
  {
  }

  lemma PrefixLetters(s: string, phrase: string, k: nat)
    requires k < |phrase|
    ensures StartsWith(s, phrase) ==> phrase[k] in s
  {
  }

  /** A phrase does not occur in text that lacks one of its letters. */
  lemma {:induction false} NotFound(s: string, phrase: string, k: nat)
    requires k < |phrase| && phrase[k] !in s
    ensures Find(s, phrase) == None
  {
    PrefixLetters(s, phrase, k);
    if s != [] {
      assert forall c :: c in s[1..] ==> c in s;
      NotFound(s[1..], phrase, k);
    }
  }

  lemma Unmarked(s: string, markers: seq<string>, k: nat)
    requires markers != [] && k < |markers[0]| && markers[0][k] !in s
    ensures Candidate(s, markers) == Candidate(s, markers[1..])
  {
    NotFound(s, markers[0], k);
  }

  /** Text with no marker is parsed from its start. */
  lemma UnmarkedText(s: string)
    requires 'r' !in s
    ensures Candidate(s, MARKERS) == s
  {
    Unmarked(s, MARKERS, 1);
    Unmarked(s, MARKERS[1..], 0);
    Unmarked(s, MARKERS[2..], 0);
    assert MARKERS[1..][1..] == MARKERS[2..] && MARKERS[2..][1..] == [];
  }

  lemma LedBy(marker: string, body: string, markers: seq<string>)
    requires markers != [] && markers[0] == marker
    ensures Candidate(marker + body, markers) == body
  {
  }

  /** Each of the three phrases is skipped when it leads the text. */
  lemma MarkedText(m: nat, body: string)
    requires m < |MARKERS| && Plain(body)
    ensures Candidate(MARKERS[m] + body, MARKERS) == body
  {
    var s := MARKERS[m] + body;
    assert MARKERS[1..][1..] == MARKERS[2..] && MARKERS[0..] == MARKERS;
    if m > 0 { Unmarked(s, MARKERS, 5); }
    if m > 1 { Unmarked(s, MARKERS[1..], 7); }
    LedBy(MARKERS[m], body, MARKERS[m..]);
  }

  /** A list on its own or after any of the markers, in any letter case. */
  lemma PrintedDurationsRoundTrip(input: string, cs: seq<Component>)
    requires cs != [] && forall c :: c in cs ==> WellWritten(c)
    requires Lower(input) == Print(cs) || exists m :: 0 <= m < |MARKERS| && Lower(input) == MARKERS[m] + Print(cs)
    ensures Parsed(input) == if Total(cs) <= MAX_PARSED_COOLDOWN then Some(Total(cs)) else None
  {
    hide Value, WellWritten, Lower, Parsed;
    var body := Print(cs);
    PrintIsPlain(cs);
    if Lower(input) == body {
      UnmarkedText(body);
    } else {
      var m :| 0 <= m < |MARKERS| && Lower(input) == MARKERS[m] + body;
      MarkedText(m, body);
    }
    assert body + [] == body;
    ParsesExactly(input, cs, []);
  }

  /** Decimal notation. */
  function Numeral(n: nat): (digits: string)
    ensures digits != [] && forall i :: 0 <= i < |digits| ==> IsDigit(digits[i])
  {
    var last := ['0' + (n % 10) as char];
    if n < 10 then last else Numeral(n / 10) + last
  }

  lemma {:induction false} NumeralReads(n: nat)
    ensures Value(Numeral(n)) == n
  {
    if n >= 10 {
      NumeralReads(n / 10);
      assert Numeral(n)[..|Numeral(n)| - 1] == Numeral(n / 10);
    }
  }

  lemma NegativeIsRefused(input: string)
    requires var s := DropWhile(IsSpace, Candidate(Lower(input), MARKERS)); s != [] && s[0] == '-'
    ensures Parsed(input) == None
  {
  }

  /** A minus sign before the list, after any of the markers and any blanks, refuses it whatever follows in the list. */
  lemma NegativeDurationsAreRefused(input: string, m: nat, blanks: string, cs: seq<Component>)
    requires m < |MARKERS| && forall c :: c in cs ==> WellWritten(c)
    requires forall i :: 0 <= i < |blanks| ==> IsAsciiSpace(blanks[i])
    requires Lower(input) == MARKERS[m] + (blanks + ("-" + Print(cs)))
    ensures Parsed(input) == None
  {
    var signed := "-" + Print(cs);
    PrintIsPlain(cs);
    PlainConcat("-", Print(cs));
    PlainConcat(blanks, signed);
    hide Parsed, Print, Lower;
    MarkedText(m, blanks + signed);
    assert forall i :: 0 <= i < |blanks| ==> IsSpace(blanks[i]);
    DropPrefix(IsSpace, blanks, signed);
    assert DropWhile(IsSpace, signed) == signed && signed[0] == '-';
    NegativeIsRefused(input);
  }

  // --- anywhere in a message ------------------------------------------------------------------------

  const PHRASES: seq<string> := ["try again in", "retry after", "retry in"]

  predicate OccursAt(s: string, phrase: string, k: nat) {
    k + |phrase| <= |s| && s[k..k + |phrase|] == phrase
  }

  predicate Occurs(s: string, phrase: string) {
    exists k :: 0 <= k <= |s| && OccursAt(s, phrase, k)
  }

  lemma OccursLater(s: string, phrase: string, k: nat)
    requires s != []
    ensures k > 0 ==> (OccursAt(s, phrase, k) <==> OccursAt(s[1..], phrase, k - 1))
  {
    if k > 0 && k + |phrase| <= |s| { assert s[1..][k - 1..k - 1 + |phrase|] == s[k..k + |phrase|]; }
  }

  /** The search finds the first place where the phrase stands, and fails only if there is none. */
  lemma {:induction false} FindMeans(s: string, phrase: string)
    requires phrase != []
    ensures var at := Find(s, phrase);
      && (at.Some? ==> OccursAt(s, phrase, at.value) && forall j :: 0 <= j < at.value ==> !OccursAt(s, phrase, j))
      && (at.None? ==> forall j: nat :: !OccursAt(s, phrase, j))
  {
    assert StartsWith(s, phrase) <==> OccursAt(s, phrase, 0);
    if !StartsWith(s, phrase) && s != [] {
      FindMeans(s[1..], phrase);
      forall j: nat ensures j > 0 ==> (OccursAt(s, phrase, j) <==> OccursAt(s[1..], phrase, j - 1)) {
        OccursLater(s, phrase, j);
      }
    }
  }

  /** The first listed phrase that stands anywhere decides, at the first place where it does. */
  lemma FirstPhraseWins(s: string, m: nat, k: nat)
    requires m < |PHRASES| && OccursAt(s, PHRASES[m], k)
    requires forall j :: 0 <= j < k ==> !OccursAt(s, PHRASES[m], j)
    requires forall p :: 0 <= p < m ==> !Occurs(s, PHRASES[p])
    ensures Candidate(s, MARKERS) == s[k + |PHRASES[m]|..]
  {
    assert MARKERS == PHRASES && MARKERS[0..] == MARKERS && MARKERS[1..][1..] == MARKERS[2..];
    if m > 0 { NeverFound(s, PHRASES[0]); }
    if m > 1 { NeverFound(s, PHRASES[1]); }
    FoundFirst(s, PHRASES[m], k);
    hide Find;
    if m > 0 { assert Candidate(s, MARKERS) == Candidate(s, MARKERS[1..]); }
    if m > 1 { assert Candidate(s, MARKERS[1..]) == Candidate(s, MARKERS[2..]); }
    assert Candidate(s, MARKERS[m..]) == s[k + |PHRASES[m]|..];
  }

  lemma NeverFound(s: string, phrase: string)
    requires phrase != [] && !Occurs(s, phrase)
    ensures Find(s, phrase) == None
  {
    FindMeans(s, phrase);
    hide Find;
  }

  lemma FoundFirst(s: string, phrase: string, k: nat)
    requires phrase != [] && OccursAt(s, phrase, k) && forall j :: 0 <= j < k ==> !OccursAt(s, phrase, j)
    ensures Find(s, phrase) == Some(k)
  {
    FindMeans(s, phrase);
    hide Find;
  }

  /** The same text but for the case of its letters. */
  predicate SameButCase(input: string, lower: string) {
    |input| == |lower| && forall i :: 0 <= i < |input| ==>
      input[i] == lower[i] || ('a' <= lower[i] <= 'z' && input[i] as int == lower[i] as int - 32)
  }

  lemma CaseIgnored(input: string, lower: string)
    requires SameButCase(input, lower) && forall i :: 0 <= i < |lower| ==> !('A' <= lower[i] <= 'Z')
    ensures Lower(input) == lower
  {
    assert forall i :: 0 <= i < |input| ==> LowerChar(input[i]) == lower[i];
  }

  /**
   * A duration anywhere in a message, in any letter case: behind the first of the phrases, with any text before it
   * and any text after it that does not go on with the list, the parse is the exact total up to 366 days and nothing
   * beyond.
   */
  lemma DurationsAreFound(input: string, text: string, m: nat, k: nat, cs: seq<Component>, rest: string)
    requires SameButCase(input, text) && forall i :: 0 <= i < |text| ==> !('A' <= text[i] <= 'Z')
    requires m < |PHRASES| && OccursAt(text, PHRASES[m], k) && text[k + |PHRASES[m]|..] == Print(cs) + rest
    requires forall j :: 0 <= j < k ==> !OccursAt(text, PHRASES[m], j)
    requires forall p :: 0 <= p < m ==> !Occurs(text, PHRASES[p])
    requires cs != [] && (forall c :: c in cs ==> WellWritten(c)) && EndsList(rest)
    ensures Parsed(input) == if Total(cs) <= 366 * 24 * 60 * 60 * 1000 then Some(Total(cs)) else None
  {
    CaseIgnored(input, text);
    FirstPhraseWins(text, m, k);
    hide Parsed, Candidate, EndsList, WellWritten, Occurs, Lower;
    ParsesExactly(input, cs, rest);
  }
}
