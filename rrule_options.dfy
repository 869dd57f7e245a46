/** The mapping from the recurrence rule that the iCalendar parser attaches to
    an event to what is handed to the rrule library (backend/src/services/calendar.ts,
    parseRRule). A rule arrives either as text or as an object with optional
    properties; text goes to the library's string parser, an object is turned
    into an options record by successive conditional assignments. */
module RRuleOptions {
  import opened Wrappers

  /** A property value the source copies into the options unchanged; a
      present `null` is copied like any other value. */
  datatype Value = Null | Num(n: int) | Text(s: string) | Items(elems: seq<Value>)

  /** The `freq` property of a rule object, by its JavaScript type. */
  datatype FreqField = FreqUndefined | FreqNumber(n: int) | FreqString(s: string) | FreqOtherType

  /** The `until` property: undefined, present but falsy (null, "", 0), or an instant in ms. */
  datatype UntilField = UntilUndefined | UntilFalsy | UntilAt(ms: int)

  /** A rule object as the iCalendar parser produces it; `None` is `undefined`. */
  datatype RuleObject = RuleObject(
    freq: FreqField,
    interval: Option<Value>,
    count: Option<Value>,
    until: UntilField,
    byweekday: Option<Value>,
    bymonthday: Option<Value>,
    bymonth: Option<Value>,
    byday: Option<Value>)

  /** The two shapes a rule can take. */
  datatype RuleSource = Textual(text: string) | Structured(fields: RuleObject)

  /** The numeric values of the rrule library's Frequency enumeration. */
  datatype FrequencyCodes = FrequencyCodes(
    yearly: int, monthly: int, weekly: int, daily: int,
    hourly: int, minutely: int, secondly: int)

  /** The values in the published rrule package: YEARLY is 0, SECONDLY is 6. */
  const PublishedCodes := FrequencyCodes(0, 1, 2, 3, 4, 5, 6)

  /** The options record passed to `new RRule`. */
  datatype Options = Options(
    dtstart: int,
    freq: int,
    interval: Value,
    count: Option<Value>,
    until: Option<int>,
    byweekday: Option<Value>,
    bymonthday: Option<Value>,
    bymonth: Option<Value>)

  /** What the rrule library receives: a rule string for `RRule.fromString`,
      or an options record for `new RRule`. */
  datatype RuleSpec = FromString(text: string) | FromOptions(options: Options)

  const Prefix: string := "RRULE:"

  /** A rule string with one leading `RRULE:` removed. */
  function StripPrefix(s: string): (r: string)
    ensures Prefix <= s ==> Prefix + r == s
    ensures !(Prefix <= s) ==> r == s
  {
    if Prefix <= s then s[|Prefix|..] else s
  }

  /** `String.prototype.toUpperCase` on one character, for the characters whose
      upper case can take part in a key of the frequency table: the ASCII
      lower-case letters, dotless i (U+0131) and long s (U+017F). */
  function UpperChar(c: char): char {
    if 'a' <= c <= 'z' then (c as int - 32) as char
    else if c == 'ı' then 'I'
    else if c == 'ſ' then 'S'
    else c
  }

  /** Upper-casing a whole string: every character of the result is already upper case. */
  function ToUpper(s: string): (r: string)
    ensures |r| == |s|
    ensures forall i :: 0 <= i < |s| ==> r[i] == UpperChar(s[i])
    ensures forall i :: 0 <= i < |r| ==> UpperChar(r[i]) == r[i]
  {
    seq(|s|, i requires 0 <= i < |s| => UpperChar(s[i]))
  }

  /** Upper-casing an upper-cased string changes nothing. */
  lemma ToUpperIdempotent(s: string)
    ensures ToUpper(ToUpper(s)) == ToUpper(s)
  {
  }

  /** The `freqMap` table: an upper-case frequency name to its code. */
  function FreqTable(key: string, codes: FrequencyCodes): Option<int> {
    if key == "YEARLY" then Some(codes.yearly)
    else if key == "MONTHLY" then Some(codes.monthly)
    else if key == "WEEKLY" then Some(codes.weekly)
    else if key == "DAILY" then Some(codes.daily)
    else if key == "HOURLY" then Some(codes.hourly)
    else if key == "MINUTELY" then Some(codes.minutely)
    else if key == "SECONDLY" then Some(codes.secondly)
    else None
  }

  /** The frequency code of a string: its upper-cased name looked up, with WEEKLY as fallback. An unknown name, and a known
      name whose code is falsy (0), both give WEEKLY. */
  function StringFreq(s: string, codes: FrequencyCodes): (f: int)
    ensures FreqTable(ToUpper(s), codes).None? ==> f == codes.weekly
    ensures FreqTable(ToUpper(s), codes) == Some(0) ==> f == codes.weekly
    ensures FreqTable(ToUpper(s), codes).Some? && FreqTable(ToUpper(s), codes).value != 0
            ==> f == FreqTable(ToUpper(s), codes).value
  {
    var mapped := FreqTable(ToUpper(s), codes);
    if mapped.Some? && mapped.value != 0 then mapped.value else codes.weekly
  }

  /** The frequency the options end up with. */
  function FreqOf(field: FreqField, codes: FrequencyCodes): int {
    match field
    case FreqUndefined => codes.weekly
    case FreqNumber(n) => n
    case FreqString(s) => StringFreq(s, codes)
    case FreqOtherType => codes.weekly
  }

  /** The declarative reading of parseRRule: the text branch strips the prefix
      and ignores `dtstart`; the object branch starts from the defaults and
      takes each property that is present, `byday` winning over `byweekday`. */
  function Parsed(rule: RuleSource, dtstart: int, codes: FrequencyCodes): RuleSpec {
    match rule
    case Textual(text) => FromString(StripPrefix(text))
    case Structured(r) =>
      FromOptions(Options(
        dtstart,
        FreqOf(r.freq, codes),
        r.interval.GetOr(Num(1)),
        r.count,
        if r.until.UntilAt? then Some(r.until.ms) else None,
        if r.byday.Some? then r.byday else r.byweekday,
        r.bymonthday,
        r.bymonth))
  }

  /** parseRRule as the source runs it: an early return for text, otherwise
      an options record updated one property at a time. */
  method ParseRRule(rule: RuleSource, dtstart: int, codes: FrequencyCodes) returns (spec: RuleSpec)
    ensures spec == Parsed(rule, dtstart, codes)
  {
    if rule.Textual? {
      var cleanStr := if Prefix <= rule.text then rule.text[6..] else rule.text;
      return FromString(cleanStr);
    }
    var r := rule.fields;
    var options := Options(dtstart, codes.weekly, Num(1), None, None, None, None, None);
    if !r.freq.FreqUndefined? {
      if r.freq.FreqNumber? {
        options := options.(freq := r.freq.n);
      } else if r.freq.FreqString? {
        var mapped := FreqTable(ToUpper(r.freq.s), codes);
        options := options.(freq := if mapped.Some? && mapped.value != 0 then mapped.value else codes.weekly);
      }
    }
    if r.interval.Some? { options := options.(interval := r.interval.value); }
    if r.count.Some? { options := options.(count := r.count); }
    if r.until.UntilAt? { options := options.(until := Some(r.until.ms)); }
    if r.byweekday.Some? { options := options.(byweekday := r.byweekday); }
    if r.bymonthday.Some? { options := options.(bymonthday := r.bymonthday); }
    if r.bymonth.Some? { options := options.(bymonth := r.bymonth); }
    if r.byday.Some? { options := options.(byweekday := r.byday); }
    spec := FromOptions(options);
  }

  /** A text rule loses exactly one leading `RRULE:`: a doubled prefix keeps
      its second copy, any other text passes through, and the result does not
      depend on `dtstart`. */
  lemma TextRuleStripsPrefixOnce(t: string, dtstart: int, other: int, codes: FrequencyCodes)
    ensures Parsed(Textual(Prefix + t), dtstart, codes) == FromString(t)
    ensures Parsed(Textual(Prefix + Prefix + t), dtstart, codes) == FromString(Prefix + t)
    ensures !(Prefix <= t) ==> Parsed(Textual(t), dtstart, codes) == FromString(t)
    ensures Parsed(Textual(t), dtstart, codes) == Parsed(Textual(t), other, codes)
  {
  }

  /** An object rule: WEEKLY and interval 1 by default, present properties
      copied, `until` only when truthy, `byday` overriding `byweekday`. */
  lemma ObjectRuleFields(r: RuleObject, dtstart: int, codes: FrequencyCodes)
    ensures Parsed(Structured(r), dtstart, codes).FromOptions?
    ensures var o := Parsed(Structured(r), dtstart, codes).options;
      && o.dtstart == dtstart
      && (r.freq.FreqUndefined? || r.freq.FreqOtherType? ==> o.freq == codes.weekly)
      && (r.freq.FreqNumber? ==> o.freq == r.freq.n)
      && (r.interval.None? ==> o.interval == Num(1))
      && (r.interval.Some? ==> o.interval == r.interval.value)
      && o.count == r.count
      && (o.until.Some? <==> r.until.UntilAt?)
      && (r.until.UntilAt? ==> o.until == Some(r.until.ms))
      && (r.byday.Some? ==> o.byweekday == r.byday)
      && (r.byday.None? ==> o.byweekday == r.byweekday)
      && o.bymonthday == r.bymonthday
      && o.bymonth == r.bymonth
  {
  }

  /** A frequency name is matched whatever its case: a string and its
      upper-case form give the same frequency. */
  lemma StringFreqIgnoresCase(s: string, codes: FrequencyCodes)
    ensures StringFreq(ToUpper(s), codes) == StringFreq(s, codes)
  {
    ToUpperIdempotent(s);
  }

  /** With the published codes, where YEARLY is 0, the string "YEARLY" falls
      through `|| RRule.WEEKLY` and becomes WEEKLY, while the number 0 is kept. */
  lemma YearlyStringBecomesWeekly(s: string)
    requires ToUpper(s) == "YEARLY"
    ensures FreqOf(FreqString(s), PublishedCodes) == PublishedCodes.weekly
    ensures FreqOf(FreqString(s), PublishedCodes) != PublishedCodes.yearly
    ensures FreqOf(FreqNumber(0), PublishedCodes) == PublishedCodes.yearly
  {
  }

  /** Every other name maps to its own code with the published values. */
  lemma PublishedNonYearlyNamesKept(s: string)
    requires ToUpper(s) in {"MONTHLY", "WEEKLY", "DAILY", "HOURLY", "MINUTELY", "SECONDLY"}
    ensures FreqOf(FreqString(s), PublishedCodes) == FreqTable(ToUpper(s), PublishedCodes).value
    ensures FreqOf(FreqString(s), PublishedCodes) != PublishedCodes.yearly
  {
  }
}
