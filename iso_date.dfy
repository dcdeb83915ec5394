/**
 * Extraction of the calendar date from an ISO 8601 timestamp, the way the
 * widget does it: `iso.split("T")[0]`.
 */
module IsoDate {

  /** `s.split(sep)` for a one-character separator: the pieces between separators, in order. */
  function Split(s: string, sep: char): (parts: seq<string>)
    ensures |parts| >= 1
    ensures forall i :: 0 <= i < |parts| ==> sep !in parts[i]
    ensures Join(parts, sep) == s
    decreases |s|
  {
    if s == [] then [[]]
    else
      var rest := Split(s[1..], sep);
      if s[0] == sep then
        assert ([[]] + rest)[1..] == rest;
        [[]] + rest
      else
        var parts := [[s[0]] + rest[0]] + rest[1..];
        assert |rest| > 1 ==> parts[1..] == rest[1..];
        parts
  }

  /** `parts.join(sep)`: the inverse of `Split`. */
  function Join(parts: seq<string>, sep: char): string
    requires |parts| >= 1
    decreases |parts|
  {
    if |parts| == 1 then parts[0] else parts[0] + [sep] + Join(parts[1..], sep)
  }

  /** The first piece of a join is its prefix, followed by the separator when more pieces follow. */
  lemma JoinHead(parts: seq<string>, sep: char)
    requires |parts| >= 1
    ensures parts[0] <= Join(parts, sep)
    ensures |parts| == 1 ==> Join(parts, sep) == parts[0]
    ensures |parts| > 1 ==> |Join(parts, sep)| > |parts[0]| && Join(parts, sep)[|parts[0]|] == sep
  {
  }

  /**
   * `timestamp.split("T")[0]`: the text before the first 'T', or the whole
   * string when it has none.
   */
  function DatePart(timestamp: string): (date: string)
    ensures date <= timestamp
    ensures 'T' !in date
    ensures |date| < |timestamp| ==> timestamp[|date|] == 'T'
  {
    var parts := Split(timestamp, 'T');
    JoinHead(parts, 'T');
    parts[0]
  }

  /** The three properties of `DatePart` single out its result: it is the text before the first 'T'. */
  lemma DatePartUnique(timestamp: string, date: string)
    requires date <= timestamp
    requires 'T' !in date
    requires |date| < |timestamp| ==> timestamp[|date|] == 'T'
    ensures date == DatePart(timestamp)
  {
  }

  predicate IsDigit(c: char) {
    '0' <= c <= '9'
  }

  /** The calendar date in extended form `YYYY-MM-DD` (ISO 8601:2004, section 5.2.1.1). */
  predicate IsCalendarDate(d: string) {
    && |d| == 10
    && d[4] == '-' && d[7] == '-'
    && (forall i :: 0 <= i < 10 && i != 4 && i != 7 ==> IsDigit(d[i]))
  }

  /**
   * The shape `Date.prototype.toISOString` gives for years 0 to 9999:
   * `YYYY-MM-DDTHH:mm:ss.sssZ`.
   */
  predicate IsIsoTimestamp(s: string) {
    && |s| == 24
    && IsCalendarDate(s[..10])
    && s[10] == 'T' && s[13] == ':' && s[16] == ':' && s[19] == '.' && s[23] == 'Z'
    && (forall i :: 11 <= i < 23 && i != 13 && i != 16 && i != 19 ==> IsDigit(s[i]))
  }

  /** On a timestamp of that shape the extracted part is exactly its calendar date. */
  lemma DatePartOfIsoTimestamp(s: string)
    requires IsIsoTimestamp(s)
    ensures DatePart(s) == s[..10]
    ensures IsCalendarDate(DatePart(s))
  {
  }
}
