/**
 * The `"NOW"` sentinel resolution of `handleProcess` and `handleRefine` in
 * pages/ContentInputPage.tsx. The clock is a parameter: `today` is the
 * text `new Date().toISOString().split('T')[0]`, built by `IsoDay`.
 */
module Sentinel {
  import opened Wrappers
  import opened Text
  import opened Json
  import opened Types

  /** The value the model writes into a creation-date field. */
  const Now: Json := JStr("NOW")

  /** `schemaDetails && schemaDetails.type === 'date'` */
  predicate IsDateField(schema: Schema, key: string) {
    LookupKind(schema, key) == Some(Date)
  }

  /** A date-typed member of the reply that holds exactly the sentinel. */
  predicate Pending(schema: Schema, raw: map<string, Json>, key: string) {
    key in raw && IsDateField(schema, key) && raw[key] == Now
  }

  /**
   * Initial processing: every date-typed member equal to "NOW" becomes
   * today's date; every other member, and every member outside the schema,
   * passes through unchanged.
   */
  function ResolveProcessed(raw: map<string, Json>, schema: Schema, today: string): (r: map<string, Json>)
    ensures r.Keys == raw.Keys
    ensures forall k | Pending(schema, raw, k) :: r[k] == JStr(today)
    ensures forall k | k in raw && !Pending(schema, raw, k) :: r[k] == raw[k]
  {
    map k | k in raw :: if Pending(schema, raw, k) then JStr(today) else raw[k]
  }

  /**
   * Refinement: a date-typed "NOW" becomes the value the field held before
   * the refinement when that was truthy, and today's date otherwise.
   */
  function ResolveRefined(raw: map<string, Json>, schema: Schema, previous: map<string, Json>, today: string)
    : (r: map<string, Json>)
    ensures r.Keys == raw.Keys
    ensures forall k | Pending(schema, raw, k) && TruthyRead(Lookup(previous, k)) :: r[k] == previous[k]
    ensures forall k | Pending(schema, raw, k) && !TruthyRead(Lookup(previous, k)) :: r[k] == JStr(today)
    ensures forall k | k in raw && !Pending(schema, raw, k) :: r[k] == raw[k]
  {
    map k | k in raw ::
      if Pending(schema, raw, k) then
        (if TruthyRead(Lookup(previous, k)) then previous[k] else JStr(today))
      else raw[k]
  }

  /** After initial resolution no date-typed member holds the sentinel. */
  lemma NoSentinelLeft(raw: map<string, Json>, schema: Schema, today: string)
    requires today != "NOW"
    ensures forall k | k in ResolveProcessed(raw, schema, today) ::
      !Pending(schema, ResolveProcessed(raw, schema, today), k)
  {
  }

  /** Resolving a second time changes nothing. */
  lemma ResolveIdempotent(raw: map<string, Json>, schema: Schema, today: string)
    requires today != "NOW"
    ensures ResolveProcessed(ResolveProcessed(raw, schema, today), schema, today) == ResolveProcessed(raw, schema, today)
  {
    var once := ResolveProcessed(raw, schema, today);
    NoSentinelLeft(raw, schema, today);
    assert forall k | k in once :: ResolveProcessed(once, schema, today)[k] == once[k];
  }

  /** The refinement's result keeps no sentinel either, when the previous values had none. */
  lemma RefinedNoSentinelLeft(raw: map<string, Json>, schema: Schema, previous: map<string, Json>, today: string)
    requires today != "NOW"
    requires forall k | k in previous && IsDateField(schema, k) :: previous[k] != Now
    ensures forall k | k in ResolveRefined(raw, schema, previous, today) ::
      !Pending(schema, ResolveRefined(raw, schema, previous, today), k)
  {
  }

  // ---------------------------------------------------------------------
  // Today's date
  // ---------------------------------------------------------------------

  /** `n` written with exactly `width` decimal digits, leading zeros included. */
  function Padded(n: nat, width: nat): (s: string)
    requires n < Pow10(width)
    ensures |s| == width
    ensures forall k | 0 <= k < |s| :: '0' <= s[k] <= '9'
  {
    if width == 0 then "" else Padded(n / 10, width - 1) + [Digit(n % 10)]
  }

  lemma {:induction false} PaddedValue(n: nat, width: nat)
    requires n < Pow10(width)
    ensures DigitsValue(Padded(n, width)) == n
  {
    if width > 0 {
      var s := Padded(n, width);
      assert s[..|s| - 1] == Padded(n / 10, width - 1);
      PaddedValue(n / 10, width - 1);
    }
  }

  /** A calendar day in the range `toISOString` writes with a four-digit year. */
  predicate ValidDay(year: nat, month: nat, day: nat) {
    year <= 9999 && 1 <= month <= 12 && 1 <= day <= 31
  }

  /** `YYYY-MM-DD`: the date part of `Date.prototype.toISOString`. */
  function IsoDay(year: nat, month: nat, day: nat): (s: string)
    requires ValidDay(year, month, day)
    ensures |s| == 10 && s[4] == '-' && s[7] == '-'
    ensures s != "NOW"
  {
    assert Pow10(4) == 10000 && Pow10(2) == 100;
    Padded(year, 4) + "-" + Padded(month, 2) + "-" + Padded(day, 2)
  }

  /** Reads a `YYYY-MM-DD` text back into its numbers. */
  function ParseIsoDay(s: string): Option<(nat, nat, nat)> {
    if |s| == 10 && s[4] == '-' && s[7] == '-'
      && (forall k | 0 <= k < 10 && k != 4 && k != 7 :: '0' <= s[k] <= '9')
    then Some((DigitsValue(s[..4]), DigitsValue(s[5..7]), DigitsValue(s[8..])))
    else None
  }

  /** The date text determines the date: reading it back gives the same day. */
  lemma IsoDayRoundTrip(year: nat, month: nat, day: nat)
    requires ValidDay(year, month, day)
    ensures ParseIsoDay(IsoDay(year, month, day)) == Some((year, month, day))
  {
    assert Pow10(4) == 10000 && Pow10(2) == 100;
    var s := IsoDay(year, month, day);
    assert s[..4] == Padded(year, 4);
    assert s[5..7] == Padded(month, 2);
    assert s[8..] == Padded(day, 2);
    PaddedValue(year, 4);
    PaddedValue(month, 2);
    PaddedValue(day, 2);
  }

  /** A "Created Date" field answered with "NOW" receives today's date. */
  lemma CreatedDateExample(today: string)
    ensures var schema: Schema := [("Created Date", Date)];
      ResolveProcessed(map["Created Date" := Now], schema, today)["Created Date"] == JStr(today)
  {
    var schema: Schema := [("Created Date", Date)];
    LookupKindAt(schema, 0);
  }

  /** In refinement a "NOW" keeps the earlier date. */
  lemma RefinedDateExample(today: string)
    ensures var schema: Schema := [("Created Date", Date)];
      ResolveRefined(map["Created Date" := Now], schema, map["Created Date" := JStr("2024-01-01")], today)["Created Date"]
        == JStr("2024-01-01")
  {
    var schema: Schema := [("Created Date", Date)];
    LookupKindAt(schema, 0);
  }
}
