/** The `--feature-version` / `--feature-version-timestamp` command-line
    option: which feature versions to export (latest, at a point in time,
    between two points in time, or all) and the timestamps that go with the
    choice. `preprocess` validates the combination and parses the
    comma-separated timestamps; `toFeatureVersionFilter` hands the parsed
    times to the filter as XML calendars.

    The date-time formatter is a library: it is the parameter `parse`, a
    partial function from text to the fields it found. What the formatter's
    defaults add (a missing time of day is 23:59:59, a missing second is 59,
    a missing offset is the local zone's current offset, passed in as
    `defaultOffset`) is modelled in `Resolve`. */
module FeatureVersions {
  import opened Wrappers
  import opened Strings
  import opened JavaInts

  datatype Version = Latest | At | Between | All

  /** The filter modes of the simple feature-version filter. */
  datatype FilterMode = LatestMode | AtMode | BetweenMode

  /** The enum constant's name, as it appears in messages. */
  function VersionName(v: Version): string
  {
    match v
    case Latest => "latest"
    case At => "at"
    case Between => "between"
    case All => "all"
  }

  /** The filter mode each version maps to; `all` has none. */
  function ModeOf(v: Version): (m: Option<FilterMode>)
    ensures m.None? <==> v == All
    ensures m == Some(LatestMode) <==> v == Latest
    ensures m == Some(AtMode) <==> v == At
    ensures m == Some(BetweenMode) <==> v == Between
  {
    match v
    case Latest => Some(LatestMode)
    case At => Some(AtMode)
    case Between => Some(BetweenMode)
    case All => None
  }

  /** What the formatter read: a date, optionally a time (seconds and
      fraction optional), and, only after a time, optionally an offset. */
  datatype RawTime = RawTime(hour: int, minute: int, second: Option<int>, nano: int)
  datatype RawTimestamp = RawTimestamp(year: int, month: int, day: int, time: Option<RawTime>, offsetSeconds: Option<int>)

  datatype OffsetDateTime = OffsetDateTime(
    year: int, month: int, day: int, hour: int, minute: int, second: int, nano: int, offsetSeconds: int)

  /** Applies the formatter's defaults to the fields it did not read. */
  function Resolve(raw: RawTimestamp, defaultOffset: int): (dt: OffsetDateTime)
    ensures dt.year == raw.year && dt.month == raw.month && dt.day == raw.day
    ensures raw.time.None? ==> dt.hour == 23 && dt.minute == 59 && dt.second == 59 && dt.nano == 0
    ensures raw.time.Some? ==> dt.hour == raw.time.value.hour && dt.minute == raw.time.value.minute
                                && dt.second == raw.time.value.second.GetOr(59) && dt.nano == raw.time.value.nano
    ensures dt.offsetSeconds == raw.offsetSeconds.GetOr(defaultOffset)
  {
    var offset := raw.offsetSeconds.GetOr(defaultOffset);
    match raw.time
    case None => OffsetDateTime(raw.year, raw.month, raw.day, 23, 59, 59, 0, offset)
    case Some(t) => OffsetDateTime(raw.year, raw.month, raw.day, t.hour, t.minute, t.second.GetOr(59), t.nano, offset)
  }

  /** The proleptic ISO leap-year rule. */
  predicate IsLeapYear(y: int)
  {
    y % 4 == 0 && (y % 100 != 0 || y % 400 == 0)
  }

  const DaysFrom0000To1970: int := 719528

  /** Days since 1970-01-01 of a date, by the same arithmetic as
      `LocalDate.toEpochDay`. */
  function EpochDay(year: int, month: int, day: int): int
  {
    var y := year;
    var leapDays := if y >= 0 then (y + 3) / 4 - (y + 99) / 100 + (y + 399) / 400
                    else -((-y) / 4 - (-y) / 100 + (-y) / 400);
    var monthDays := TruncDiv(367 * month - 362, 12);
    var correction := if month > 2 then (if IsLeapYear(y) then 1 else 2) else 0;
    365 * y + leapDays + monthDays + day - 1 - correction - DaysFrom0000To1970
  }

  /** Seconds since the epoch of the instant a date-time denotes. */
  function EpochSecond(dt: OffsetDateTime): int
  {
    EpochDay(dt.year, dt.month, dt.day) * 86400 + dt.hour * 3600 + dt.minute * 60 + dt.second - dt.offsetSeconds
  }

  /** `a.isAfter(b)`: a denotes a strictly later instant than b. */
  predicate IsAfter(a: OffsetDateTime, b: OffsetDateTime)
  {
    EpochSecond(a) > EpochSecond(b) || (EpochSecond(a) == EpochSecond(b) && a.nano > b.nano)
  }

  /** `isAfter` is a strict order: never reflexive, never both ways. */
  lemma IsAfterIsStrict(a: OffsetDateTime, b: OffsetDateTime)
    ensures !IsAfter(a, a)
    ensures IsAfter(a, b) ==> !IsAfter(b, a)
  {
  }

  /** The user errors `preprocess` reports. */
  datatype VersionError =
    | TakesNoTimestamp(version: Version)
    | RequiresOneTimestamp(version: Version)
    | RequiresTwoTimestamps(version: Version)
    | StartNotBeforeEnd
    | Malformed(text: string)
    | RequiresTimestamp(version: Version)
    | RequiresStartAndEnd(version: Version)

  function Message(e: VersionError): string
  {
    match e
    case TakesNoTimestamp(v) => "Error: The feature version '" + VersionName(v) + "' does not take a timestamp"
    case RequiresOneTimestamp(v) => "Error: The feature version '" + VersionName(v) + "' requires only one timestamp"
    case RequiresTwoTimestamps(v) =>
      "Error: The feature version '" + VersionName(v) + "' requires two timestamps defining a time range"
    case StartNotBeforeEnd => "Error: The start timestamp must be lesser than the end timestamp"
    case Malformed(text) =>
      "A feature version timestamp must be in YYYY-MM-DD or YYYY-MM-DDThh:mm:ss[(+|-)hh:mm] format but was '"
      + text + "'"
    case RequiresTimestamp(v) => "Error: The feature version '" + VersionName(v) + "' requires a timestamp"
    case RequiresStartAndEnd(v) =>
      "Error: The feature version '" + VersionName(v) + "' requires a start and an end timestamp"
  }

  /** The start and end times a successful `preprocess` assigns (None: not
      assigned by this call). */
  datatype Times = Times(start: Option<OffsetDateTime>, end: Option<OffsetDateTime>)

  /** An end time, once assigned, lies strictly after the start time. */
  predicate EndAfterStart(t: Times)
  {
    t.end.Some? ==> t.start.Some? && IsAfter(t.end.value, t.start.value)
  }

  /** The parsing loop from position i on: the first timestamp becomes the
      start, every later one must be after the start and becomes the end. */
  function ParseFrom(parts: seq<string>, i: nat, times: Times,
                     parse: string -> Option<RawTimestamp>, defaultOffset: int): (r: Result<Times, VersionError>)
    requires i <= |parts|
    requires i > 0 ==> times.start.Some?
    requires i == 0 ==> times.end.None?
    requires EndAfterStart(times)
    ensures r.Success? ==> EndAfterStart(r.value)
    ensures i < |parts| && parse(parts[i]).None? ==> r == Failure(Malformed(parts[i]))
    ensures r.Success? && i == 0 && |parts| > 0 ==>
              parse(parts[0]).Some? && r.value.start == Some(Resolve(parse(parts[0]).value, defaultOffset))
    ensures r.Success? && i > 0 ==> r.value.start == times.start
    ensures r.Success? && (if i == 0 then 1 else i) < |parts| ==> r.value.end.Some?
    ensures r.Success? && |parts| <= 1 ==> r.value.end == times.end
    // every part from i on was read, each later one lies after the start,
    // and the last one is the end
    ensures r.Success? ==> forall j :: i <= j < |parts| ==> parse(parts[j]).Some?
    ensures r.Success? ==> forall j :: (if i == 0 then 1 else i) <= j < |parts| ==>
              r.value.start.Some? && IsAfter(Resolve(parse(parts[j]).value, defaultOffset), r.value.start.value)
    ensures r.Success? && i < |parts| && |parts| > 1 ==>
              r.value.end == Some(Resolve(parse(parts[|parts| - 1]).value, defaultOffset))
    decreases |parts| - i
  {
    if i == |parts| then Success(times)
    else match parse(parts[i])
      case None => Failure(Malformed(parts[i]))
      case Some(raw) =>
        var dt := Resolve(raw, defaultOffset);
        if i == 0 then ParseFrom(parts, i + 1, times.(start := Some(dt)), parse, defaultOffset)
        else if !IsAfter(dt, times.start.value) then Failure(StartNotBeforeEnd)
        else ParseFrom(parts, i + 1, times.(end := Some(dt)), parse, defaultOffset)
  }

  /** The parsing loop over a single part: read it, and it is the start. */
  lemma ParseOnePart(parts: seq<string>, parse: string -> Option<RawTimestamp>, defaultOffset: int)
    requires |parts| == 1
    ensures ParseFrom(parts, 0, Times(None, None), parse, defaultOffset)
         == if parse(parts[0]).None? then Failure(Malformed(parts[0]))
            else Success(Times(Some(Resolve(parse(parts[0]).value, defaultOffset)), None))
  {
    if parse(parts[0]).Some? {
      var start := Resolve(parse(parts[0]).value, defaultOffset);
      assert ParseFrom(parts, 1, Times(Some(start), None), parse, defaultOffset) == Success(Times(Some(start), None));
    }
  }

  /** The parsing loop over two parts: read both, in order, and the second
      must lie after the first. */
  lemma ParseTwoParts(parts: seq<string>, parse: string -> Option<RawTimestamp>, defaultOffset: int)
    requires |parts| == 2
    ensures ParseFrom(parts, 0, Times(None, None), parse, defaultOffset)
         == if parse(parts[0]).None? then Failure(Malformed(parts[0]))
            else if parse(parts[1]).None? then Failure(Malformed(parts[1]))
            else
              var start, end := Resolve(parse(parts[0]).value, defaultOffset), Resolve(parse(parts[1]).value, defaultOffset);
              if IsAfter(end, start) then Success(Times(Some(start), Some(end))) else Failure(StartNotBeforeEnd)
  {
    if parse(parts[0]).Some? {
      var start := Resolve(parse(parts[0]).value, defaultOffset);
      var t1 := Times(Some(start), None);
      assert ParseFrom(parts, 0, Times(None, None), parse, defaultOffset) == ParseFrom(parts, 1, t1, parse, defaultOffset);
      if parse(parts[1]).Some? {
        var end := Resolve(parse(parts[1]).value, defaultOffset);
        if IsAfter(end, start) {
          assert ParseFrom(parts, 2, t1.(end := Some(end)), parse, defaultOffset) == Success(Times(Some(start), Some(end)));
        }
      }
    }
  }

  /** The verdict of `preprocess` and the times it assigns, case by case:
      `all` and `latest` take no timestamp; `at` needs exactly one readable
      part, which becomes the start; `between` needs exactly two readable
      parts, the second strictly after the first, which become the start
      and the end. A part the formatter cannot read is reported with its
      text, the first part before the second. */
  function Check(version: Version, timestamp: Option<string>,
                 parse: string -> Option<RawTimestamp>, defaultOffset: int): (r: Result<Times, VersionError>)
    ensures version == All ==>
              r == if timestamp.Some? then Failure(TakesNoTimestamp(All)) else Success(Times(None, None))
    ensures version == Latest ==>
              r == if timestamp.Some? then Failure(TakesNoTimestamp(Latest)) else Success(Times(None, None))
    ensures version == At && timestamp.None? ==> r == Failure(RequiresTimestamp(At))
    ensures version == Between && timestamp.None? ==> r == Failure(RequiresStartAndEnd(Between))
    ensures version == At && timestamp.Some? ==>
              var ps := JavaSplit(timestamp.value, ',');
              r == if |ps| != 1 then Failure(RequiresOneTimestamp(At))
                   else if parse(ps[0]).None? then Failure(Malformed(ps[0]))
                   else Success(Times(Some(Resolve(parse(ps[0]).value, defaultOffset)), None))
    ensures version == Between && timestamp.Some? ==>
              var ps := JavaSplit(timestamp.value, ',');
              r == if |ps| != 2 then Failure(RequiresTwoTimestamps(Between))
                   else if parse(ps[0]).None? then Failure(Malformed(ps[0]))
                   else if parse(ps[1]).None? then Failure(Malformed(ps[1]))
                   else
                     var start, end := Resolve(parse(ps[0]).value, defaultOffset), Resolve(parse(ps[1]).value, defaultOffset);
                     if IsAfter(end, start) then Success(Times(Some(start), Some(end))) else Failure(StartNotBeforeEnd)
  {
    if version == All then
      if timestamp.Some? then Failure(TakesNoTimestamp(All)) else Success(Times(None, None))
    else if timestamp.None? then
      if version == At then Failure(RequiresTimestamp(At))
      else if version == Between then Failure(RequiresStartAndEnd(Between))
      else Success(Times(None, None))
    else if version == Latest then Failure(TakesNoTimestamp(Latest))
    else
      var parts := JavaSplit(timestamp.value, ',');
      if version == At && |parts| != 1 then Failure(RequiresOneTimestamp(At))
      else if version == Between && |parts| != 2 then Failure(RequiresTwoTimestamps(Between))
      else
        var r := ParseFrom(parts, 0, Times(None, None), parse, defaultOffset);
        if version == At then ParseOnePart(parts, parse, defaultOffset); r
        else assert version == Between; ParseTwoParts(parts, parse, defaultOffset); r
  }

  /** Two equal timestamps never make a range. */
  lemma BetweenRejectsEqualTimestamps(text: string, t: string, parse: string -> Option<RawTimestamp>, defaultOffset: int)
    requires JavaSplit(text, ',') == [t, t]
    ensures Check(Between, Some(text), parse, defaultOffset).Failure?
  {
    var parts := [t, t];
    match parse(t)
    case None =>
    case Some(raw) =>
      var dt := Resolve(raw, defaultOffset);
      IsAfterIsStrict(dt, dt);
      assert ParseFrom(parts, 1, Times(Some(dt), None), parse, defaultOffset) == Failure(StartNotBeforeEnd);
  }

  /** The date fields and zone an XML calendar is built from. */
  datatype XmlCalendar = XmlCalendar(
    year: int, month: int, day: int, hour: int, minute: int, second: int, millisecond: int, timezone: int)

  /** `DatatypeConstants.FIELD_UNDEFINED` (Integer.MIN_VALUE). */
  const FieldUndefined: int := -0x8000_0000

  /** `ZoneOffset` keeps offsets within plus or minus 18 hours. */
  predicate ValidOffset(offsetSeconds: int)
  {
    -64800 <= offsetSeconds <= 64800
  }

  /** `toCalendar`: the date and time fields, milliseconds undefined, and
      the zone in whole minutes (truncated toward zero) unless the offset is
      UTC, whose zone is left undefined. */
  function ToCalendar(dt: OffsetDateTime): (c: XmlCalendar)
    ensures c.year == dt.year && c.month == dt.month && c.day == dt.day
    ensures c.hour == dt.hour && c.minute == dt.minute && c.second == dt.second
    ensures c.millisecond == FieldUndefined
    ensures dt.offsetSeconds == 0 ==> c.timezone == FieldUndefined
    ensures dt.offsetSeconds != 0 ==> c.timezone == TruncDiv(dt.offsetSeconds, 60)
  {
    XmlCalendar(dt.year, dt.month, dt.day, dt.hour, dt.minute, dt.second, FieldUndefined,
                if dt.offsetSeconds != 0 then TruncDiv(dt.offsetSeconds, 60) else FieldUndefined)
  }

  /** For an offset a zone can have, the calendar's zone is undefined
      exactly for UTC; otherwise it lies within plus or minus 1080 minutes,
      loses less than a minute, rounds toward zero, and is exact for offsets
      in whole minutes. */
  lemma CalendarTimezone(dt: OffsetDateTime)
    requires ValidOffset(dt.offsetSeconds)
    ensures ToCalendar(dt).timezone == FieldUndefined <==> dt.offsetSeconds == 0
    ensures dt.offsetSeconds != 0 ==>
              var tz := ToCalendar(dt).timezone;
              && -1080 <= tz <= 1080
              && 0 <= (if dt.offsetSeconds > 0 then dt.offsetSeconds - tz * 60 else tz * 60 - dt.offsetSeconds) < 60
              && (dt.offsetSeconds % 60 == 0 ==> tz * 60 == dt.offsetSeconds)
  {
    TruncDivRoundsTowardZero(dt.offsetSeconds, 60);
    var o := dt.offsetSeconds;
    if o < 0 {
      var p := -o;
      assert p == (p / 60) * 60 + p % 60;
      assert o % 60 == 0 ==> p % 60 == 0;
    }
  }

  /** The feature-version filter: its mode and the two calendar dates. */
  datatype FeatureVersionFilter = FeatureVersionFilter(
    mode: Option<FilterMode>, startDate: Option<XmlCalendar>, endDate: Option<XmlCalendar>)

  class FeatureVersionOption {
    var version: Version
    var timestamp: Option<string>
    var startDateTime: Option<OffsetDateTime>
    var endDateTime: Option<OffsetDateTime>
    var featureVersionFilter: Option<FeatureVersionFilter>

    constructor (version: Version, timestamp: Option<string>)
      ensures this.version == version && this.timestamp == timestamp
      ensures startDateTime.None? && endDateTime.None? && featureVersionFilter.None?
    {
      this.version := version;
      this.timestamp := timestamp;
      startDateTime, endDateTime, featureVersionFilter := None, None, None;
    }

    /** Validates the option. For any version but `all` it first creates the
        filter with the version's mode (also when a later check fails); on
        success the start and end times are those `Check` determines. */
    method Preprocess(parse: string -> Option<RawTimestamp>, defaultOffset: int) returns (r: Outcome<VersionError>)
      modifies this`startDateTime, this`endDateTime, this`featureVersionFilter
      ensures var c := Check(version, timestamp, parse, defaultOffset);
              && (c.Success? <==> r.Pass?)
              && (c.Failure? ==> r == Fail(c.error))
              && (c.Success? ==>
                    && startDateTime == (if c.value.start.Some? then c.value.start else old(startDateTime))
                    && endDateTime == (if c.value.end.Some? then c.value.end else old(endDateTime)))
      ensures version == All ==> featureVersionFilter == old(featureVersionFilter)
      ensures version != All ==> featureVersionFilter == Some(FeatureVersionFilter(ModeOf(version), None, None))
    {
      if version == All {
        if timestamp.Some? {
          return Fail(TakesNoTimestamp(All));
        } else {
          return Pass;
        }
      }

      featureVersionFilter := Some(FeatureVersionFilter(ModeOf(version), None, None));

      if timestamp.Some? {
        if version == Latest {
          return Fail(TakesNoTimestamp(Latest));
        }

        var parts := JavaSplit(timestamp.value, ',');
        if version == At && |parts| != 1 {
          return Fail(RequiresOneTimestamp(At));
        } else if version == Between && |parts| != 2 {
          return Fail(RequiresTwoTimestamps(Between));
        }

        ghost var found := Times(None, None);
        var i := 0;
        while i < |parts|
          invariant 0 <= i <= |parts|
          invariant i > 0 ==> found.start.Some? && startDateTime == found.start
          invariant i == 0 ==> found == Times(None, None)
          invariant EndAfterStart(found)
          invariant found.start.None? ==> startDateTime == old(startDateTime)
          invariant found.end.Some? ==> endDateTime == found.end
          invariant found.end.None? ==> endDateTime == old(endDateTime)
          invariant featureVersionFilter == Some(FeatureVersionFilter(ModeOf(version), None, None))
          invariant Check(version, timestamp, parse, defaultOffset) == ParseFrom(parts, i, found, parse, defaultOffset)
        {
          var raw := parse(parts[i]);
          if raw.None? {
            return Fail(Malformed(parts[i]));
          }
          var dateTime := Resolve(raw.value, defaultOffset);
          if i == 0 {
            startDateTime := Some(dateTime);
            found := found.(start := Some(dateTime));
          } else {
            if !IsAfter(dateTime, startDateTime.value) {
              return Fail(StartNotBeforeEnd);
            }
            endDateTime := Some(dateTime);
            found := found.(end := Some(dateTime));
          }
          i := i + 1;
        }
      } else {
        if version == At {
          return Fail(RequiresTimestamp(At));
        } else if version == Between {
          return Fail(RequiresStartAndEnd(Between));
        }
      }
      return Pass;
    }

    /** Hands the parsed times to the filter created by `Preprocess`; there
        is no filter (null) for `all`. */
    method ToFeatureVersionFilter() returns (r: Option<FeatureVersionFilter>)
      modifies this`featureVersionFilter
      ensures old(featureVersionFilter).None? ==> r.None? && featureVersionFilter.None?
      ensures old(featureVersionFilter).Some? ==>
                var f := old(featureVersionFilter).value;
                && r == featureVersionFilter
                && r == Some(f.(startDate := if startDateTime.Some? then Some(ToCalendar(startDateTime.value)) else f.startDate,
                                endDate := if endDateTime.Some? then Some(ToCalendar(endDateTime.value)) else f.endDate))
    {
      if featureVersionFilter.Some? {
        if startDateTime.Some? {
          featureVersionFilter := Some(featureVersionFilter.value.(startDate := Some(ToCalendar(startDateTime.value))));
        }
        if endDateTime.Some? {
          featureVersionFilter := Some(featureVersionFilter.value.(endDate := Some(ToCalendar(endDateTime.value))));
        }
      }
      return featureVersionFilter;
    }
  }
}
