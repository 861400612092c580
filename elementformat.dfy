/** JSON rendering of submission values
    (org.opendatakit.aggregate.format.element.JsonElementFormatter): each
    format call appends `"name":"value"` fragments, or a bare value, to an
    append-only row. */
module ElementFormat {
  import opened Wrappers

  // The constants of BasicConsts, FormatConsts and GeoPoint. Those classes
  // are not part of this model; these are the values assumed for them.
  const QUOTE := "\""
  const COLON := ":"
  const COMMA := ","
  const SPACE := " "
  const EMPTY_STRING := ""
  const HEADER_CONCAT := "-"
  const LATITUDE := "Latitude"
  const LONGITUDE := "Longitude"
  const ALTITUDE := "Altitude"
  const ACCURACY := "Accuracy"

  /** A Java `Long`. */
  type Long = x: int | -0x8000_0000_0000_0000 <= x < 0x8000_0000_0000_0000

  /** A `BigDecimal`, known here only by the text its `toString` gives. */
  datatype Decimal = Decimal(text: string)

  /** A `Date`, known here only by the text its `toString` gives. */
  datatype Date = Date(text: string)

  /** A GPS reading; every coordinate may be null. */
  datatype GeoPoint = GeoPoint(latitude: Option<Decimal>, longitude: Option<Decimal>,
                               altitude: Option<Decimal>, accuracy: Option<Decimal>)

  /** A binary answer: its attachments, each of which may hold no blob. */
  datatype BlobSubmission = BlobSubmission(attachments: seq<Option<seq<bv8>>>)
  {
    function AttachmentCount(): nat
    {
      |attachments|
    }

    /** `getBlob(ordinal)`, with ordinals counted from 1. */
    function GetBlob(ordinal: nat): Option<seq<bv8>>
      requires 1 <= ordinal <= AttachmentCount()
    {
      attachments[ordinal - 1]
    }
  }

  /** What Java throws when a null coordinate is dereferenced. */
  datatype Thrown = NullPointerException

  // ---------------------------------------------------------------------
  // Text of values
  // ---------------------------------------------------------------------

  function BooleanText(b: bool): string
  {
    if b then "true" else "false"
  }

  function DigitChar(d: nat): char
    requires d < 10
  {
    ('0' as int + d) as char
  }

  function DigitOf(c: char): nat
  {
    if '0' <= c <= '9' then (c - '0') as nat else 0
  }

  /** Decimal digits of `n`, most significant first, with no leading zero. */
  function NaturalText(n: nat): (s: string)
    ensures |s| >= 1
    ensures forall i :: 0 <= i < |s| ==> '0' <= s[i] <= '9'
    ensures |s| > 1 ==> s[0] != '0'
  {
    if n < 10 then [DigitChar(n)] else NaturalText(n / 10) + [DigitChar(n % 10)]
  }

  /** The number a string of decimal digits denotes. */
  function DigitsValue(s: string): nat
  {
    if s == [] then 0 else DigitsValue(s[..|s| - 1]) * 10 + DigitOf(s[|s| - 1])
  }

  /** `Long.toString`: a minus sign exactly for a negative number, then
      decimal digits with no leading zero. */
  function LongText(n: Long): (s: string)
    ensures |s| >= 1
    ensures s[0] == '-' <==> n < 0
    ensures n < 0 ==> |s| >= 2 && s[1] != '0'
    ensures forall i :: (if n < 0 then 1 else 0) <= i < |s| ==> '0' <= s[i] <= '9'
  {
    if n < 0 then "-" + NaturalText(-(n as int)) else NaturalText(n)
  }

  /** The digits of a number read back as that number. */
  lemma {:induction false} NaturalTextValue(n: nat)
    ensures DigitsValue(NaturalText(n)) == n
  {
    var s := NaturalText(n);
    if n >= 10 {
      NaturalTextValue(n / 10);
      assert s[..|s| - 1] == NaturalText(n / 10);
    }
  }

  /** `Long.toString` read back: a minus sign exactly for a negative number,
      then the digits of its magnitude. */
  lemma LongTextValue(n: Long)
    ensures n < 0 ==> LongText(n)[0] == '-' && DigitsValue(LongText(n)[1..]) == -(n as int)
    ensures n >= 0 ==> '0' <= LongText(n)[0] <= '9' && DigitsValue(LongText(n)) == n
  {
    if n < 0 {
      NaturalTextValue(-(n as int));
      assert LongText(n)[1..] == NaturalText(-(n as int));
    } else {
      NaturalTextValue(n);
    }
  }

  /** `value.toString()` for a value that is not null, and null otherwise. */
  function Render<T>(value: Option<T>, show: T -> string): Option<string>
  {
    match value
    case Some(v) => Some(show(v))
    case None => None
  }

  function DecimalText(d: Decimal): string
  {
    d.text
  }

  function DateText(d: Date): string
  {
    d.text
  }

  function StringText(s: string): string
  {
    s
  }

  // ---------------------------------------------------------------------
  // The "name":"value" fragment and its reading back
  // ---------------------------------------------------------------------

  /** The fragment `addToJsonValueToRow` builds: the quoted name and a colon,
      then the quoted value, or nothing for a null value. */
  function JsonPair(propertyName: string, value: Option<string>): string
  {
    QUOTE + propertyName + QUOTE + COLON +
    match value
    case Some(v) => QUOTE + v + QUOTE
    case None => EMPTY_STRING
  }

  /** The first position at or after `from` holding `c`. */
  function IndexOf(s: string, c: char, from: nat): (r: Option<nat>)
    ensures r.Some? ==> from <= r.value < |s| && s[r.value] == c
    ensures r.Some? ==> forall k :: from <= k < r.value ==> s[k] != c
    ensures r.None? ==> forall k :: from <= k < |s| ==> s[k] != c
    decreases |s| - from
  {
    if from >= |s| then None
    else if s[from] == c then Some(from)
    else IndexOf(s, c, from + 1)
  }

  /** Reads a fragment back: the name runs to the second quote, a colon
      follows, and then either nothing (a null value) or a quoted value. */
  function ParsePair(s: string): Option<(string, Option<string>)>
  {
    if |s| == 0 || s[0] != '"' then None
    else
      match IndexOf(s, '"', 1)
      case None => None
      case Some(i) =>
        if i + 1 >= |s| || s[i + 1] != ':' then None
        else
          var rest := s[i + 2..];
          if rest == [] then Some((s[1..i], None))
          else if |rest| >= 2 && rest[0] == '"' && rest[|rest| - 1] == '"' then
            Some((s[1..i], Some(rest[1..|rest| - 1])))
          else None
  }

  /** A fragment whose name holds no quote reads back as that name and
      value; the value itself may hold quotes, since nothing is escaped. */
  lemma ParseJsonPair(propertyName: string, value: Option<string>)
    requires '"' !in propertyName
    ensures ParsePair(JsonPair(propertyName, value)) == Some((propertyName, value))
  {
    var s := JsonPair(propertyName, value);
    var n := |propertyName|;
    var tail := match value case Some(v) => QUOTE + v + QUOTE case None => EMPTY_STRING;
    assert s == ['"'] + propertyName + ['"', ':'] + tail;
    assert s[1..n + 1] == propertyName;
    assert s[n + 1] == '"';
    forall k | 1 <= k < n + 1
      ensures s[k] != '"'
    {
      assert s[k] == propertyName[k - 1] && propertyName[k - 1] in propertyName;
    }
    assert IndexOf(s, '"', 1) == Some(n + 1);
    assert s[n + 2] == ':';
    assert s[n + 3..] == tail;
  }

  /** Conversely, whatever reads back as a name and a value is exactly the
      fragment for them, and its name holds no quote. */
  lemma PairOfParse(s: string)
    requires ParsePair(s).Some?
    ensures '"' !in ParsePair(s).value.0
    ensures s == JsonPair(ParsePair(s).value.0, ParsePair(s).value.1)
  {
    var i := IndexOf(s, '"', 1).value;
    var name := s[1..i];
    var rest := s[i + 2..];
    assert ParsePair(s).value.0 == name;
    forall k | 0 <= k < |name|
      ensures name[k] != '"'
    {
      assert name[k] == s[k + 1];
    }
    assert s[..i + 2] == QUOTE + name + QUOTE + COLON;
    assert s == s[..i + 2] + rest;
    if rest != [] {
      assert rest == QUOTE + rest[1..|rest| - 1] + QUOTE;
    }
  }

  // ---------------------------------------------------------------------
  // Joining with a separator, and splitting back
  // ---------------------------------------------------------------------

  /** The parts with the separator between consecutive ones, none before
      the first or after the last. */
  function Join(separator: string, parts: seq<string>): string
  {
    if |parts| == 0 then ""
    else if |parts| == 1 then parts[0]
    else parts[0] + separator + Join(separator, parts[1..])
  }

  lemma {:induction false} JoinSnoc(separator: string, parts: seq<string>, last: string)
    requires |parts| > 0
    ensures Join(separator, parts + [last]) == Join(separator, parts) + separator + last
  {
    if |parts| > 1 {
      assert (parts + [last])[1..] == parts[1..] + [last];
      JoinSnoc(separator, parts[1..], last);
    } else {
      assert (parts + [last])[1..] == [last];
    }
  }

  /** Cuts `s` at every occurrence of `c`. */
  function Split(s: string, c: char): seq<string>
    decreases |s|
  {
    match IndexOf(s, c, 0)
    case None => [s]
    case Some(i) => [s[..i]] + Split(s[i + 1..], c)
  }

  /** Parts free of a one-character separator are recovered by splitting at it. */
  lemma {:induction false} SplitJoin(c: char, parts: seq<string>)
    requires |parts| > 0
    requires forall i :: 0 <= i < |parts| ==> c !in parts[i]
    ensures Split(Join([c], parts), c) == parts
  {
    var p := parts[0];
    forall k | 0 <= k < |p|
      ensures p[k] != c
    {
      assert p[k] in p;
    }
    if |parts| > 1 {
      var rest := Join([c], parts[1..]);
      var s := p + [c] + rest;
      assert s == Join([c], parts);
      assert s[|p|] == c;
      assert forall k :: 0 <= k < |p| ==> s[k] == p[k];
      assert IndexOf(s, c, 0) == Some(|p|);
      assert s[..|p|] == p;
      assert s[|p| + 1..] == rest;
      SplitJoin(c, parts[1..]);
    } else {
      assert Join([c], parts) == p;
      assert IndexOf(p, c, 0) == None;
    }
  }

  /** What `StringBuilder.append` adds for one choice ("null" for a null one). */
  function ChoiceText(choice: Option<string>): string
  {
    match choice
    case Some(s) => s
    case None => "null"
  }

  function ChoiceTexts(choices: seq<Option<string>>): (r: seq<string>)
    ensures |r| == |choices|
    ensures forall i :: 0 <= i < |choices| ==> r[i] == ChoiceText(choices[i])
  {
    seq(|choices|, i requires 0 <= i < |choices| => ChoiceText(choices[i]))
  }

  /** A list of choices free of spaces is recovered from the joined text. */
  lemma ChoicesReadBack(choices: seq<string>)
    requires |choices| > 0
    requires forall i :: 0 <= i < |choices| ==> ' ' !in choices[i]
    ensures Split(Join(SPACE, choices), ' ') == choices
  {
    SplitJoin(' ', choices);
  }

  // ---------------------------------------------------------------------
  // GPS layouts
  // ---------------------------------------------------------------------

  /** The name suffixes of the separated layout, in order. */
  function SeparatedSuffixes(withAltitude: bool, withAccuracy: bool): seq<string>
  {
    [LATITUDE, LONGITUDE] + (if withAltitude then [ALTITUDE] else []) + (if withAccuracy then [ACCURACY] else [])
  }

  /** The coordinate values of the separated layout, in the same order. */
  function SeparatedValues(p: GeoPoint, withAltitude: bool, withAccuracy: bool): seq<Option<string>>
  {
    [Render(p.latitude, DecimalText), Render(p.longitude, DecimalText)] +
    (if withAltitude then [Render(p.altitude, DecimalText)] else []) +
    (if withAccuracy then [Render(p.accuracy, DecimalText)] else [])
  }

  /** The entries the separated layout appends: one fragment per coordinate. */
  function SeparatedEntries(p: GeoPoint, propertyName: string, withAltitude: bool, withAccuracy: bool): seq<Option<string>>
  {
    var suffixes := SeparatedSuffixes(withAltitude, withAccuracy);
    var values := SeparatedValues(p, withAltitude, withAccuracy);
    seq(|suffixes|, i requires 0 <= i < |suffixes| =>
      Some(JsonPair(propertyName + HEADER_CONCAT + suffixes[i], values[i])))
  }

  lemma NoQuoteInConcat(a: string, b: string)
    requires '"' !in a && '"' !in b
    ensures '"' !in a + b
  {
    forall k | 0 <= k < |a + b|
      ensures (a + b)[k] != '"'
    {
      if k < |a| {
        assert a[k] in a;
      } else {
        assert b[k - |a|] in b;
      }
    }
  }

  /** The separated layout appends two entries plus one per included extra;
      entry i reads back as the i-th suffixed name and coordinate. */
  lemma SeparatedEntriesReadBack(p: GeoPoint, propertyName: string, withAltitude: bool, withAccuracy: bool)
    requires '"' !in propertyName
    ensures var entries := SeparatedEntries(p, propertyName, withAltitude, withAccuracy);
            |entries| == 2 + (if withAltitude then 1 else 0) + (if withAccuracy then 1 else 0) &&
            forall i :: 0 <= i < |entries| ==>
              entries[i].Some? &&
              ParsePair(entries[i].value) ==
                Some((propertyName + HEADER_CONCAT + SeparatedSuffixes(withAltitude, withAccuracy)[i],
                      SeparatedValues(p, withAltitude, withAccuracy)[i]))
  {
    var suffixes := SeparatedSuffixes(withAltitude, withAccuracy);
    var values := SeparatedValues(p, withAltitude, withAccuracy);
    forall i | 0 <= i < |suffixes|
      ensures ParsePair(JsonPair(propertyName + HEADER_CONCAT + suffixes[i], values[i])) ==
                Some((propertyName + HEADER_CONCAT + suffixes[i], values[i]))
    {
      var name := propertyName + HEADER_CONCAT + suffixes[i];
      assert '"' !in suffixes[i];
      NoQuoteInConcat(propertyName, HEADER_CONCAT);
      NoQuoteInConcat(propertyName + HEADER_CONCAT, suffixes[i]);
      ParseJsonPair(name, values[i]);
    }
  }

  /** The parts of the combined layout, for a point whose latitude and
      longitude are present; None when an included extra is null, whose
      `toString` would throw. */
  function CombinedParts(p: GeoPoint, withAltitude: bool, withAccuracy: bool): Option<seq<string>>
    requires p.latitude.Some? && p.longitude.Some?
  {
    if (withAltitude && p.altitude.None?) || (withAccuracy && p.accuracy.None?) then None
    else
      Some([p.latitude.value.text, p.longitude.value.text] +
           (if withAltitude then [p.altitude.value.text] else []) +
           (if withAccuracy then [p.accuracy.value.text] else []))
  }

  // ---------------------------------------------------------------------
  // The row and the formatter
  // ---------------------------------------------------------------------

  /** The row under construction; formatted values are only ever appended. */
  class Row {
    var formattedValues: seq<Option<string>>

    constructor ()
      ensures formattedValues == []
    {
      formattedValues := [];
    }

    method AddFormattedValue(value: Option<string>)
      modifies this
      ensures formattedValues == old(formattedValues) + [value]
    {
      formattedValues := formattedValues + [value];
    }
  }

  class JsonElementFormatter {
    /** Separate the GPS coordinates into one entry each. */
    const separateCoordinates: bool
    /** Include GPS altitude data. */
    const includeAltitude: bool
    /** Include GPS accuracy data. */
    const includeAccuracy: bool

    constructor (separateGpsCoordinates: bool, includeGpsAltitude: bool, includeGpsAccuracy: bool)
      ensures separateCoordinates == separateGpsCoordinates
      ensures includeAltitude == includeGpsAltitude
      ensures includeAccuracy == includeGpsAccuracy
    {
      separateCoordinates := separateGpsCoordinates;
      includeAltitude := includeGpsAltitude;
      includeAccuracy := includeGpsAccuracy;
    }

    /** Unique ids are not rendered. */
    method FormatUid(uri: Option<string>, propertyName: string, row: Row)
      ensures row.formattedValues == old(row.formattedValues)
    {
    }

    /** A missing binary or one without attachments appends a null entry; a
        single non-empty blob appends its Base64 text; anything else
        appends nothing. */
    method FormatBinary(blobSubmission: Option<BlobSubmission>, propertyName: string, row: Row, base64: seq<bv8> -> string)
      modifies row
      ensures (blobSubmission.None? || blobSubmission.value.AttachmentCount() == 0) ==>
                row.formattedValues == old(row.formattedValues) + [None]
      ensures blobSubmission.Some? && blobSubmission.value.AttachmentCount() > 1 ==>
                row.formattedValues == old(row.formattedValues)
      ensures blobSubmission.Some? && blobSubmission.value.AttachmentCount() == 1 ==>
                var blob := blobSubmission.value.GetBlob(1);
                row.formattedValues == old(row.formattedValues) +
                  if blob.Some? && |blob.value| > 0 then [Some(JsonPair(propertyName, Some(base64(blob.value))))] else []
    {
      if blobSubmission.None? || blobSubmission.value.AttachmentCount() == 0 {
        row.AddFormattedValue(None);
        return;
      }
      var imageBlob: Option<seq<bv8>> := None;
      if blobSubmission.value.AttachmentCount() == 1 {
        imageBlob := blobSubmission.value.GetBlob(1);
      }
      assert blobSubmission.value.AttachmentCount() == 1 ==> imageBlob == blobSubmission.value.GetBlob(1);
      if imageBlob.Some? && |imageBlob.value| > 0 {
        AddToJsonValueToRow(Some(base64(imageBlob.value)), propertyName, row);
      }
    }

    method FormatBoolean(value: Option<bool>, propertyName: string, row: Row)
      modifies row
      ensures row.formattedValues == old(row.formattedValues) + [Some(JsonPair(propertyName, Render(value, BooleanText)))]
    {
      AddToJsonValueToRow(Render(value, BooleanText), propertyName, row);
    }

    /** One entry whose value is the choices separated by single spaces. */
    method FormatChoices(choices: seq<Option<string>>, propertyName: string, row: Row)
      modifies row
      ensures row.formattedValues == old(row.formattedValues) +
                [Some(JsonPair(propertyName, Some(Join(SPACE, ChoiceTexts(choices)))))]
    {
      var b := "";
      var first := true;
      for i := 0 to |choices|
        invariant first <==> i == 0
        invariant b == Join(SPACE, ChoiceTexts(choices[..i]))
        invariant row.formattedValues == old(row.formattedValues)
      {
        ghost var before := ChoiceTexts(choices[..i]);
        assert ChoiceTexts(choices[..i + 1]) == before + [ChoiceText(choices[i])];
        if !first {
          b := b + SPACE;
          JoinSnoc(SPACE, before, ChoiceText(choices[i]));
        }
        first := false;
        b := b + ChoiceText(choices[i]);
        assert b == Join(SPACE, ChoiceTexts(choices[..i + 1]));
      }
      assert choices[..|choices|] == choices;
      assert b == Join(SPACE, ChoiceTexts(choices));
      AddToJsonValueToRow(Some(b), propertyName, row);
    }

    method FormatDate(date: Option<Date>, propertyName: string, row: Row)
      modifies row
      ensures row.formattedValues == old(row.formattedValues) + [Some(JsonPair(propertyName, Render(date, DateText)))]
    {
      AddToJsonValueToRow(Render(date, DateText), propertyName, row);
    }

    method FormatDecimal(dub: Option<Decimal>, propertyName: string, row: Row)
      modifies row
      ensures row.formattedValues == old(row.formattedValues) + [Some(JsonPair(propertyName, Render(dub, DecimalText)))]
    {
      AddToJsonValueToRow(Render(dub, DecimalText), propertyName, row);
    }

    /** Separated: one entry per coordinate. Combined: one entry holding
        "lat, long[, alt][, acc]", or null when latitude or longitude is
        missing. A null point, or a null extra included in the combined
        layout, throws before anything is appended. */
    method FormatGeoPoint(coordinate: Option<GeoPoint>, propertyName: string, row: Row) returns (r: Outcome<Thrown>)
      modifies row
      ensures coordinate.None? ==> r == Fail(NullPointerException) && row.formattedValues == old(row.formattedValues)
      ensures coordinate.Some? && separateCoordinates ==>
                r == Pass &&
                row.formattedValues == old(row.formattedValues) +
                  SeparatedEntries(coordinate.value, propertyName, includeAltitude, includeAccuracy)
      ensures coordinate.Some? && !separateCoordinates &&
              (coordinate.value.latitude.None? || coordinate.value.longitude.None?) ==>
                r == Pass && row.formattedValues == old(row.formattedValues) + [None]
      ensures coordinate.Some? && !separateCoordinates &&
              coordinate.value.latitude.Some? && coordinate.value.longitude.Some? ==>
                match CombinedParts(coordinate.value, includeAltitude, includeAccuracy)
                case None => r == Fail(NullPointerException) && row.formattedValues == old(row.formattedValues)
                case Some(parts) =>
                  r == Pass && row.formattedValues == old(row.formattedValues) + [Some(Join(COMMA + SPACE, parts))]
    {
      if coordinate.None? {
        return Fail(NullPointerException);
      }
      if separateCoordinates {
        AddSeparated(coordinate.value, propertyName, row);
        r := Pass;
      } else {
        r := AddCombined(coordinate.value, row);
      }
    }

    /** The separated layout of `formatGeoPoint`: one fragment per coordinate. */
    method AddSeparated(p: GeoPoint, propertyName: string, row: Row)
      modifies row
      ensures row.formattedValues == old(row.formattedValues) +
                SeparatedEntries(p, propertyName, includeAltitude, includeAccuracy)
    {
      ghost var start := row.formattedValues;
      ghost var entries := SeparatedEntries(p, propertyName, includeAltitude, includeAccuracy);
      AddToJsonValueToRow(Render(p.latitude, DecimalText), propertyName + HEADER_CONCAT + LATITUDE, row);
      AddToJsonValueToRow(Render(p.longitude, DecimalText), propertyName + HEADER_CONCAT + LONGITUDE, row);
      assert row.formattedValues == start + entries[..2];
      if includeAltitude {
        AddToJsonValueToRow(Render(p.altitude, DecimalText), propertyName + HEADER_CONCAT + ALTITUDE, row);
      }
      ghost var n := if includeAltitude then 3 else 2;
      assert row.formattedValues == start + entries[..n];
      if includeAccuracy {
        AddToJsonValueToRow(Render(p.accuracy, DecimalText), propertyName + HEADER_CONCAT + ACCURACY, row);
      }
      assert entries[..|entries|] == entries;
    }

    /** The combined layout of `formatGeoPoint`: one bare value, or null when
        latitude or longitude is missing; an included extra that is missing
        throws before anything is appended. */
    method AddCombined(p: GeoPoint, row: Row) returns (r: Outcome<Thrown>)
      modifies row
      ensures (p.latitude.None? || p.longitude.None?) ==>
                r == Pass && row.formattedValues == old(row.formattedValues) + [None]
      ensures p.latitude.Some? && p.longitude.Some? ==>
                match CombinedParts(p, includeAltitude, includeAccuracy)
                case None => r == Fail(NullPointerException) && row.formattedValues == old(row.formattedValues)
                case Some(parts) =>
                  r == Pass && row.formattedValues == old(row.formattedValues) + [Some(Join(COMMA + SPACE, parts))]
    {
      if p.longitude.Some? && p.latitude.Some? {
        ghost var parts := [p.latitude.value.text, p.longitude.value.text];
        var coordVal := p.latitude.value.text + COMMA + SPACE + p.longitude.value.text;
        assert coordVal == Join(COMMA + SPACE, parts);
        if includeAltitude {
          if p.altitude.None? {
            return Fail(NullPointerException);
          }
          JoinSnoc(COMMA + SPACE, parts, p.altitude.value.text);
          coordVal := coordVal + COMMA + SPACE + p.altitude.value.text;
          parts := parts + [p.altitude.value.text];
          assert coordVal == Join(COMMA + SPACE, parts);
        }
        if includeAccuracy {
          if p.accuracy.None? {
            return Fail(NullPointerException);
          }
          JoinSnoc(COMMA + SPACE, parts, p.accuracy.value.text);
          coordVal := coordVal + COMMA + SPACE + p.accuracy.value.text;
          parts := parts + [p.accuracy.value.text];
          assert coordVal == Join(COMMA + SPACE, parts);
        }
        assert parts == [p.latitude.value.text, p.longitude.value.text] +
                        (if includeAltitude then [p.altitude.value.text] else []) +
                        (if includeAccuracy then [p.accuracy.value.text] else []);
        assert CombinedParts(p, includeAltitude, includeAccuracy) == Some(parts);
        row.AddFormattedValue(Some(coordVal));
      } else {
        row.AddFormattedValue(None);
      }
      r := Pass;
    }

    method FormatLong(longInt: Option<Long>, propertyName: string, row: Row)
      modifies row
      ensures row.formattedValues == old(row.formattedValues) + [Some(JsonPair(propertyName, Render(longInt, LongText)))]
    {
      AddToJsonValueToRow(Render(longInt, LongText), propertyName, row);
    }

    /** Repeat groups are not rendered. */
    method FormatRepeats(row: Row)
      ensures row.formattedValues == old(row.formattedValues)
    {
    }

    method FormatString(str: Option<string>, propertyName: string, row: Row)
      modifies row
      ensures row.formattedValues == old(row.formattedValues) + [Some(JsonPair(propertyName, Render(str, StringText)))]
    {
      AddToJsonValueToRow(Render(str, StringText), propertyName, row);
    }

    /** Appends exactly one fragment, `"name":"value"` or `"name":` for a
        null value, and nothing else. */
    method AddToJsonValueToRow(value: Option<string>, propertyName: string, row: Row)
      modifies row
      ensures row.formattedValues == old(row.formattedValues) + [Some(JsonPair(propertyName, value))]
    {
      var jsonString := "";
      jsonString := jsonString + QUOTE;
      jsonString := jsonString + propertyName;
      jsonString := jsonString + (QUOTE + COLON);
      assert jsonString == QUOTE + propertyName + QUOTE + COLON;
      if value.Some? {
        jsonString := jsonString + QUOTE;
        jsonString := jsonString + value.value;
        jsonString := jsonString + QUOTE;
        assert jsonString == QUOTE + propertyName + QUOTE + COLON + (QUOTE + value.value + QUOTE);
      } else {
        jsonString := jsonString + EMPTY_STRING;
      }
      row.AddFormattedValue(Some(jsonString));
    }
  }
}
