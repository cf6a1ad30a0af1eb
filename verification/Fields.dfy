// Data types, data items and values, and their text between field separators (section 2.2.3).
module Fields {
  import opened Wrappers
  import opened Digits
  import D = Decimals

  // --- dates and times ----------------------------------------------------------

  predicate LeapYear(year: nat) {
    year % 4 == 0 && (year % 100 != 0 || year % 400 == 0)
  }

  function DaysInMonth(year: nat, month: nat): (days: nat)
    ensures days <= 31
  {
    if month == 2 then (if LeapYear(year) then 29 else 28)
    else if month in {4, 6, 9, 11} then 30
    else 31
  }

  datatype RawDate = Date(year: nat, month: nat, day: nat) {
    predicate Valid() {
      1 <= year <= 9999 && 1 <= month <= 12 && 1 <= day <= DaysInMonth(year, month)
    }
  }
  type Date = d: RawDate | d.Valid() witness Date(1, 1, 1)

  datatype RawTime = Time(hour: nat, minute: nat, second: nat, microsecond: nat) {
    predicate Valid() {
      hour < 24 && minute < 60 && second < 60 && microsecond < 1_000_000
    }
  }
  type Time = t: RawTime | t.Valid() witness Time(0, 0, 0, 0)

  // --- values and data types ----------------------------------------------------

  // A value of a data item. Moment is a datetime: in GMT when `aware`, without time zone otherwise.
  datatype Value =
    | Absent
    | Text(text: string)
    | Integer(number: int)
    | Number(decimal: D.Decimal)
    | Truth(flag: bool)
    | Day(date: Date)
    | Clock(time: Time)
    | Moment(aware: bool, day: Date, at: Time)

  datatype Kind =
    | NullKind | TextKind | CharKind | IntegerKind | DecimalKind | BooleanKind
    | DateKind | DateTimeKind | TimeKind | TimestampKind
    | OtherKind(name: string)

  datatype DataType = DataType(kind: Kind, length: Option<nat>, decimals: Option<nat>)

  datatype Presence = Mandatory | Optional | Unused

  datatype Field = Field(itemId: string, dataType: DataType, presence: Presence)

  // --- encode: None where the original raises FieldError --------------------------

  // The IDD character table: printable ASCII without $ < > ` | ~
  predicate Allowed(c: char) {
    ' ' <= c <= '}' && c != '$' && c != '<' && c != '>' && c != '`' && c != '|'
  }

  function EncodeText(s: string, dt: DataType): Option<string> {
    var limit := if dt.kind.CharKind? then Some(1) else dt.length;
    if s != "" && (IsSpace(s[0]) || IsSpace(s[|s| - 1])) then None
    else if exists i :: 0 <= i < |s| && !Allowed(s[i]) then None
    else if limit.Some? && |s| > limit.value then None
    else Some(s)
  }

  function EncodeInteger(i: int, dt: DataType): Option<string> {
    var digits := |NatText(if i < 0 then -i else i)|;
    if dt.length.Some? && digits > dt.length.value then None else Some(IntText(i))
  }

  function EncodeDecimal(d: D.Decimal, dt: DataType): Option<string> {
    if dt.length.None? || dt.decimals.None? then None
    else D.Encode(d, dt.length.value, dt.decimals.value)
  }

  function DateText(d: Date): (t: string)
    ensures |t| == 8 && AllDigits(t)
  {
    TwoDigitsFit();
    PadNat(d.year, 4) + PadNat(d.month, 2) + PadNat(d.day, 2)
  }

  function HourMinuteText(t: Time): (s: string)
    ensures |s| == 4 && AllDigits(s)
  {
    TwoDigitsFit();
    PadNat(t.hour, 2) + PadNat(t.minute, 2)
  }

  function SecondText(t: Time): (s: string)
    ensures |s| == 2 && AllDigits(s)
  {
    TwoDigitsFit();
    PadNat(t.second, 2)
  }

  lemma TwoDigitsFit()
    ensures Pow10(2) == 100 && Pow10(4) == 10_000
  {
  }

  function Encode(v: Value, dt: DataType): Option<string> {
    match dt.kind
    case NullKind => if v.Absent? then Some("") else None
    case TextKind => if v.Text? then EncodeText(v.text, dt) else None
    case CharKind => if v.Text? then EncodeText(v.text, dt) else None
    case IntegerKind => (match v case Integer(i) => EncodeInteger(i, dt) case _ => None)
    case DecimalKind => if v.Number? then EncodeDecimal(v.decimal, dt) else None
    case BooleanKind => (match v case Truth(b) => Some(if b then "T" else "F") case _ => None)
    case DateKind => if v.Day? then Some(DateText(v.date)) else None
    case DateTimeKind =>
      if v.Moment? && v.aware then Some(DateText(v.day) + HourMinuteText(v.at) + SecondText(v.at)) else None
    case TimeKind => if v.Clock? then Some(HourMinuteText(v.time)) else None
    case TimestampKind => if v.Clock? then Some(HourMinuteText(v.time) + SecondText(v.time)) else None
    case OtherKind(_) => None
  }

  function EncodeField(f: Field, v: Value): Option<string> {
    if f.presence.Unused? then
      if v.Absent? then Some("") else None
    else if v.Absent? then
      if f.presence.Optional? then Some("") else None
    else
      Encode(v, f.dataType)
  }

  // --- parse: None where the original raises FieldError ---------------------------

  function ReadInteger(text: string, dt: DataType): Option<Value> {
    var negative := text != "" && text[0] == '-';
    var digits := if negative then text[1..] else text;
    if digits == "" || !AllDigits(digits) then None
    else if digits[0] == '0' && digits != "0" then None
    else
      var magnitude: int := Digits.Value(digits);
      var i := if negative then -magnitude else magnitude;
      if EncodeInteger(i, dt).None? then None else Some(Integer(i))
  }

  function ReadDate(text: string): Option<Date> {
    if |text| != 8 || !AllDigits(text) then None
    else
      var d := Date(Digits.Value(text[..4]), Digits.Value(text[4..6]), Digits.Value(text[6..]));
      if d.Valid() then Some(d) else None
  }

  // Hours and minutes, and seconds when there are any.
  function ReadTime(text: string): Option<Time> {
    if |text| !in {4, 6} || !AllDigits(text) then None
    else
      var t := Time(Digits.Value(text[..2]), Digits.Value(text[2..4]), Digits.Value(text[4..]), 0);
      if t.Valid() then Some(t) else None
  }

  function Parse(text: string, dt: DataType): Option<Value> {
    match dt.kind
    case NullKind => if text == "" then Some(Absent) else None
    case TextKind => (match EncodeText(text, dt) case Some(s) => Some(Text(s)) case None => None)
    case CharKind => (match EncodeText(text, dt) case Some(s) => Some(Text(s)) case None => None)
    case IntegerKind => ReadInteger(text, dt)
    case DecimalKind => (match D.Read(text) case Some(d) => Some(Number(d)) case None => None)
    case BooleanKind => if text == "T" || text == "F" then Some(Truth(text == "T")) else None
    case DateKind => (match ReadDate(text) case Some(d) => Some(Day(d)) case None => None)
    case DateTimeKind =>
      if |text| != 14 then None
      else
        (match (ReadDate(text[..8]), ReadTime(text[8..]))
         case (Some(d), Some(t)) => Some(Moment(true, d, t))
         case _ => None)
    case TimeKind =>
      if |text| != 4 then None
      else (match ReadTime(text) case Some(t) => Some(Clock(t)) case None => None)
    case TimestampKind =>
      if |text| != 6 then None
      else (match ReadTime(text) case Some(t) => Some(Clock(t)) case None => None)
    case OtherKind(_) => None
  }

  function ParseField(f: Field, text: string): Option<Value> {
    if text == "" then
      if f.presence.Mandatory? then None else Some(Absent)
    else if f.presence.Unused? then None
    else Parse(text, f.dataType)
  }

  // --- round trip -----------------------------------------------------------------

  // w is v as a file gives it back: the same value, and of equal decimals the one in lowest terms.
  predicate Returned(w: Value, v: Value) {
    if v.Number? && v.decimal.Finite? then w == Number(D.Literal(D.CanonicalOf(v.decimal))) else w == v
  }

  // What a caller must see to for a value to survive a file: no empty text, no time finer than the
  // data type, no more digits than the decimal context carries.
  predicate Faithful(dt: DataType, v: Value) {
    match v
    case Text(s) => s != ""
    case Number(d) => D.KeepsAllDigits(d)
    case Clock(t) => t.microsecond == 0 && (dt.kind.TimeKind? ==> t.second == 0)
    case Moment(_, _, t) => t.microsecond == 0
    case _ => true
  }

  // A text that cannot be taken for a separator, a line end or a byte outside ASCII.
  predicate Clean(s: string) {
    forall i :: 0 <= i < |s| ==> ' ' <= s[i] <= '~' && s[i] != '|'
  }

  lemma DigitsAreClean(s: string)
    requires AllDigits(s)
    ensures Clean(s)
  {
    forall i | 0 <= i < |s| ensures ' ' <= s[i] <= '~' && s[i] != '|' {
      assert IsDigit(s[i]);
    }
  }

  lemma MagnitudeIsClean(units: nat, places: nat)
    ensures Clean(D.MagnitudeText(units, places))
  {
    var text := D.MagnitudeText(units, places);
    D.MagnitudeParts(units, places);
    if places == 0 {
      DigitsAreClean(text);
    } else {
      DigitsAreClean(D.Partition(text).0);
      DigitsAreClean(D.Partition(text).1);
      assert text == D.Partition(text).0 + "." + D.Partition(text).1;
    }
  }

  lemma ShowIsClean(c: D.Canonical)
    ensures Clean(D.Show(c))
  {
    MagnitudeIsClean(c.units, c.places);
  }

  lemma EncodedIsClean(v: Value, dt: DataType)
    requires Encode(v, dt).Some?
    ensures Clean(Encode(v, dt).value)
  {
    var t := Encode(v, dt).value;
    match dt.kind {
      case TextKind =>
        assert forall i :: 0 <= i < |t| ==> Allowed(t[i]);
      case CharKind =>
        assert forall i :: 0 <= i < |t| ==> Allowed(t[i]);
      case IntegerKind =>
        match v { case Integer(i) => DigitsAreClean(NatText(if i < 0 then -i else i)); case _ => }
      case DecimalKind =>
        D.EncodeIsCanonical(v.decimal, dt.length.value, dt.decimals.value);
        ShowIsClean(D.CanonicalOf(D.Rounded(v.decimal)));
      case DateKind => DigitsAreClean(t);
      case DateTimeKind => DigitsAreClean(t);
      case TimeKind => DigitsAreClean(t);
      case TimestampKind => DigitsAreClean(t);
      case _ =>
    }
  }

  lemma FieldIsClean(f: Field, v: Value)
    requires EncodeField(f, v).Some?
    ensures Clean(EncodeField(f, v).value)
  {
    if !v.Absent? {
      EncodedIsClean(v, f.dataType);
    }
  }

  lemma DateRoundTrip(d: Date)
    ensures ReadDate(DateText(d)) == Some(d)
  {
    var t := DateText(d);
    TwoDigitsFit();
    assert t[..4] == PadNat(d.year, 4) && t[4..6] == PadNat(d.month, 2) && t[6..] == PadNat(d.day, 2);
  }

  lemma HourMinuteRoundTrip(t: Time)
    ensures ReadTime(HourMinuteText(t)) == Some(Time(t.hour, t.minute, 0, 0))
  {
    var s := HourMinuteText(t);
    TwoDigitsFit();
    assert s[..2] == PadNat(t.hour, 2) && s[2..4] == PadNat(t.minute, 2) && s[4..] == "";
  }

  lemma TimeRoundTrip(t: Time)
    ensures ReadTime(HourMinuteText(t) + SecondText(t)) == Some(Time(t.hour, t.minute, t.second, 0))
  {
    var s := HourMinuteText(t) + SecondText(t);
    TwoDigitsFit();
    assert s[..2] == PadNat(t.hour, 2) && s[2..4] == PadNat(t.minute, 2) && s[4..] == PadNat(t.second, 2);
  }

  lemma IntegerRoundTrip(i: int, dt: DataType)
    requires EncodeInteger(i, dt).Some?
    ensures IntText(i) != "" && ReadInteger(IntText(i), dt) == Some(Integer(i))
  {
    var text := IntText(i);
    if i < 0 {
      assert text[1..] == NatText(-i);
    } else {
      assert IsDigit(text[0]);
    }
    assert NatText(0) == "0";
  }

  lemma IntegersRoundTrip(v: Value, dt: DataType)
    requires Encode(v, dt).Some? && v.Integer?
    ensures Encode(v, dt).value != "" && Parse(Encode(v, dt).value, dt) == Some(v) && Faithful(dt, v)
  {
    IntegerRoundTrip(v.number, dt);
  }

  lemma DatesRoundTrip(v: Value, dt: DataType)
    requires Encode(v, dt).Some? && v.Day?
    ensures Encode(v, dt).value != "" && Parse(Encode(v, dt).value, dt) == Some(v) && Faithful(dt, v)
  {
    DateRoundTrip(v.date);
  }

  lemma TimesRoundTrip(v: Value, dt: DataType)
    requires Encode(v, dt).Some? && (v.Clock? || v.Moment?)
    ensures Encode(v, dt).value != "" && Parse(Encode(v, dt).value, dt).Some?
    ensures Parse(Encode(v, dt).value, dt).value != Absent
    ensures Parse(Encode(v, dt).value, dt).value == v <==> Faithful(dt, v)
  {
    var t := Encode(v, dt).value;
    if v.Clock? {
      HourMinuteRoundTrip(v.time);
      TimeRoundTrip(v.time);
    } else {
      assert t[..8] == DateText(v.day) && t[8..] == HourMinuteText(v.at) + SecondText(v.at);
      DateRoundTrip(v.day);
      TimeRoundTrip(v.at);
    }
  }

  lemma NumberRoundTrip(d: D.Decimal, dt: DataType)
    requires EncodeDecimal(d, dt).Some?
    ensures EncodeDecimal(d, dt).value != "" && D.Read(EncodeDecimal(d, dt).value).Some?
    ensures d.Finite?
    ensures D.Read(EncodeDecimal(d, dt).value).value == D.Literal(D.CanonicalOf(d)) <==> D.KeepsAllDigits(d)
  {
    D.ReadEncoded(d, dt.length.value, dt.decimals.value);
    assert D.Read("").None?;
  }

  // A value of any data type but `null`, read back: it is the same value exactly when it is faithful.
  lemma ValueRoundTrip(v: Value, dt: DataType)
    requires Encode(v, dt).Some? && !v.Absent?
    ensures Encode(v, dt).value == "" ==> v == Text("")
    ensures Encode(v, dt).value != "" ==>
              && Parse(Encode(v, dt).value, dt).Some? && !Parse(Encode(v, dt).value, dt).value.Absent?
              && (Returned(Parse(Encode(v, dt).value, dt).value, v) <==> Faithful(dt, v))
  {
    match v {
      case Integer(i) => IntegersRoundTrip(v, dt);
      case Number(d) => NumberRoundTrip(d, dt);
      case Day(d) => DatesRoundTrip(v, dt);
      case Clock(_) => TimesRoundTrip(v, dt);
      case Moment(_, _, _) => TimesRoundTrip(v, dt);
      case _ =>
    }
  }

  // A data item that encodes is read back as the same value exactly when the value is faithful.
  lemma FieldRoundTrip(f: Field, v: Value)
    requires EncodeField(f, v).Some?
    ensures (var w := ParseField(f, EncodeField(f, v).value); w.Some? && Returned(w.value, v))
        <==> Faithful(f.dataType, v)
    ensures ParseField(f, EncodeField(f, v).value).Some? ==>
              (ParseField(f, EncodeField(f, v).value).value.Absent? <==> EncodeField(f, v).value == "")
  {
    if !v.Absent? {
      ValueRoundTrip(v, f.dataType);
    }
  }
}
