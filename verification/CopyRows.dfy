/** The text rows streamed into the time-series table, and the reader that gets every column back. */
module CopyRows {
  import opened Types
  import opened TelemetryEvents
  import opened Decimals
  import Calendar

  const TWO_64: nat := 0x1_0000_0000_0000_0000

  // ----- the time column -----

  lemma YearIsNatural(days: nat)
    ensures Calendar.CivilFromDays(days).year >= 1970
  {
    var d := Calendar.CivilFromDays(days);
    Calendar.CivilIsThatDay(days);
    Calendar.YearHolds(d);
    if d.year < 1970 {
      Calendar.YearsAscend(d.year, 1970);
    }
  }

  /** The stamp as a literal of the database, in microseconds. */
  function Iso8601(tsNs: nat): string {
    var secs := tsNs / 1_000_000_000;
    var nanos := tsNs % 1_000_000_000;
    var date := Calendar.CivilFromDays(secs / 86400);
    var ofDay := secs % 86400;
    YearIsNatural(secs / 86400);
    Calendar.CivilIsThatDay(secs / 86400);
    Padded(date.year, 4) + "-" + Padded(date.month, 2) + "-" + Padded(date.day, 2)
    + " " + Padded(ofDay / 3600, 2) + ":" + Padded(ofDay % 3600 / 60, 2) + ":" + Padded(ofDay % 60, 2)
    + "." + Padded(nanos / 1000, 6) + "+00"
  }

  const JANUARY: nat := 1_704_164_645_123_456_789

  lemma PartsOfJanuary()
    ensures Iso8601(JANUARY) == Padded(2024, 4) + "-" + Padded(1, 2) + "-" + Padded(2, 2)
      + " " + Padded(3, 2) + ":" + Padded(4, 2) + ":" + Padded(5, 2) + "." + Padded(123_456, 6) + "+00"
  {
    hide Padded, Calendar.CivilFromDays;
    SecondOfJanuary();
    assert JANUARY / 1_000_000_000 == 1_704_164_645 && JANUARY % 1_000_000_000 / 1000 == 123_456;
  }

  /** A stamp in January 2024. */
  lemma StampInJanuary()
    ensures Iso8601(1_704_164_645_123_456_789) == "2024-01-02 03:04:05.123456+00"
  {
    hide Padded, Iso8601;
    PartsOfJanuary();
    ShortNumerals();
  }

  lemma SecondOfJanuary()
    ensures Calendar.CivilFromDays(19724) == Calendar.Date(2024, 1, 2)
  {
  }

  lemma TwoWide(n: nat)
    requires n < 10
    ensures Padded(n, 2) == ['0', Digit(n)]
  {
    assert Zeros(1) == "0";
  }

  lemma ShortNumerals()
    ensures Padded(2024, 4) == "2024" && Padded(123456, 6) == "123456"
    ensures Padded(1, 2) == "01" && Padded(2, 2) == "02" && Padded(3, 2) == "03" && Padded(4, 2) == "04" && Padded(5, 2) == "05"
  {
    hide Decimal, Zeros;
    LongNumeral();
    TwoWide(1);
    TwoWide(2);
    TwoWide(3);
    TwoWide(4);
    TwoWide(5);
    hide Padded;
  }

  lemma LastDigit(n: nat, d: nat)
    requires n > 0 && d < 10
    ensures Decimal(10 * n + d) == Decimal(n) + ["0123456789"[d]]
  {
  }

  lemma LongNumeral()
    ensures Decimal(123456) == "123456" && Decimal(2024) == "2024"
  {
    assert Decimal(2) == "2" && Decimal(1) == "1";
    hide Decimal;
    LastDigit(2, 0);
    LastDigit(20, 2);
    LastDigit(202, 4);
    LastDigit(1, 2);
    LastDigit(12, 3);
    LastDigit(123, 4);
    LastDigit(1234, 5);
    LastDigit(12345, 6);
  }

  /** The shape of a time literal with a four-digit year. */
  predicate TimeShaped(s: string) {
    && |s| == 29
    && s[4] == '-' && s[7] == '-' && s[10] == ' ' && s[13] == ':' && s[16] == ':' && s[19] == '.' && s[26..] == "+00"
    && AllDigits(s[..4]) && AllDigits(s[5..7]) && AllDigits(s[8..10])
    && AllDigits(s[11..13]) && AllDigits(s[14..16]) && AllDigits(s[17..19]) && AllDigits(s[20..26])
  }

  function Micros(date: Calendar.Date, hour: int, minute: int, second: int, micros: int): int {
    (((Calendar.DayNumber(date) * 24 + hour) * 60 + minute) * 60 + second) * 1_000_000 + micros
  }

  /** Microseconds since 1970, as the database stores the literal; none when the literal names no moment. */
  function ReadTime(s: string): Option<int> {
    if !TimeShaped(s) then None
    else
      var date := Calendar.Date(Value(s[..4]), Value(s[5..7]), Value(s[8..10]));
      if Calendar.Valid(date) && Value(s[11..13]) < 24 && Value(s[14..16]) < 60 && Value(s[17..19]) < 60 then
        Some(Micros(date, Value(s[11..13]), Value(s[14..16]), Value(s[17..19]), Value(s[20..26])))
      else None
  }

  // ----- the text format of COPY -----

  function EscapedChar(c: char): string {
    if c == '\\' then "\\\\"
    else if c == '\t' then "\\t"
    else if c == '\n' then "\\n"
    else if c == '\r' then "\\r"
    else [c]
  }

  function Escaped(value: string): string {
    if value == [] then [] else Escaped(value[..|value| - 1]) + EscapedChar(value[|value| - 1])
  }

  lemma EscapedNext(out: string, value: string, i: nat)
    requires i < |value|
    ensures out + Escaped(value[..i + 1]) == out + Escaped(value[..i]) + EscapedChar(value[i])
  {
    hide EscapedChar;
    assert value[..i + 1][..i] == value[..i];
  }

  method PushEscaped(out: string, value: string) returns (r: string)
    ensures r == out + Escaped(value)
  {
    r := out;
    for i := 0 to |value|
      invariant r == out + Escaped(value[..i])
    {
      hide Escaped;
      EscapedNext(out, value, i);
      ghost var before := r;
      match value[i] {
        case '\\' => r := r + "\\\\";
        case '\t' => r := r + "\\t";
        case '\n' => r := r + "\\n";
        case '\r' => r := r + "\\r";
        case other => r := r + [other];
      }
      assert r == before + EscapedChar(value[i]);
    }
    assert value[..|value|] == value;
  }

  /** What a backslash and a letter stand for; escapes by number are not part of this model. */
  function Unescaped(c: char): Option<char> {
    if c == 'b' then Some(8 as char)
    else if c == 'f' then Some(12 as char)
    else if c == 'n' then Some('\n')
    else if c == 'r' then Some('\r')
    else if c == 't' then Some('\t')
    else if c == 'v' then Some(11 as char)
    else if c == 'x' || c == '.' || ('0' <= c <= '7') then None
    else Some(c)
  }

  /** A column is null when its raw text is a backslash and a capital N. */
  type Column = Option<string>

  function ColumnOf(raw: string, text: string): Column {
    if raw == "\\N" then None else Some(text)
  }

  /** The rows of a stream of newline-terminated, tab-separated columns; none when the stream is malformed. */
  function ReadRows(s: string, columns: seq<Column>, raw: string, text: string): Option<seq<seq<Column>>>
    decreases |s|
  {
    if s == [] then (if columns == [] && raw == [] then Some([]) else None)
    else if s[0] == '\t' then ReadRows(s[1..], columns + [ColumnOf(raw, text)], [], [])
    else if s[0] == '\n' then
      match ReadRows(s[1..], [], [], [])
      case Some(rows) => Some([columns + [ColumnOf(raw, text)]] + rows)
      case None => None
    else if s[0] == '\r' then None
    else if s[0] == '\\' then
      if |s| < 2 then None
      else if raw == [] && s[1] == 'N' then ReadRows(s[2..], columns, "\\N", "N")
      else
        match Unescaped(s[1])
        case Some(c) => ReadRows(s[2..], columns, raw + s[..2], text + [c])
        case None => None
    else ReadRows(s[1..], columns, raw + [s[0]], text + [s[0]])
  }

  // ----- rows of events -----

  function KindName(k: Kind): string {
    match k
    case OrderSent => "order_sent"
    case AckReceived => "ack_received"
    case FillReceived => "fill_received"
    case Timeout => "timeout"
    case Error => "error"
  }

  /** An unsigned machine word read as a signed one. */
  function AsI64(n: nat): int {
    var m := n % TWO_64;
    if m < TWO_64 / 2 then m else m - TWO_64
  }

  function TimeOf(e: Event): nat {
    if e.recvTsNs > 0 then e.recvTsNs else e.sendTsNs
  }

  function ColumnsOf(e: Event): seq<string> {
    [Iso8601(TimeOf(e)), e.runId, e.botId, KindName(e.kind), e.clientOrderId,
     Signed(AsI64(e.seqNo)), Signed(AsI64(e.latencyNs)), Signed(AsI64(e.sendTsNs)), Signed(AsI64(e.recvTsNs))]
  }

  /** A row of the stream: the text columns escaped, the rendered ones as they are. */
  function Row(e: Event): string {
    Iso8601(TimeOf(e))
    + "\t" + Escaped(e.runId) + "\t" + Escaped(e.botId) + "\t" + Escaped(KindName(e.kind)) + "\t" + Escaped(e.clientOrderId)
    + "\t" + Signed(AsI64(e.seqNo)) + "\t" + Signed(AsI64(e.latencyNs))
    + "\t" + Signed(AsI64(e.sendTsNs)) + "\t" + Signed(AsI64(e.recvTsNs)) + "\n"
  }

  function Rows(events: seq<Event>): string {
    if events == [] then [] else Row(events[0]) + Rows(events[1..])
  }

  /** Columns joined by tabs and closed by a newline, every one of them escaped. */
  function Joined(columns: seq<string>): string
    requires columns != []
  {
    if |columns| == 1 then Escaped(columns[0]) + "\n"
    else Escaped(columns[0]) + "\t" + Joined(columns[1..])
  }

  // ----- reading back one column -----

  lemma {:induction false} EscapedConcat(a: string, b: string)
    ensures Escaped(a + b) == Escaped(a) + Escaped(b)
  {
    hide EscapedChar;
    if b == [] {
      assert a + b == a;
    } else {
      assert (a + b)[..|a + b| - 1] == a + b[..|b| - 1];
      EscapedConcat(a, b[..|b| - 1]);
    }
  }

  lemma EscapedHead(v: string)
    requires v != []
    ensures Escaped(v) == EscapedChar(v[0]) + Escaped(v[1..])
  {
    assert v == [v[0]] + v[1..];
    EscapedConcat([v[0]], v[1..]);
    assert [v[0]][..0] == [];
    assert Escaped([v[0]]) == EscapedChar(v[0]);
  }

  lemma PlainCharReadsBack(c: char, rest: string, columns: seq<Column>, raw: string, text: string)
    requires EscapedChar(c) == [c]
    ensures ReadRows([c] + rest, columns, raw, text) == ReadRows(rest, columns, raw + [c], text + [c])
  {
    var s := [c] + rest;
    assert s[0] == c && s[1..] == rest;
  }

  lemma EscapeReadsBack(c: char, x: char, rest: string, columns: seq<Column>, raw: string, text: string)
    requires EscapedChar(c) == ['\\', x]
    ensures ReadRows(['\\', x] + rest, columns, raw, text) == ReadRows(rest, columns, raw + ['\\', x], text + [c])
  {
    var s := ['\\', x] + rest;
    assert EscapedChar(c)[1] == x;
    assert s[0] == '\\' && s[1] == x && s[2..] == rest && s[..2] == ['\\', x];
    assert Unescaped(x) == Some(c);
  }

  lemma CharReadsBack(c: char, rest: string, columns: seq<Column>, raw: string, text: string)
    ensures ReadRows(EscapedChar(c) + rest, columns, raw, text) == ReadRows(rest, columns, raw + EscapedChar(c), text + [c])
  {
    var s := EscapedChar(c);
    if |s| == 1 {
      PlainCharReadsBack(c, rest, columns, raw, text);
    } else {
      assert s == ['\\', s[1]];
      EscapeReadsBack(c, s[1], rest, columns, raw, text);
    }
  }

  lemma {:induction false} TextReadsBack(v: string, rest: string, columns: seq<Column>, raw: string, text: string)
    ensures ReadRows(Escaped(v) + rest, columns, raw, text) == ReadRows(rest, columns, raw + Escaped(v), text + v)
  {
    hide ReadRows, EscapedChar;
    if v == [] {
      assert Escaped(v) + rest == rest && raw + Escaped(v) == raw && text + v == text;
    } else {
      EscapedHead(v);
      hide Escaped;
      var c, w := v[0], v[1..];
      assert Escaped(v) + rest == EscapedChar(c) + (Escaped(w) + rest);
      CharReadsBack(c, Escaped(w) + rest, columns, raw, text);
      TextReadsBack(w, rest, columns, raw + EscapedChar(c), text + [c]);
      assert raw + EscapedChar(c) + Escaped(w) == raw + Escaped(v);
      assert text + [c] + w == text + v;
    }
  }

  lemma NeverNullHead(c: char, rest: string)
    ensures EscapedChar(c) + rest != "\\N"
  {
    var head := EscapedChar(c);
    assert (head + rest)[0] == head[0];
    if |head| == 2 { assert (head + rest)[1] == head[1] != 'N'; }
  }

  /** No escaped text looks like the null marker. */
  lemma NeverNull(v: string)
    ensures Escaped(v) != "\\N"
  {
    if v != [] {
      EscapedHead(v);
      NeverNullHead(v[0], Escaped(v[1..]));
    }
  }

  function Texts(columns: seq<string>): (r: seq<Column>)
    ensures |r| == |columns|
    ensures forall i :: 0 <= i < |r| ==> r[i] == Some(columns[i])
  {
    if columns == [] then [] else [Some(columns[0])] + Texts(columns[1..])
  }

  lemma ColumnReadsBack(v: string, c: char, rest: string, before: seq<Column>)
    ensures ReadRows(Escaped(v) + [c] + rest, before, [], []) == ReadRows([c] + rest, before, Escaped(v), v)
    ensures ColumnOf(Escaped(v), v) == Some(v)
  {
    hide ReadRows, Escaped;
    assert Escaped(v) + [c] + rest == Escaped(v) + ([c] + rest);
    TextReadsBack(v, [c] + rest, before, [], []);
    assert [] + Escaped(v) == Escaped(v) && [] + v == v;
    NeverNull(v);
  }

  lemma SeparatorReads(rest: string, before: seq<Column>, raw: string, v: string)
    requires ColumnOf(raw, v) == Some(v)
    ensures ReadRows("\t" + rest, before, raw, v) == ReadRows(rest, before + [Some(v)], [], [])
    ensures ReadRows("\n" + rest, before, raw, v)
         == match ReadRows(rest, [], [], [])
            case Some(rows) => Some([before + [Some(v)]] + rows)
            case None => None
  {
    assert ("\t" + rest)[1..] == rest && ("\n" + rest)[1..] == rest;
  }

  lemma {:induction false} RowReadsBack(columns: seq<string>, rest: string, before: seq<Column>)
    requires columns != []
    ensures ReadRows(Joined(columns) + rest, before, [], [])
         == match ReadRows(rest, [], [], [])
            case Some(rows) => Some([before + Texts(columns)] + rows)
            case None => None
  {
    hide ReadRows, Escaped;
    var v := columns[0];
    if |columns| == 1 {
      assert Joined(columns) + rest == Escaped(v) + ['\n'] + rest;
      ColumnReadsBack(v, '\n', rest, before);
      SeparatorReads(rest, before, Escaped(v), v);
      assert Texts(columns) == [Some(v)];
    } else {
      var tail := Joined(columns[1..]) + rest;
      assert Joined(columns) + rest == Escaped(v) + ['\t'] + tail;
      ColumnReadsBack(v, '\t', tail, before);
      SeparatorReads(tail, before, Escaped(v), v);
      RowReadsBack(columns[1..], rest, before + [Some(v)]);
      assert before + [Some(v)] + Texts(columns[1..]) == before + Texts(columns);
    }
  }

  // ----- the rendered columns need no escapes -----

  predicate Plain(s: string) {
    forall i :: 0 <= i < |s| ==> s[i] != '\\' && s[i] != '\t' && s[i] != '\n' && s[i] != '\r'
  }

  lemma {:induction false} PlainIsEscaped(s: string)
    requires Plain(s)
    ensures Escaped(s) == s
  {
    if s != [] {
      PlainIsEscaped(s[..|s| - 1]);
      assert s == s[..|s| - 1] + [s[|s| - 1]];
    }
  }

  lemma SignedIsPlain(x: int)
    ensures Plain(Signed(x))
  {
  }

  lemma IsoIsPlain(tsNs: nat)
    ensures Plain(Iso8601(tsNs))
  {
    hide Padded, Calendar.CivilFromDays;
  }

  lemma JoinStep(out: string, columns: seq<string>, i: nat)
    requires i + 1 < |columns|
    ensures out + Joined(columns[i..]) == out + Escaped(columns[i]) + "\t" + Joined(columns[i + 1..])
  {
    hide Escaped;
    assert columns[i..][1..] == columns[i + 1..];
  }

  lemma JoinLast(out: string, columns: seq<string>)
    requires columns != []
    ensures out + Joined(columns[|columns| - 1..]) == out + Escaped(columns[|columns| - 1]) + "\n"
  {
    hide Escaped;
  }

  lemma RenderedAsTheyAre(e: Event)
    ensures forall i :: i == 0 || 5 <= i <= 8 ==> Escaped(ColumnsOf(e)[i]) == ColumnsOf(e)[i]
  {
    hide Iso8601, Signed, AsI64, KindName, Plain, Escaped;
    IsoIsPlain(TimeOf(e));
    PlainIsEscaped(Iso8601(TimeOf(e)));
    SignedIsPlain(AsI64(e.seqNo));
    PlainIsEscaped(Signed(AsI64(e.seqNo)));
    SignedIsPlain(AsI64(e.latencyNs));
    PlainIsEscaped(Signed(AsI64(e.latencyNs)));
    SignedIsPlain(AsI64(e.sendTsNs));
    PlainIsEscaped(Signed(AsI64(e.sendTsNs)));
    SignedIsPlain(AsI64(e.recvTsNs));
    PlainIsEscaped(Signed(AsI64(e.recvTsNs)));
  }

  lemma RowIsJoined(e: Event)
    ensures Row(e) == Joined(ColumnsOf(e))
  {
    hide Iso8601, Signed, Escaped, AsI64, KindName, Joined;
    var c := ColumnsOf(e);
    RenderedAsTheyAre(e);
    var r1 := Escaped(c[0]) + "\t";
    var r2 := r1 + Escaped(c[1]) + "\t";
    var r3 := r2 + Escaped(c[2]) + "\t";
    var r4 := r3 + Escaped(c[3]) + "\t";
    var r5 := r4 + Escaped(c[4]) + "\t";
    var r6 := r5 + Escaped(c[5]) + "\t";
    var r7 := r6 + Escaped(c[6]) + "\t";
    var r8 := r7 + Escaped(c[7]) + "\t";
    JoinStep("", c, 0);
    JoinStep(r1, c, 1);
    JoinStep(r2, c, 2);
    JoinStep(r3, c, 3);
    JoinStep(r4, c, 4);
    JoinStep(r5, c, 5);
    JoinStep(r6, c, 6);
    JoinStep(r7, c, 7);
    JoinLast(r8, c);
    assert c[0..] == c;
    assert "" + Joined(c) == Joined(c);
    assert "" + Escaped(c[0]) == Escaped(c[0]);
  }

  function Decoded(events: seq<Event>): (r: seq<seq<Column>>) {
    if events == [] then [] else [Texts(ColumnsOf(events[0]))] + Decoded(events[1..])
  }

  /** A streamed batch reads back as one row of nine columns for each event, whatever the ids contain. */
  lemma {:induction false} BatchReadsBack(events: seq<Event>)
    ensures ReadRows(Rows(events), [], [], []) == Some(Decoded(events))
  {
    if events != [] {
      RowIsJoined(events[0]);
      hide Row, ColumnsOf, Joined;
      BatchReadsBack(events[1..]);
      RowReadsBack(ColumnsOf(events[0]), Rows(events[1..]), []);
      assert [] + Texts(ColumnsOf(events[0])) == Texts(ColumnsOf(events[0]));
    }
  }

  // ----- reading the columns -----

  lemma YearHasFourDigits(tsNs: nat)
    requires tsNs < TWO_64
    ensures Calendar.CivilFromDays(tsNs / 1_000_000_000 / 86400).year < 10000
  {
    var days := tsNs / 1_000_000_000 / 86400;
    assert days <= 213503;
    var d := Calendar.CivilFromDays(days);
    Calendar.CivilIsThatDay(days);
    Calendar.YearHolds(d);
    if d.year >= 10000 {
      Calendar.YearsInClosedForm(10000);
      if d.year > 10000 {
        Calendar.YearsAscend(10000, d.year);
      }
    }
  }

  lemma Pow10Values()
    ensures Pow10(2) == 100 && Pow10(4) == 10000 && Pow10(6) == 1000000
  {
    assert Pow10(3) == 1000;
    assert Pow10(5) == 100000;
  }

  /** A literal put together from parts of the right widths has those parts. */
  lemma PartsReadBack(y: string, mo: string, d: string, h: string, mi: string, se: string, us: string)
    requires |y| == 4 && |mo| == 2 && |d| == 2 && |h| == 2 && |mi| == 2 && |se| == 2 && |us| == 6
    ensures (var s := y + "-" + mo + "-" + d + " " + h + ":" + mi + ":" + se + "." + us + "+00";
             && |s| == 29
             && s[4] == '-' && s[7] == '-' && s[10] == ' ' && s[13] == ':' && s[16] == ':' && s[19] == '.' && s[26..] == "+00"
             && s[..4] == y && s[5..7] == mo && s[8..10] == d && s[11..13] == h && s[14..16] == mi && s[17..19] == se
             && s[20..26] == us)
  {
    var p1 := y + "-";
    var p2 := p1 + mo + "-";
    var p3 := p2 + d + " ";
    var p4 := p3 + h + ":";
    var p5 := p4 + mi + ":";
    var p6 := p5 + se + ".";
    var s := p6 + us + "+00";
    assert s == y + "-" + mo + "-" + d + " " + h + ":" + mi + ":" + se + "." + us + "+00";
    PartOf(p6, us, "+00");
    PartOf(p5, se, ".");
    PartOf(p4, mi, ":");
    PartOf(p3, h, ":");
    PartOf(p2, d, " ");
    PartOf(p1, mo, "-");
    PartOf("", y, "-");
    assert "" + y == y;
    assert s[..20] == p6 && s[..17] == p5 && s[..14] == p4 && s[..11] == p3 && s[..8] == p2 && s[..5] == p1;
    assert s[17..19] == p6[17..19] && s[14..16] == p5[14..16] && s[11..13] == p4[11..13];
    assert s[8..10] == p3[8..10] && s[5..7] == p2[5..7] && s[..4] == p1[..4];
  }

  lemma PartOf(before: string, part: string, after: string)
    ensures (var s := before + part + after;
             s[..|before|] == before && s[|before|..|before| + |part|] == part && s[|before| + |part|..] == after)
  {
  }

  lemma TwoDigits(n: nat)
    requires n < 100
    ensures |Padded(n, 2)| == 2 && Value(Padded(n, 2)) == n
  {
    Pow10Values();
    PaddedLength(n, 2);
    PaddedValue(n, 2);
  }

  lemma DateBelowHundred(d: Calendar.Date)
    requires Calendar.Valid(d)
    ensures 1 <= d.month < 100 && 1 <= d.day < 100
  {
  }

  lemma TimeOfDay(ofDay: nat)
    requires ofDay < 86400
    ensures ofDay / 3600 < 24 && ofDay % 3600 / 60 < 60 && ofDay % 60 < 60
    ensures (ofDay / 3600 * 60 + ofDay % 3600 / 60) * 60 + ofDay % 60 == ofDay
  {
    assert ofDay % 3600 % 60 == ofDay % 60;
  }

  lemma MicrosAddUp(tsNs: nat, date: Calendar.Date)
    requires Calendar.DayNumber(date) == tsNs / 1_000_000_000 / 86400
    ensures (var ofDay := tsNs / 1_000_000_000 % 86400;
             Micros(date, ofDay / 3600, ofDay % 3600 / 60, ofDay % 60, tsNs % 1_000_000_000 / 1000) == tsNs / 1000)
  {
    hide Calendar.DayNumber;
    var secs := tsNs / 1_000_000_000;
    var ofDay := secs % 86400;
    TimeOfDay(ofDay);
    var h, mi, se := ofDay / 3600, ofDay % 3600 / 60, ofDay % 60;
    assert secs == 86400 * (secs / 86400) + ofDay;
    assert ((Calendar.DayNumber(date) * 24 + h) * 60 + mi) * 60 + se == secs;
    assert tsNs / 1000 == secs * 1_000_000 + tsNs % 1_000_000_000 / 1000;
  }

  /** The time column reads back as the stamp truncated to microseconds, for every 64-bit stamp. */
  lemma TimeReadsBack(tsNs: nat)
    requires tsNs < TWO_64
    ensures ReadTime(Iso8601(tsNs)) == Some(tsNs / 1000)
  {
    var days := tsNs / 1_000_000_000 / 86400;
    var ofDay := tsNs / 1_000_000_000 % 86400;
    var micros := tsNs % 1_000_000_000 / 1000;
    var date := Calendar.CivilFromDays(days);
    Calendar.CivilIsThatDay(days);
    hide Calendar.CivilFromDays, Calendar.DayNumber, Micros, Padded, Value;
    DateBelowHundred(date);
    hide Calendar.Valid;
    YearIsNatural(days);
    YearHasFourDigits(tsNs);
    Pow10Values();
    PaddedLength(date.year, 4);
    PaddedValue(date.year, 4);
    TwoDigits(date.month);
    TwoDigits(date.day);
    TimeOfDay(ofDay);
    TwoDigits(ofDay / 3600);
    TwoDigits(ofDay % 3600 / 60);
    TwoDigits(ofDay % 60);
    PaddedLength(micros, 6);
    PaddedValue(micros, 6);
    MicrosAddUp(tsNs, date);
    PartsReadBack(Padded(date.year, 4), Padded(date.month, 2), Padded(date.day, 2), Padded(ofDay / 3600, 2),
                  Padded(ofDay % 3600 / 60, 2), Padded(ofDay % 60, 2), Padded(micros, 6));
  }

  function KindOf(name: string): Option<Kind> {
    if name == "order_sent" then Some(OrderSent)
    else if name == "ack_received" then Some(AckReceived)
    else if name == "fill_received" then Some(FillReceived)
    else if name == "timeout" then Some(Timeout)
    else if name == "error" then Some(Error)
    else None
  }

  /** A stored row: the moment in microseconds, and the numbers as signed 64-bit columns. */
  datatype Stored = Stored(
    micros: int,
    runId: string,
    botId: string,
    kind: Kind,
    clientOrderId: string,
    seqNo: int,
    latencyNs: int,
    sendTsNs: int,
    recvTsNs: int)

  function ReadEvent(row: seq<Column>): Option<Stored> {
    if |row| != 9 || (exists i :: 0 <= i < 9 && row[i].None?) then None
    else
      var time, kind := ReadTime(row[0].value), KindOf(row[3].value);
      var seqNo, latency := ReadSigned(row[5].value), ReadSigned(row[6].value);
      var send, recv := ReadSigned(row[7].value), ReadSigned(row[8].value);
      if time.None? || kind.None? || seqNo.None? || latency.None? || send.None? || recv.None? then None
      else
        Some(Stored(time.value, row[1].value, row[2].value, kind.value, row[4].value,
                    seqNo.value, latency.value, send.value, recv.value))
  }

  lemma KindReadsBack(k: Kind)
    ensures KindOf(KindName(k)) == Some(k)
  {
    var n := KindName(k);
    assert k.OrderSent? ==> n[0] == 'o';
    assert k.AckReceived? ==> n[0] == 'a';
    assert k.FillReceived? ==> n[0] == 'f';
    assert k.Timeout? ==> n[0] == 't';
    assert k.Error? ==> n[0] == 'e';
  }

  /** Nothing but the sign convention separates a stored number from the sent one. */
  lemma AsI64IsCongruent(n: nat)
    ensures AsI64(n) % TWO_64 == n % TWO_64
    ensures -(TWO_64 / 2) <= AsI64(n) < TWO_64 / 2
  {
    var m := n % TWO_64;
    if m >= TWO_64 / 2 {
      assert (m - TWO_64) % TWO_64 == m;
    }
  }

  /** The signed 64-bit number with the same bits. */
  predicate SameBits(x: int, n: nat) {
    -0x8000_0000_0000_0000 <= x < 0x8000_0000_0000_0000 && x % 0x1_0000_0000_0000_0000 == n % 0x1_0000_0000_0000_0000
  }

  predicate FitsU64(e: Event) {
    e.sendTsNs < TWO_64 && e.recvTsNs < TWO_64
  }

  /**
   A row tells everything about its event: when it was received, or sent if no receipt
   was stamped, to the microsecond; its texts exactly; its numbers bit for bit.
   */
  predicate Recovers(row: seq<Column>, e: Event) {
    && |row| == 9
    && (e.kind == OrderSent ==> row[3] == Some("order_sent"))
    && (e.kind == AckReceived ==> row[3] == Some("ack_received"))
    && (e.kind == FillReceived ==> row[3] == Some("fill_received"))
    && (e.kind == Timeout ==> row[3] == Some("timeout"))
    && (e.kind == Error ==> row[3] == Some("error"))
    && match ReadEvent(row)
       case None => false
       case Some(r) =>
         && (e.recvTsNs > 0 ==> r.micros == e.recvTsNs / 1000)
         && (e.recvTsNs == 0 ==> r.micros == e.sendTsNs / 1000)
         && r.runId == e.runId && r.botId == e.botId && r.clientOrderId == e.clientOrderId && r.kind == e.kind
         && SameBits(r.seqNo, e.seqNo) && SameBits(r.latencyNs, e.latencyNs)
         && SameBits(r.sendTsNs, e.sendTsNs) && SameBits(r.recvTsNs, e.recvTsNs)
  }

  /** Every column of the row of an event is recovered. */
  lemma EventReadsBack(e: Event)
    requires FitsU64(e)
    ensures Recovers(Texts(ColumnsOf(e)), e)
  {
    hide Iso8601, ReadTime, Signed, ReadSigned, AsI64, KindOf;
    TimeReadsBack(TimeOf(e));
    KindReadsBack(e.kind);
    SignedReadsBack(AsI64(e.seqNo));
    SignedReadsBack(AsI64(e.latencyNs));
    SignedReadsBack(AsI64(e.sendTsNs));
    SignedReadsBack(AsI64(e.recvTsNs));
    AsI64IsCongruent(e.seqNo);
    AsI64IsCongruent(e.latencyNs);
    AsI64IsCongruent(e.sendTsNs);
    AsI64IsCongruent(e.recvTsNs);
  }

  /** One row for each event, in order, and each tells everything about its event. */
  ghost predicate AllRecovered(rows: Option<seq<seq<Column>>>, events: seq<Event>) {
    && rows.Some? && |rows.value| == |events|
    && forall i :: 0 <= i < |events| && FitsU64(events[i]) ==> Recovers(rows.value[i], events[i])
  }

  lemma {:induction false} DecodedRecovers(events: seq<Event>)
    ensures AllRecovered(Some(Decoded(events)), events)
  {
    hide ColumnsOf, Recovers, Texts;
    if events != [] {
      DecodedRecovers(events[1..]);
      if FitsU64(events[0]) { EventReadsBack(events[0]); }
    }
  }

  // ----- the buffer in front of the database -----

  function PushedWithCap(buf: seq<Event>, e: Event, cap: nat): seq<Event> {
    (if |buf| >= cap && buf != [] then buf[1..] else buf) + [e]
  }

  lemma NoRows()
    ensures Rows([]) == ""
  {
  }

  lemma RowsFrom(sent: string, events: seq<Event>, i: nat)
    requires i < |events|
    ensures sent + Rows(events[i..]) == sent + Row(events[i]) + Rows(events[i + 1..])
  {
    hide Row;
    assert events[i..][0] == events[i] && events[i..][1..] == events[i + 1..];
  }

  class EventBuffer {
    var buf: seq<Event>

    constructor ()
      ensures buf == []
    {
      buf := [];
    }

    method PushWithCap(e: Event, cap: nat) returns (dropped: bool)
      modifies this
      ensures buf == PushedWithCap(old(buf), e, cap)
      ensures dropped <==> |old(buf)| >= cap
    {
      dropped := |buf| >= cap;
      if dropped && buf != [] {
        buf := buf[1..];
      }
      buf := buf + [e];
    }

    /** A batch is cleared once the database took it and retained otherwise. */
    method Flush(committed: bool) returns (sent: string)
      modifies this
      ensures AllRecovered(ReadRows(sent, [], [], []), old(buf))
      ensures buf == if committed then [] else old(buf)
    {
      hide ReadRows, Row, Rows, Decoded, AllRecovered;
      sent := "";
      assert buf[0..] == buf && sent + Rows(buf) == Rows(buf);
      for i := 0 to |buf|
        invariant buf == old(buf)
        invariant sent + Rows(buf[i..]) == Rows(buf)
      {
        RowsFrom(sent, buf, i);
        sent := sent + Row(buf[i]);
      }
      NoRows();
      assert buf[|buf|..] == [] && sent + "" == sent;
      BatchReadsBack(buf);
      DecodedRecovers(buf);
      if committed {
        buf := [];
      }
    }
  }

  function PushedAll(buf: seq<Event>, events: seq<Event>, cap: nat): seq<Event> {
    if events == [] then buf
    else PushedWithCap(PushedAll(buf, events[..|events| - 1], cap), events[|events| - 1], cap)
  }

  /** The newest events of all, as many as fit. */
  function Newest(all: seq<Event>, cap: nat): seq<Event> {
    if |all| <= cap then all else all[|all| - cap..]
  }

  lemma PushKeepsNewest(all: seq<Event>, e: Event, cap: nat)
    requires cap >= 1
    ensures PushedWithCap(Newest(all, cap), e, cap) == Newest(all + [e], cap)
  {
    if |all| < cap {
    } else if |all| == cap {
      assert (all + [e])[1..] == all[1..] + [e];
    } else {
      var d := |all| - cap;
      assert all[d..][1..] == all[d + 1..];
      assert (all + [e])[d + 1..] == all[d + 1..] + [e];
    }
  }

  /** While the database is down the buffer holds the newest events in order, and only the oldest are dropped. */
  lemma {:induction false} NewestAreKept(buf: seq<Event>, events: seq<Event>, cap: nat)
    requires |buf| <= cap && cap >= 1
    ensures var all := buf + events;
      PushedAll(buf, events, cap) == if |all| <= cap then all else all[|all| - cap..]
  {
    if events == [] {
      assert buf + events == buf;
    } else {
      hide PushedWithCap;
      var p, e := events[..|events| - 1], events[|events| - 1];
      NewestAreKept(buf, p, cap);
      assert buf + events == buf + p + [e];
      PushKeepsNewest(buf + p, e, cap);
    }
  }
}
