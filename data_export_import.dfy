/**
 * The CSV backup format: export writes one section per non-empty record list (a marker row, a
 * header row, one row per record) and reports progress per record; import walks the rows, tracks
 * the current section, skips the feeding header and decodes every other row of a known section.
 *
 * A CSV file is a sequence of rows of cells (`Row`); opencsv's quoting is not modelled. The
 * timestamp cell is the `yyyy-MM-dd HH:mm:ss` text of a whole number of epoch seconds, abstracted
 * as a `TimeText` pair whose laws are `Lawful`. Progress callbacks are reported as their integer
 * numerators; the denominator is the record total for export and the line count for import.
 */
module DataExportImport {
  import opened Wrappers
  import opened Numbers
  import opened Entities
  import opened ErrorHandler

  type Row = seq<string>

  const FEEDING_MARKER: string := "=== 喂奶记录 ==="
  const SLEEP_MARKER: string := "=== 睡眠记录 ==="
  const FEEDING_HEADERS: Row := ["时间", "类型", "奶量(ml)", "时长(分钟)", "备注"]
  const SLEEP_HEADERS: Row := ["开始时间", "结束时间", "时长(分钟)", "质量", "备注"]
  const BOTTLE: string := "瓶喂"
  const BREAST: string := "亲喂"

  /** The exceptions the codec can raise: a missing cell, an unparseable time, an unopenable file. */
  const IndexOutOfBounds: Throwable := Throwable(OtherException, Some("Index out of bounds"))
  const UnparseableTime: Throwable := Throwable(OtherException, Some("Text could not be parsed"))
  const FileNotFound: Throwable := Throwable(OtherException, Some("File not found"))

  predicate StartsWith(s: string, prefix: string) {
    |prefix| <= |s| && s[..|prefix|] == prefix
  }

  /** `LocalDateTime.ofEpochSecond(_, 0, UTC).format(...)` and `LocalDateTime.parse(_, ...)` in epoch seconds. */
  datatype TimeText = TimeText(format: int -> string, parse: string -> Option<int>)

  /** The epoch seconds of 0001-01-01T00:00:00 and of 9999-12-31T23:59:59, UTC. */
  const FIRST_FOUR_DIGIT_SECOND: int := -62135596800
  const LAST_FOUR_DIGIT_SECOND: int := 253402300799

  /**
   * A time whose year `yyyy` prints as four digits: later years get a leading '+', and years up to
   * 0 print their year of era without the era, so neither reads back as the same time.
   */
  predicate FourDigitYear(sec: int) {
    FIRST_FOUR_DIGIT_SECOND <= sec <= LAST_FOUR_DIGIT_SECOND
  }

  /** Within four-digit years, parsing inverts formatting and a formatted time starts with a digit of its year. */
  ghost predicate Lawful(tt: TimeText) {
    forall sec :: FourDigitYear(sec) ==>
      tt.parse(tt.format(sec)) == Some(sec) && tt.format(sec) != [] && IsDigit(tt.format(sec)[0])
  }

  // ---------------------------------------------------------------------------------------------
  // The feeding row codec

  /** `FeedingRecord.toCSVRow()`: time, type label, amount, duration in whole minutes, note. */
  function ToCsvRow(r: FeedingRecord, tt: TimeText): (row: Row)
    ensures |row| == 5
    ensures row[0] == tt.format(Quot(r.startTime, 1000))
    ensures row[1] == BOTTLE <==> r.feedingType == 1
    ensures row[1] == BOTTLE || row[1] == BREAST
    ensures row[2] == "" <==> r.amount.None?
    ensures row[3] == "" <==> r.endTime.None?
    ensures row[4] == "" <==> r.note.None? || r.note == Some("")
  {
    [ tt.format(Quot(r.startTime, 1000)),
      if r.feedingType == 1 then BOTTLE else BREAST,
      if r.amount.Some? then IntToString(r.amount.value) else "",
      MinutesCell(r),
      if r.note.Some? then r.note.value else "" ]
  }

  /** The duration column: whole minutes from start to end, empty for a feeding still open. */
  function MinutesCell(r: FeedingRecord): string {
    if r.endTime.Some? then IntToString(Quot(r.endTime.value - r.startTime, 60000)) else ""
  }

  /** The end a decoded row gets: `startTime.plusMinutes(duration)`, or `null` without a duration. */
  function EndFrom(sec: int, duration: Option<int>): (e: Option<int>)
    ensures e.None? <==> duration.None?
  {
    if duration.Some? then Some((sec + duration.value * 60) * 1000) else None
  }

  /**
   * `Array<String>.toFeedingRecord()`: a missing cell or an unparseable time throws; an
   * unparseable amount or duration becomes `null`, an empty note `null`. The key is left for the
   * table to assign, the owner is always baby 1, and `createdAt` is the clock reading `now`.
   */
  function ToFeedingRecord(row: Row, tt: TimeText, now: int): (r: Result<FeedingRecord, Throwable>)
    ensures r.Failure? <==> |row| == 0 || tt.parse(row[0]).None? || |row| < 5
    ensures r.Success? ==> && r.value.id == 0 && r.value.babyId == 1 && r.value.side.None?
                           && r.value.createdAt == now
                           && r.value.startTime == tt.parse(row[0]).value * 1000
                           && (r.value.feedingType == 1 <==> row[1] == BOTTLE)
                           && (r.value.feedingType == 0 <==> row[1] != BOTTLE)
                           && r.value.amount == ParseInt(row[2])
                           && (r.value.endTime.None? <==> ParseInt(row[3]).None?)
                           && (r.value.note.None? <==> row[4] == "")
  {
    if |row| == 0 then Failure(IndexOutOfBounds)
    else match tt.parse(row[0])
      case None => Failure(UnparseableTime)
      case Some(sec) =>
        if |row| < 5 then Failure(IndexOutOfBounds)
        else
          Success(FeedingRecord(
            id := 0,
            babyId := 1,
            startTime := sec * 1000,
            endTime := EndFrom(sec, ParseInt(row[3])),
            feedingType := if row[1] == BOTTLE then 1 else 0,
            amount := ParseInt(row[2]),
            side := None,
            note := if row[4] == "" then None else Some(row[4]),
            createdAt := now))
  }

  /** What an exported record comes back as: every field the file carries, and the defaults for the rest. */
  function Imported(r: FeedingRecord, now: int): FeedingRecord {
    r.(id := 0, babyId := 1, side := None, createdAt := now)
  }

  /**
   * The records the file represents exactly: whole seconds in a four-digit year, a known type, no empty note, an `Int`
   * amount, and a duration of whole minutes that fits an `Int`.
   */
  predicate Exportable(r: FeedingRecord) {
    && r.startTime % 1000 == 0
    && FourDigitYear(Quot(r.startTime, 1000))
    && (r.feedingType == 0 || r.feedingType == 1)
    && r.note != Some("")
    && (r.amount.Some? ==> IsInt(r.amount.value))
    && (r.endTime.Some? ==> (r.endTime.value - r.startTime) % 60000 == 0
                            && IsInt(Quot(r.endTime.value - r.startTime, 60000)))
  }

  /** The amount cell reads back as the amount it was written from. */
  lemma AmountCellRoundTrip(a: Option<int>)
    requires a.Some? ==> IsInt(a.value)
    ensures ParseInt(if a.Some? then IntToString(a.value) else "") == a
  {
    if a.Some? {
      IntRoundTrip(a.value);
    }
  }

  /** The duration cell, added to the decoded start, gives back the end it was written from. */
  lemma EndCellRoundTrip(r: FeedingRecord, sec: int)
    requires sec * 1000 == r.startTime
    requires r.endTime.Some? ==> (r.endTime.value - r.startTime) % 60000 == 0
                                 && IsInt(Quot(r.endTime.value - r.startTime, 60000))
    ensures EndFrom(sec, ParseInt(MinutesCell(r))) == r.endTime
  {
    if r.endTime.Some? {
      var minutes := Quot(r.endTime.value - r.startTime, 60000);
      QuotExact(r.endTime.value - r.startTime, 60000);
      MinutesAfter(sec, minutes, r.startTime, r.endTime.value);
      assert MinutesCell(r) == IntToString(minutes);
    }
  }

  /** A whole number of minutes written out and read back, added to a start in whole seconds, in milliseconds. */
  lemma MinutesAfter(sec: int, minutes: int, start: int, end: int)
    requires IsInt(minutes)
    requires sec * 1000 == start && minutes * 60000 == end - start
    ensures EndFrom(sec, ParseInt(IntToString(minutes))) == Some(end)
  {
    IntRoundTrip(minutes);
    assert (sec + minutes * 60) * 1000 == sec * 1000 + (minutes * 60) * 1000;
    assert (minutes * 60) * 1000 == minutes * 60000;
  }

  /** Decoding an encoded record gives it back, up to the fields the file does not carry. */
  lemma FeedingRowRoundTrip(r: FeedingRecord, tt: TimeText, now: int)
    requires Lawful(tt) && Exportable(r)
    ensures ToFeedingRecord(ToCsvRow(r, tt), tt, now) == Success(Imported(r, now))
  {
    var row := ToCsvRow(r, tt);
    var sec := Quot(r.startTime, 1000);
    assert tt.parse(row[0]) == Some(sec);
    QuotExact(r.startTime, 1000);
    AmountCellRoundTrip(r.amount);
    assert ParseInt(row[2]) == r.amount;
    EndCellRoundTrip(r, sec);
    assert (if row[1] == BOTTLE then 1 else 0) == r.feedingType;
    assert (if row[4] == "" then None else Some(row[4])) == r.note;
  }

  /** A duration that is not whole minutes does not survive: the decoded end is rounded toward the start. */
  lemma PartialMinuteIsLost(r: FeedingRecord, tt: TimeText, now: int)
    requires Lawful(tt) && r.startTime % 1000 == 0 && FourDigitYear(Quot(r.startTime, 1000)) && r.endTime.Some?
    requires r.endTime.value - r.startTime == 90000
    ensures ToFeedingRecord(ToCsvRow(r, tt), tt, now).Success?
    ensures ToFeedingRecord(ToCsvRow(r, tt), tt, now).value.endTime == Some(r.startTime + 60000)
  {
    var sec := Quot(r.startTime, 1000);
    assert tt.parse(tt.format(sec)) == Some(sec);
    QuotExact(r.startTime, 1000);
    assert Quot(90000, 60000) == 1;
    IntRoundTrip(1);
  }

  // ---------------------------------------------------------------------------------------------
  // Export

  /** `ExportData`: the lists selected for export. */
  datatype ExportData = ExportData(
    feedingRecords: seq<FeedingRecord>,
    sleepRecords: seq<SleepRecord>,
    diaperRecords: seq<DiaperRecord>,
    medicineRecords: seq<MedicineRecord>,
    waterRecords: seq<WaterRecord>,
    growthRecords: seq<GrowthRecord>)

  /** `getTotalCount()`: the records of all six lists, the export progress denominator. */
  function GetTotalCount(d: ExportData): nat {
    |d.feedingRecords| + |d.sleepRecords| + |d.diaperRecords| + |d.medicineRecords| + |d.waterRecords| + |d.growthRecords|
  }

  function FeedingRows(f: seq<FeedingRecord>, tt: TimeText): (rows: seq<Row>)
    ensures |rows| == |f|
  {
    seq(|f|, i requires 0 <= i < |f| => ToCsvRow(f[i], tt))
  }

  function SleepRows(s: seq<SleepRecord>, sleepRow: SleepRecord -> Row): (rows: seq<Row>)
    ensures |rows| == |s|
  {
    seq(|s|, i requires 0 <= i < |s| => sleepRow(s[i]))
  }

  /**
   * The rows `exportToCSV` writes: the feeding section, then the sleep section, each only when its
   * list is non-empty. The other four lists are counted but not written. The sleep encoder is a
   * parameter: the app declares none.
   */
  function ExportLayout(d: ExportData, tt: TimeText, sleepRow: SleepRecord -> Row): (rows: seq<Row>)
    ensures |rows| == (if d.feedingRecords == [] then 0 else 2 + |d.feedingRecords|)
                    + (if d.sleepRecords == [] then 0 else 2 + |d.sleepRecords|)
    ensures rows == [] <==> d.feedingRecords == [] && d.sleepRecords == []
  {
    (if d.feedingRecords == [] then [] else [[FEEDING_MARKER], FEEDING_HEADERS] + FeedingRows(d.feedingRecords, tt))
    + (if d.sleepRecords == [] then [] else [[SLEEP_MARKER], SLEEP_HEADERS] + SleepRows(d.sleepRecords, sleepRow))
  }

  /** Where the sections sit: markers and headers first in each section, then one row per record, in order. */
  lemma ExportSections(d: ExportData, tt: TimeText, sleepRow: SleepRecord -> Row)
    ensures var rows := ExportLayout(d, tt, sleepRow);
            var f := d.feedingRecords;
            var off := if f == [] then 0 else 2 + |f|;
            && (f != [] ==>
                  && rows[0] == [FEEDING_MARKER] && rows[1] == FEEDING_HEADERS
                  && forall i :: 0 <= i < |f| ==> rows[2 + i] == ToCsvRow(f[i], tt))
            && (d.sleepRecords != [] ==>
                  && rows[off] == [SLEEP_MARKER] && rows[off + 1] == SLEEP_HEADERS
                  && forall i :: 0 <= i < |d.sleepRecords| ==> rows[off + 2 + i] == sleepRow(d.sleepRecords[i]))
  {
  }

  /** The progress numerators `1, 2, ..., n`. */
  function Counting(n: nat): (p: seq<int>)
    ensures |p| == n
    ensures forall k :: 0 <= k < n ==> p[k] == k + 1
  {
    seq(n, k requires 0 <= k < n => k + 1)
  }

  /**
   * The destination `openOutputStream` yields: none (`null`), an exception, or a stream. Closing
   * an open stream (the `use` blocks flush the writers and finish the file) throws `closeFault`
   * when it is present.
   */
  datatype Sink = Missing | Unopenable | Open(closeFault: Option<Throwable>)

  /** The result once the `use` blocks have closed: success, or what closing threw. */
  function Closing(closeFault: Option<Throwable>): (r: Result<(), Throwable>)
    ensures r.Success? <==> closeFault.None?
    ensures r.Failure? ==> r.error == closeFault.value
  {
    if closeFault.Some? then Failure(closeFault.value) else Success(())
  }

  /** The feeding loop of `exportToCSV`: one row per record, each followed by the next progress value. */
  method WriteFeedingRows(written: seq<Row>, progress: seq<int>, f: seq<FeedingRecord>, tt: TimeText)
    returns (out: seq<Row>, reported: seq<int>)
    requires progress == Counting(|progress|)
    ensures out == written + FeedingRows(f, tt)
    ensures reported == Counting(|progress| + |f|)
  {
    out, reported := written, progress;
    var i := 0;
    while i < |f|
      invariant 0 <= i <= |f|
      invariant out == written + FeedingRows(f[..i], tt)
      invariant reported == Counting(|progress| + i)
    {
      assert FeedingRows(f[..i + 1], tt) == FeedingRows(f[..i], tt) + [ToCsvRow(f[i], tt)];
      out := out + [ToCsvRow(f[i], tt)];
      reported := reported + [|progress| + i + 1];
      i := i + 1;
    }
    assert f[..i] == f;
  }

  /** The sleep loop of `exportToCSV`, with the sleep encoder `sleepRow`. */
  method WriteSleepRows(written: seq<Row>, progress: seq<int>, s: seq<SleepRecord>, sleepRow: SleepRecord -> Row)
    returns (out: seq<Row>, reported: seq<int>)
    requires progress == Counting(|progress|)
    ensures out == written + SleepRows(s, sleepRow)
    ensures reported == Counting(|progress| + |s|)
  {
    out, reported := written, progress;
    var j := 0;
    while j < |s|
      invariant 0 <= j <= |s|
      invariant out == written + SleepRows(s[..j], sleepRow)
      invariant reported == Counting(|progress| + j)
    {
      assert SleepRows(s[..j + 1], sleepRow) == SleepRows(s[..j], sleepRow) + [sleepRow(s[j])];
      out := out + [sleepRow(s[j])];
      reported := reported + [|progress| + j + 1];
      j := j + 1;
    }
    assert s[..j] == s;
  }

  /**
   * `exportToCSV`: writes `ExportLayout` and reports progress `k / getTotalCount()` after the
   * k-th record written. A `null` stream skips the writing and still reports success. Closing
   * the stream comes after every row, so a fault there fails the run with all rows written.
   */
  method ExportToCsv(sink: Sink, records: ExportData, tt: TimeText, sleepRow: SleepRecord -> Row)
    returns (written: seq<Row>, progress: seq<int>, result: Result<(), Throwable>)
    ensures sink.Unopenable? ==> result == Failure(FileNotFound) && written == [] && progress == []
    ensures sink.Missing? ==> result == Success(()) && written == [] && progress == []
    ensures sink.Open? ==> && result == Closing(sink.closeFault)
                           && written == ExportLayout(records, tt, sleepRow)
                           && progress == Counting(|records.feedingRecords| + |records.sleepRecords|)
  {
    written, progress := [], [];
    if sink.Unopenable? {
      return written, progress, Failure(FileNotFound);
    }
    if sink.Missing? {
      return written, progress, Success(());
    }
    var f, s := records.feedingRecords, records.sleepRecords;
    assert progress == Counting(0);
    if f != [] {
      written, progress := WriteFeedingRows(written + [[FEEDING_MARKER], FEEDING_HEADERS], progress, f, tt);
    }
    ghost var feedingPart := written;
    assert feedingPart == if f == [] then [] else [[FEEDING_MARKER], FEEDING_HEADERS] + FeedingRows(f, tt);
    assert progress == Counting(|f|);
    if s != [] {
      written, progress := WriteSleepRows(written + [[SLEEP_MARKER], SLEEP_HEADERS], progress, s, sleepRow);
      assert written == feedingPart + ([[SLEEP_MARKER], SLEEP_HEADERS] + SleepRows(s, sleepRow));
    }
    assert written == ExportLayout(records, tt, sleepRow);
    result := Closing(sink.closeFault);
  }

  /**
   * The export progress rises by one per record and never passes the total. It ends at
   * `(feeding + sleep) / getTotalCount()`, which is 1 only when the other four lists are empty.
   */
  lemma ExportProgressEnds(records: ExportData)
    ensures var p := Counting(|records.feedingRecords| + |records.sleepRecords|);
            && (forall k :: 0 <= k < |p| - 1 ==> p[k + 1] == p[k] + 1)
            && (forall k :: 0 <= k < |p| ==> 1 <= p[k] <= GetTotalCount(records))
            && (p != [] ==> (p[|p| - 1] == GetTotalCount(records) <==>
                 records.diaperRecords == [] && records.medicineRecords == [] &&
                 records.waterRecords == [] && records.growthRecords == []))
  {
  }

  // ---------------------------------------------------------------------------------------------
  // Import

  /** `ImportData`: what the import collected, one list per record kind. */
  datatype ImportData = ImportData(
    feedingRecords: seq<FeedingRecord>,
    sleepRecords: seq<SleepRecord>,
    diaperRecords: seq<DiaperRecord>,
    medicineRecords: seq<MedicineRecord>,
    waterRecords: seq<WaterRecord>,
    growthRecords: seq<GrowthRecord>)

  const EmptyImport: ImportData := ImportData([], [], [], [], [], [])

  /** The parser's state between rows: `currentSection` and the lists so far. */
  datatype Parser = Parser(section: string, data: ImportData)

  const Start: Parser := Parser("", EmptyImport)

  /**
   * The row decoders and the clock: the app declares no sleep decoder, so it is a parameter. Every
   * decoded record's `createdAt` is the one clock reading `now`, where the source reads the clock
   * again for each record it builds.
   */
  datatype Decoders = Decoders(time: TimeText, toSleep: Row -> Result<SleepRecord, Throwable>, now: int)

  /** One pass of the `while` body on one row. */
  function ImportStep(p: Parser, row: Row, dec: Decoders): (r: Result<Parser, Throwable>)
    ensures r.Success? ==> && r.value.data.diaperRecords == p.data.diaperRecords
                           && r.value.data.medicineRecords == p.data.medicineRecords
                           && r.value.data.waterRecords == p.data.waterRecords
                           && r.value.data.growthRecords == p.data.growthRecords
    ensures r.Success? ==> r.value.section == p.section || (|row| > 0 && r.value.section == row[0])
    ensures |row| == 0 ==> r.Failure?
  {
    if |row| == 0 then Failure(IndexOutOfBounds)
    else if StartsWith(row[0], "===") then Success(p.(section := row[0]))
    else if row[0] == "时间" then Success(p)
    else if p.section == FEEDING_MARKER then
      match ToFeedingRecord(row, dec.time, dec.now)
      case Success(f) => Success(p.(data := p.data.(feedingRecords := p.data.feedingRecords + [f])))
      case Failure(e) => Failure(e)
    else if p.section == SLEEP_MARKER then
      match dec.toSleep(row)
      case Success(s) => Success(p.(data := p.data.(sleepRecords := p.data.sleepRecords + [s])))
      case Failure(e) => Failure(e)
    else Success(p)
  }

  /** The parser after the given rows, or the first exception a row raised. */
  function ImportRun(rows: seq<Row>, dec: Decoders): Result<Parser, Throwable> {
    if rows == [] then Success(Start)
    else Continue(ImportRun(rows[..|rows| - 1], dec), rows[|rows| - 1], dec)
  }

  /** The next row is read only while no exception has been thrown. */
  function Continue(r: Result<Parser, Throwable>, row: Row, dec: Decoders): Result<Parser, Throwable> {
    match r
    case Failure(e) => Failure(e)
    case Success(p) => ImportStep(p, row, dec)
  }

  function DataOf(r: Result<Parser, Throwable>): Result<ImportData, Throwable> {
    match r
    case Success(p) => Success(p.data)
    case Failure(e) => Failure(e)
  }

  /** Once a row has thrown, no later row is read: the run stays failed with the same exception. */
  lemma {:induction false} FailureSticks(rows: seq<Row>, k: nat, dec: Decoders)
    requires k <= |rows| && ImportRun(rows[..k], dec).Failure?
    ensures ImportRun(rows, dec) == ImportRun(rows[..k], dec)
    decreases |rows| - k
  {
    if k < |rows| {
      assert rows[..k + 1][..k] == rows[..k];
      FailureSticks(rows, k + 1, dec);
    } else {
      assert rows[..k] == rows;
    }
  }

  /** A marker row switches the section; the lists stay as they are. */
  lemma MarkerSetsSection(p: Parser, row: Row, dec: Decoders)
    requires |row| > 0 && StartsWith(row[0], "===")
    ensures ImportStep(p, row, dec) == Success(Parser(row[0], p.data))
  {
  }

  /** Only a first cell of exactly "时间" is a header: the sleep header row is handed to the sleep decoder. */
  lemma SleepHeaderIsDecoded(p: Parser, dec: Decoders)
    requires p.section == SLEEP_MARKER
    ensures ImportStep(p, FEEDING_HEADERS, dec) == Success(p)
    ensures dec.toSleep(SLEEP_HEADERS).Failure? ==> ImportStep(p, SLEEP_HEADERS, dec) == Failure(dec.toSleep(SLEEP_HEADERS).error)
    ensures dec.toSleep(SLEEP_HEADERS).Success? ==>
              ImportStep(p, SLEEP_HEADERS, dec).Success? &&
              ImportStep(p, SLEEP_HEADERS, dec).value.data.sleepRecords == p.data.sleepRecords + [dec.toSleep(SLEEP_HEADERS).value]
  {
    assert !StartsWith(SLEEP_HEADERS[0], "===") by {
      assert SLEEP_HEADERS[0][0] == '开';
    }
    assert !StartsWith(FEEDING_HEADERS[0], "===") by {
      assert FEEDING_HEADERS[0][0] == '时';
    }
  }

  /** Outside the two known sections, data rows are dropped. */
  lemma RowOutsideSectionDropped(p: Parser, row: Row, dec: Decoders)
    requires p.section != FEEDING_MARKER && p.section != SLEEP_MARKER
    requires |row| > 0 && !StartsWith(row[0], "===")
    ensures ImportStep(p, row, dec) == Success(p)
  {
  }

  /** A file without any marker row imports as nothing, without an error. */
  lemma {:induction false} NoMarkersNoRecords(rows: seq<Row>, dec: Decoders)
    requires forall i :: 0 <= i < |rows| ==> |rows[i]| > 0 && !StartsWith(rows[i][0], "===")
    ensures ImportRun(rows, dec) == Success(Start)
  {
    if rows != [] {
      NoMarkersNoRecords(rows[..|rows| - 1], dec);
    }
  }

  /**
   * The source `openInputStream` yields: none (`null`), an exception, or a stream whose reader
   * gives `rows` and then ends, or, when `readFault` is present, throws it from `readNext`.
   */
  datatype Source = Absent | Unreadable | Readable(rows: seq<Row>, readFault: Option<Throwable>)

  /**
   * What `importFromCSV` yields for a source: no stream, an empty import; an exception, that
   * failure; else the rows' import. `countLines` reads the whole file before any row is decoded,
   * so a `readNext` that throws fails the run there, with that exception.
   */
  function ParseSource(source: Source, dec: Decoders): (r: Result<ImportData, Throwable>)
    ensures source.Absent? ==> r == Success(EmptyImport)
    ensures source.Unreadable? ==> r == Failure(FileNotFound)
    ensures source.Readable? && source.readFault.Some? ==> r == Failure(source.readFault.value)
    ensures source.Readable? && source.readFault.None? ==> (r.Success? <==> ImportRun(source.rows, dec).Success?)
    ensures source.Readable? && source.readFault.None? && r.Success? ==> r.value == ImportRun(source.rows, dec).value.data
    ensures source.Readable? && source.readFault.None? && r.Failure? ==> r.error == ImportRun(source.rows, dec).error
  {
    match source
    case Absent => Success(EmptyImport)
    case Unreadable => Failure(FileNotFound)
    case Readable(rows, readFault) => if readFault.Some? then Failure(readFault.value) else DataOf(ImportRun(rows, dec))
  }

  /** `countLines`: the number of rows, 0 when there is no stream; a throwing `readNext` ends it with that exception. */
  method CountLines(source: Source) returns (count: Result<int, Throwable>)
    ensures source.Absent? ==> count == Success(0)
    ensures source.Unreadable? ==> count == Failure(FileNotFound)
    ensures source.Readable? && source.readFault.None? ==> count == Success(|source.rows|)
    ensures source.Readable? && source.readFault.Some? ==> count == Failure(source.readFault.value)
  {
    match source
    case Absent => count := Success(0);
    case Unreadable => count := Failure(FileNotFound);
    case Readable(rows, readFault) =>
      var n := 0;
      while n < |rows|
        invariant 0 <= n <= |rows|
      {
        n := n + 1;
      }
      if readFault.Some? {
        return Failure(readFault.value);
      }
      count := Success(n);
  }

  /**
   * `importFromCSV`: the result is `ImportRun` over the file's rows; progress `k / totalLines` is
   * reported after each row read without an exception. A missing stream gives an empty import,
   * and a file whose reader throws fails while its lines are counted, before any progress.
   */
  method ImportFromCsv(source: Source, dec: Decoders)
    returns (result: Result<ImportData, Throwable>, progress: seq<int>, totalLines: int)
    ensures source.Absent? ==> result == Success(EmptyImport) && progress == [] && totalLines == 0
    ensures source.Unreadable? ==> result == Failure(FileNotFound) && progress == []
    ensures source.Readable? && source.readFault.Some? ==> result == Failure(source.readFault.value) && progress == []
    ensures source.Readable? && source.readFault.None? ==>
              && result == DataOf(ImportRun(source.rows, dec))
              && totalLines == |source.rows|
              && progress == Counting(|progress|)
    ensures source.Readable? && source.readFault.None? && result.Success? ==> |progress| == |source.rows|
    ensures source.Readable? && source.readFault.None? && result.Failure? ==>
              && |progress| < |source.rows|
              && ImportRun(source.rows[..|progress|], dec).Success?
              && ImportRun(source.rows[..|progress| + 1], dec).Failure?
    ensures result == ParseSource(source, dec)
  {
    progress := [];
    var lines := CountLines(source);
    if lines.Failure? {
      return Failure(lines.error), progress, 0;
    }
    totalLines := lines.value;
    if !source.Readable? {
      return Success(EmptyImport), progress, totalLines;
    }
    var rows := source.rows;
    var parser := Start;
    var lineCount := 0;
    while lineCount < |rows|
      invariant 0 <= lineCount <= |rows|
      invariant ImportRun(rows[..lineCount], dec) == Success(parser)
      invariant progress == Counting(lineCount)
    {
      assert rows[..lineCount + 1][..lineCount] == rows[..lineCount];
      var step := ImportStep(parser, rows[lineCount], dec);
      if step.Failure? {
        FailureSticks(rows, lineCount + 1, dec);
        return Failure(step.error), progress, totalLines;
      }
      parser := step.value;
      lineCount := lineCount + 1;
      progress := progress + [lineCount];
    }
    assert rows[..lineCount] == rows;
    result := Success(parser.data);
  }

  /** The time cell of an exported row is never mistaken for a marker or the feeding header. */
  lemma TimeCellIsData(tt: TimeText, sec: int)
    requires Lawful(tt) && FourDigitYear(sec)
    ensures !StartsWith(tt.format(sec), "===") && tt.format(sec) != "时间"
  {
    var t := tt.format(sec);
    assert IsDigit(t[0]);
    assert |t| >= 3 ==> t[..3][0] == t[0];
    assert "时间"[0] == '时';
  }

  function ImportedAll(f: seq<FeedingRecord>, now: int): (g: seq<FeedingRecord>)
    ensures |g| == |f|
  {
    seq(|f|, i requires 0 <= i < |f| => Imported(f[i], now))
  }

  /** The marker and header rows of the feeding section open an empty feeding section. */
  lemma FeedingSectionHead(dec: Decoders)
    ensures ImportRun([[FEEDING_MARKER], FEEDING_HEADERS], dec) == Success(Parser(FEEDING_MARKER, EmptyImport))
  {
    var rows := [[FEEDING_MARKER], FEEDING_HEADERS];
    assert rows[..1] == [[FEEDING_MARKER]];
    assert rows[..1][..0] == [];
    assert StartsWith(FEEDING_MARKER, "===") by {
      assert FEEDING_MARKER[..3] == "===";
    }
    var afterMarker := Parser(FEEDING_MARKER, EmptyImport);
    assert ImportRun(rows[..1], dec) == Success(afterMarker);
    assert !StartsWith(FEEDING_HEADERS[0], "===") by {
      assert FEEDING_HEADERS[0][0] == '时';
    }
    assert ImportStep(afterMarker, FEEDING_HEADERS, dec) == Success(afterMarker);
  }

  /** Inside the feeding section, an exported row appends its decoded record. */
  lemma FeedingRowStep(p: Parser, r: FeedingRecord, dec: Decoders)
    requires p.section == FEEDING_MARKER && Lawful(dec.time) && Exportable(r)
    ensures ImportStep(p, ToCsvRow(r, dec.time), dec)
            == Success(p.(data := p.data.(feedingRecords := p.data.feedingRecords + [Imported(r, dec.now)])))
  {
    TimeCellIsData(dec.time, Quot(r.startTime, 1000));
    FeedingRowRoundTrip(r, dec.time, dec.now);
  }

  lemma ImportRunSnoc(rows: seq<Row>, row: Row, dec: Decoders)
    ensures ImportRun(rows + [row], dec) == Continue(ImportRun(rows, dec), row, dec)
  {
    assert (rows + [row])[..|rows|] == rows;
  }

  lemma FeedingRowsSnoc(f: seq<FeedingRecord>, k: nat, tt: TimeText)
    requires 0 < k <= |f|
    ensures [[FEEDING_MARKER], FEEDING_HEADERS] + FeedingRows(f[..k], tt)
            == ([[FEEDING_MARKER], FEEDING_HEADERS] + FeedingRows(f[..k - 1], tt)) + [ToCsvRow(f[k - 1], tt)]
  {
    assert FeedingRows(f[..k], tt) == FeedingRows(f[..k - 1], tt) + [ToCsvRow(f[k - 1], tt)];
  }

  lemma ImportedAllSnoc(f: seq<FeedingRecord>, k: nat, now: int)
    requires 0 < k <= |f|
    ensures ImportedAll(f[..k], now) == ImportedAll(f[..k - 1], now) + [Imported(f[k - 1], now)]
  {
  }

  /** One more exported feeding row imports one more record. */
  lemma FeedingSectionStep(f: seq<FeedingRecord>, k: nat, dec: Decoders)
    requires 0 < k <= |f| && Lawful(dec.time) && Exportable(f[k - 1])
    requires ImportRun([[FEEDING_MARKER], FEEDING_HEADERS] + FeedingRows(f[..k - 1], dec.time), dec)
             == Success(Parser(FEEDING_MARKER, EmptyImport.(feedingRecords := ImportedAll(f[..k - 1], dec.now))))
    ensures ImportRun([[FEEDING_MARKER], FEEDING_HEADERS] + FeedingRows(f[..k], dec.time), dec)
            == Success(Parser(FEEDING_MARKER, EmptyImport.(feedingRecords := ImportedAll(f[..k], dec.now))))
  {
    var prefix := [[FEEDING_MARKER], FEEDING_HEADERS] + FeedingRows(f[..k - 1], dec.time);
    var row := ToCsvRow(f[k - 1], dec.time);
    var p := Parser(FEEDING_MARKER, EmptyImport.(feedingRecords := ImportedAll(f[..k - 1], dec.now)));
    FeedingRowsSnoc(f, k, dec.time);
    ImportRunSnoc(prefix, row, dec);
    assert ImportRun(prefix + [row], dec) == ImportStep(p, row, dec);
    FeedingRowStep(p, f[k - 1], dec);
    ImportedAllSnoc(f, k, dec.now);
  }

  /** Importing the first `k` exported rows of a feeding section gives back the first `k` records. */
  lemma {:induction false} FeedingSectionImports(f: seq<FeedingRecord>, k: nat, dec: Decoders)
    requires k <= |f| && Lawful(dec.time)
    requires forall i :: 0 <= i < |f| ==> Exportable(f[i])
    ensures ImportRun([[FEEDING_MARKER], FEEDING_HEADERS] + FeedingRows(f[..k], dec.time), dec)
            == Success(Parser(FEEDING_MARKER, EmptyImport.(feedingRecords := ImportedAll(f[..k], dec.now))))
  {
    if k == 0 {
      assert FeedingRows(f[..0], dec.time) == [];
      assert [[FEEDING_MARKER], FEEDING_HEADERS] + FeedingRows(f[..0], dec.time) == [[FEEDING_MARKER], FEEDING_HEADERS];
      FeedingSectionHead(dec);
      assert ImportedAll(f[..0], dec.now) == [];
    } else {
      FeedingSectionImports(f, k - 1, dec);
      FeedingSectionStep(f, k, dec);
    }
  }

  /**
   * Importing an export that holds only feeding records gives back the decoded records in their
   * original order, and nothing else.
   */
  lemma FeedingExportRoundTrip(records: ExportData, sleepRow: SleepRecord -> Row, dec: Decoders)
    requires records.sleepRecords == [] && Lawful(dec.time)
    requires forall i :: 0 <= i < |records.feedingRecords| ==> Exportable(records.feedingRecords[i])
    ensures DataOf(ImportRun(ExportLayout(records, dec.time, sleepRow), dec))
            == Success(EmptyImport.(feedingRecords := ImportedAll(records.feedingRecords, dec.now)))
  {
    var f := records.feedingRecords;
    if f != [] {
      FeedingSectionImports(f, |f|, dec);
      assert f[..|f|] == f;
      assert ExportLayout(records, dec.time, sleepRow) == [[FEEDING_MARKER], FEEDING_HEADERS] + FeedingRows(f, dec.time);
    } else {
      assert ImportedAll(f, dec.now) == [];
    }
  }
}
