/**
 * The PDF report: a title, every chart, then a "喂奶记录" section with its table and a "睡眠记录"
 * heading, each only when its list is non-empty. The document is the sequence of items added to
 * it; fonts, colours, page layout and image encoding are not modelled.
 */
module PdfExporter {
  import opened Wrappers
  import opened Numbers
  import opened Entities
  import opened ErrorHandler
  import opened DataExportImport
  import opened Charts

  const REPORT_TITLE: string := "宝宝成长记录"
  const FEEDING_SECTION: string := "喂奶记录"
  const SLEEP_SECTION: string := "睡眠记录"
  /** The relative column widths of the feeding table. */
  const FEEDING_COLUMNS: seq<int> := [2, 1, 1, 1, 2]
  /** What a PDF cell shows for an absent value. */
  const ABSENT: string := "-"

  /** What `document.add` receives. */
  datatype Item =
    | Title(text: string)
    | Image(chart: Bitmap)
    | Section(text: string)
    | TableItem(columns: seq<int>, header: seq<string>, cells: seq<string>)

  /** An open iText document: the items added so far, in order. */
  class Document {
    var items: seq<Item>

    constructor()
      ensures items == []
    {
      items := [];
    }

    method Add(item: Item)
      modifies this
      ensures items == old(items) + [item]
    {
      items := items + [item];
    }
  }

  /** The five cells of one record's table row; an absent amount, duration or note shows "-". */
  function PdfCells(r: FeedingRecord, tt: TimeText): (cells: seq<string>)
    ensures |cells| == 5
    ensures cells[0] == tt.format(Quot(r.startTime, 1000))
    ensures cells[1] == BOTTLE <==> r.feedingType == 1
    ensures cells[1] == BOTTLE || cells[1] == BREAST
    ensures r.amount.None? ==> cells[2] == ABSENT
    ensures r.amount.Some? ==> cells[2] != ABSENT && ParseInt(cells[2]) == (if IsInt(r.amount.value) then r.amount else None)
    ensures cells[3] == ABSENT <==> r.endTime.None?
    ensures r.note.None? ==> cells[4] == ABSENT
    ensures r.note.Some? ==> cells[4] == r.note.value
  {
    [ tt.format(Quot(r.startTime, 1000)),
      if r.feedingType == 1 then BOTTLE else BREAST,
      AmountCell(r.amount),
      DurationCell(r),
      if r.note.Some? then r.note.value else ABSENT ]
  }

  /** The amount in millilitres, or "-"; a printed amount reads back as itself when it fits an `Int`. */
  function AmountCell(amount: Option<int>): (c: string)
    ensures amount.None? ==> c == ABSENT
    ensures amount.Some? ==> c == IntToString(amount.value) && c != ABSENT
    ensures amount.Some? ==> ParseInt(c) == (if IsInt(amount.value) then amount else None)
  {
    if amount.Some? then NumberCell(amount.value); IntToString(amount.value) else ABSENT
  }

  /** The duration in whole minutes, or "-" for a feeding still open. */
  function DurationCell(r: FeedingRecord): (c: string)
    ensures c == ABSENT <==> r.endTime.None?
    ensures r.endTime.Some? ==> c == IntToString(Quot(r.endTime.value - r.startTime, 60000))
  {
    if r.endTime.Some? then
      NumberCell(Quot(r.endTime.value - r.startTime, 60000));
      IntToString(Quot(r.endTime.value - r.startTime, 60000))
    else ABSENT
  }

  /**
   * A printed number is never the absent marker (a negative number has digits after its sign),
   * and it reads back as itself exactly when it fits an `Int`.
   */
  lemma NumberCell(n: int)
    ensures IntToString(n) != ABSENT
    ensures ParseInt(IntToString(n)) == if IsInt(n) then Some(n) else None
  {
    if IsInt(n) { IntRoundTrip(n); } else { ParseOutOfRange(n); }
    if n < 0 {
      assert |IntToString(n)| == 1 + |NatToString(-n)|;
    } else {
      assert IsDigit(NatToString(n)[0]);
    }
  }

  /**
   * A record's PDF row and CSV row agree on the time, type and duration text, and on the amount
   * and note when present; the PDF shows "-" where the CSV leaves a cell empty.
   */
  lemma PdfAndCsvCellsAgree(r: FeedingRecord, tt: TimeText)
    ensures var pdf := PdfCells(r, tt);
            var csv := ToCsvRow(r, tt);
            && pdf[0] == csv[0] && pdf[1] == csv[1]
            && (csv[2] == "" ==> pdf[2] == ABSENT) && (csv[2] != "" ==> pdf[2] == csv[2])
            && (csv[3] == "" ==> pdf[3] == ABSENT) && (csv[3] != "" ==> pdf[3] == csv[3])
            && (r.note.None? ==> pdf[4] == ABSENT) && (r.note.Some? ==> pdf[4] == csv[4])
  {
  }

  /** The body cells of the feeding table: five per record, record after record. */
  function FeedingCells(records: seq<FeedingRecord>, tt: TimeText): (cells: seq<string>)
    ensures |cells| == 5 * |records|
  {
    if records == [] then []
    else FeedingCells(records[..|records| - 1], tt) + PdfCells(records[|records| - 1], tt)
  }

  /** Cell `j` of row `i` is cell `5 i + j` of the table body. */
  lemma {:induction false} FeedingCellsAt(records: seq<FeedingRecord>, tt: TimeText, i: int, j: int)
    requires 0 <= i < |records| && 0 <= j < 5
    ensures FeedingCells(records, tt)[5 * i + j] == PdfCells(records[i], tt)[j]
  {
    var n := |records|;
    var prefix := records[..n - 1];
    var body := FeedingCells(prefix, tt);
    var last := PdfCells(records[n - 1], tt);
    assert FeedingCells(records, tt) == body + last;
    assert |body| == 5 * (n - 1);
    if i < n - 1 {
      assert 5 * i + j < 5 * (n - 1);
      FeedingCellsAt(prefix, tt, i, j);
      assert prefix[i] == records[i];
    } else {
      assert 5 * i + j == |body| + j;
    }
  }

  /** The feeding table `addFeedingRecords` builds. */
  function FeedingTable(records: seq<FeedingRecord>, tt: TimeText): Item {
    TableItem(FEEDING_COLUMNS, FEEDING_HEADERS, FeedingCells(records, tt))
  }

  /** The progress values `from + 1, ..., from + n`. */
  function Ticks(from: int, n: nat): (p: seq<int>)
    ensures |p| == n
    ensures forall k :: 0 <= k < n ==> p[k] == from + k + 1
  {
    seq(n, k requires 0 <= k < n => from + k + 1)
  }

  /** The five `table.addCell` calls of one record: its cells go after those already in the table. */
  method AddRowCells(cells: seq<string>, r: FeedingRecord, tt: TimeText) returns (added: seq<string>)
    ensures added == cells + PdfCells(r, tt)
  {
    var row := PdfCells(r, tt);
    added := cells + [row[0]];
    added := added + [row[1]];
    added := added + [row[2]];
    added := added + [row[3]];
    added := added + [row[4]];
    assert row == [row[0], row[1], row[2], row[3], row[4]];
  }

  /** The header loop of `addFeedingRecords`: one header cell per column title, in order. */
  method HeaderCells() returns (header: seq<string>)
    ensures header == FEEDING_HEADERS
  {
    header := [];
    var h := 0;
    while h < |FEEDING_HEADERS|
      invariant 0 <= h <= |FEEDING_HEADERS|
      invariant header == FEEDING_HEADERS[..h]
    {
      header := header + [FEEDING_HEADERS[h]];
      h := h + 1;
    }
  }

  /** The body of the feeding table grows by one record's row at a time. */
  lemma FeedingCellsSnoc(records: seq<FeedingRecord>, tt: TimeText, i: int)
    requires 0 <= i < |records|
    ensures FeedingCells(records[..i + 1], tt) == FeedingCells(records[..i], tt) + PdfCells(records[i], tt)
  {
    assert records[..i + 1][..i] == records[..i];
  }

  /** Counting to `a` and then `n` ticks on from `a` is counting to `a + n`. */
  lemma CountingThenTicks(a: nat, n: nat)
    ensures Counting(a) + Ticks(a, n) == Counting(a + n)
  {
    var p := Counting(a) + Ticks(a, n);
    assert forall k :: 0 <= k < a + n ==> p[k] == k + 1 by {
      forall k | 0 <= k < a + n
        ensures p[k] == k + 1
      {
        if k >= a {
          assert p[k] == Ticks(a, n)[k - a];
        }
      }
    }
  }

  /**
   * `addFeedingRecords`: the header cells, then five cells per record, reporting progress after
   * each record; the finished table is added to the document last.
   */
  method AddFeedingRecords(document: Document, records: seq<FeedingRecord>, tt: TimeText, progress: int)
    returns (reported: seq<int>)
    modifies document
    ensures document.items == old(document.items) + [FeedingTable(records, tt)]
    ensures reported == Ticks(progress, |records|)
  {
    var header := HeaderCells();
    var cells: seq<string> := [];
    reported := [];
    var i := 0;
    while i < |records|
      invariant 0 <= i <= |records|
      invariant cells == FeedingCells(records[..i], tt)
      invariant reported == Ticks(progress, i)
      invariant document.items == old(document.items)
    {
      FeedingCellsSnoc(records, tt, i);
      cells := AddRowCells(cells, records[i], tt);
      reported := reported + [progress + i + 1];
      i := i + 1;
    }
    assert records[..i] == records;
    assert TableItem(FEEDING_COLUMNS, header, cells) == FeedingTable(records, tt);
    document.Add(TableItem(FEEDING_COLUMNS, header, cells));
  }

  /** `addSleepRecords` has an empty body: it adds nothing and never reports progress. */
  method AddSleepRecords(document: Document, records: seq<SleepRecord>) returns (reported: seq<int>)
    ensures reported == []
  {
    reported := [];
  }

  /** One image item per chart, in order. */
  function ChartImages(charts: seq<Bitmap>): (items: seq<Item>)
    ensures |items| == |charts|
    ensures forall i :: 0 <= i < |charts| ==> items[i] == Image(charts[i])
  {
    seq(|charts|, i requires 0 <= i < |charts| => Image(charts[i]))
  }

  /** The chart loop of `exportToPdf`: each chart is added as an image, with progress reported after each. */
  method AddCharts(document: Document, charts: seq<Bitmap>) returns (reported: seq<int>)
    modifies document
    ensures document.items == old(document.items) + ChartImages(charts)
    ensures reported == Counting(|charts|)
  {
    reported := [];
    var count := 0;
    while count < |charts|
      invariant 0 <= count <= |charts|
      invariant document.items == old(document.items) + ChartImages(charts[..count])
      invariant reported == Counting(count)
    {
      assert ChartImages(charts[..count + 1]) == ChartImages(charts[..count]) + [Image(charts[count])];
      document.Add(Image(charts[count]));
      count := count + 1;
      reported := reported + [count];
    }
    assert charts[..count] == charts;
  }

  /** What `exportToPdf` adds to the document, in order. */
  function PdfLayout(data: ExportData, charts: seq<Bitmap>, tt: TimeText): (items: seq<Item>)
    ensures |items| == 1 + |charts| + (if data.feedingRecords == [] then 0 else 2) + (if data.sleepRecords == [] then 0 else 1)
  {
    [Title(REPORT_TITLE)]
    + ChartImages(charts)
    + (if data.feedingRecords == [] then [] else [Section(FEEDING_SECTION), FeedingTable(data.feedingRecords, tt)])
    + (if data.sleepRecords == [] then [] else [Section(SLEEP_SECTION)])
  }

  /**
   * The title comes first, then every chart, all before any record section; the feeding heading
   * and table appear only for a non-empty feeding list and come before the sleep heading.
   */
  lemma PdfOrder(data: ExportData, charts: seq<Bitmap>, tt: TimeText)
    ensures var items := PdfLayout(data, charts, tt);
            var c := |charts|;
            && items[0] == Title(REPORT_TITLE)
            && (forall i :: 0 <= i < c ==> items[1 + i] == Image(charts[i]))
            && (forall i :: 1 + c <= i < |items| ==> items[i].Section? || items[i].TableItem?)
            && (data.feedingRecords != [] ==>
                  items[1 + c] == Section(FEEDING_SECTION) && items[2 + c] == FeedingTable(data.feedingRecords, tt))
            && (data.sleepRecords != [] ==> items[|items| - 1] == Section(SLEEP_SECTION))
            && (forall i :: 0 <= i < |items| ==> items[i] != Section(FEEDING_SECTION) || data.feedingRecords != [])
  {
  }

  /**
   * `exportToPdf`. Progress is reported as `k / totalSections` after each chart and each feeding
   * record. A `null` stream writes nothing and still reports success. The `use` blocks close the
   * document and the stream after every item is added, so a fault there fails the run.
   */
  method ExportToPdf(sink: Sink, data: ExportData, charts: Option<seq<Bitmap>>, tt: TimeText)
    returns (items: seq<Item>, progress: seq<int>, totalSections: int, result: Result<(), Throwable>)
    ensures sink.Unopenable? ==> result == Failure(FileNotFound) && items == [] && progress == []
    ensures sink.Missing? ==> result == Success(()) && items == [] && progress == []
    ensures sink.Open? ==> && result == Closing(sink.closeFault)
                           && items == PdfLayout(data, charts.GetOr([]), tt)
                           && totalSections == GetTotalCount(data) + |charts.GetOr([])|
                           && progress == Counting(|charts.GetOr([])| + |data.feedingRecords|)
  {
    items, progress, totalSections := [], [], 0;
    if sink.Unopenable? {
      return items, progress, totalSections, Failure(FileNotFound);
    }
    if sink.Missing? {
      return items, progress, totalSections, Success(());
    }
    var document := new Document();
    document.Add(Title(REPORT_TITLE));
    var cs := charts.GetOr([]);
    totalSections := GetTotalCount(data) + |cs|;
    progress := AddCharts(document, cs);
    ghost var head := [Title(REPORT_TITLE)] + ChartImages(cs);
    assert document.items == head;
    ghost var feedingPart: seq<Item> := [];
    if data.feedingRecords != [] {
      document.Add(Section(FEEDING_SECTION));
      var reported := AddFeedingRecords(document, data.feedingRecords, tt, |cs|);
      CountingThenTicks(|cs|, |data.feedingRecords|);
      progress := progress + reported;
      feedingPart := [Section(FEEDING_SECTION), FeedingTable(data.feedingRecords, tt)];
    }
    assert document.items == head + feedingPart;
    if data.sleepRecords != [] {
      document.Add(Section(SLEEP_SECTION));
      var reported := AddSleepRecords(document, data.sleepRecords);
      progress := progress + reported;
    }
    items := document.items;
    result := Closing(sink.closeFault);
  }

  /**
   * The PDF progress rises by one per chart and per feeding record and never passes the total;
   * sleep records never move it, so it ends at 1 only when the last five lists are empty.
   */
  lemma PdfProgressEnds(data: ExportData, charts: seq<Bitmap>)
    ensures var p := Counting(|charts| + |data.feedingRecords|);
            var total := GetTotalCount(data) + |charts|;
            && (forall k :: 0 <= k < |p| - 1 ==> p[k + 1] == p[k] + 1)
            && (forall k :: 0 <= k < |p| ==> 1 <= p[k] <= total)
            && (p != [] ==> (p[|p| - 1] == total <==>
                 data.sleepRecords == [] && data.diaperRecords == [] && data.medicineRecords == [] &&
                 data.waterRecords == [] && data.growthRecords == []))
  {
  }
}
