/**
 Cutting a capture down to its newest lines and handing it out backward in pages whose JSON encoding
 is bounded.
 */
module CapturePages {
  import opened Options
  import opened CaptureText
  import JsonText

  const MAX_SNAPSHOT_ROWS := 100_000
  const MAX_SNAPSHOT_BYTES := 32 * 1024 * 1024
  const MAX_PAGE_BYTES := 512 * 1024
  const MAX_PAGE_LINES := 5000

  // ---------------------------------------------------------------------------------------------
  // Keeping the newest lines
  // ---------------------------------------------------------------------------------------------

  predicate WithinLimits(source: seq<Line>, start: nat, maxRows: int, maxBytes: int)
    requires start <= |source|
  {
    |source| - start <= maxRows && JoinedLength(source[start..]) <= maxBytes
  }

  /** `source[start..]` is the longest suffix within the limits, or empty if there is none. */
  ghost predicate IsNewest(source: seq<Line>, start: nat, maxRows: int, maxBytes: int) {
    && start <= |source|
    && (start < |source| ==> WithinLimits(source, start, maxRows, maxBytes))
    && forall i: nat :: i < start ==> !WithinLimits(source, i, maxRows, maxBytes)
  }

  lemma NewestIsUnique(source: seq<Line>, a: nat, b: nat, maxRows: int, maxBytes: int)
    requires IsNewest(source, a, maxRows, maxBytes) && IsNewest(source, b, maxRows, maxBytes)
    ensures a == b
  {
  }

  lemma {:induction false} JoinedLengthShrinks(source: seq<Line>, i: nat, j: nat)
    requires i <= j <= |source|
    ensures JoinedLength(source[j..]) <= JoinedLength(source[i..])
    decreases j - i
  {
    if i < j {
      assert source[i..][1..] == source[i + 1..];
      JoinedLengthShrinks(source, i + 1, j);
    }
  }

  /** Walks back from the newest line for as long as the limits allow. */
  method RetainNewestLines(source: seq<Line>, maxRows: int, maxBytes: int) returns (retained: seq<Line>)
    ensures exists start: nat {:trigger IsNewest(source, start, maxRows, maxBytes)} ::
              IsNewest(source, start, maxRows, maxBytes) && retained == source[start..]
  {
    if maxRows < 1 || maxBytes < 0 || |source| == 0 {
      assert IsNewest(source, |source|, maxRows, maxBytes);
      return [];
    }
    var firstAllowedRow := if |source| - maxRows > 0 then |source| - maxRows else 0;
    var start := |source|;
    var usedBytes := 0;
    assert source[|source|..] == [];
    var index := |source| - 1;
    while index >= firstAllowedRow
      invariant firstAllowedRow - 1 <= index < start == index + 1 <= |source|
      invariant usedBytes == JoinedLength(source[start..]) <= maxBytes
    {
      assert source[index..][1..] == source[start..];
      var addedBytes := |source[index]|;
      if start < |source| {
        addedBytes := addedBytes + 1;
      }
      if addedBytes > maxBytes - usedBytes {
        break;
      }
      usedBytes := usedBytes + addedBytes;
      start := index;
      index := index - 1;
    }
    forall i: nat | i < start ensures !WithinLimits(source, i, maxRows, maxBytes) {
      if i >= firstAllowedRow {
        JoinedLengthShrinks(source, i, start - 1);
      }
    }
    assert IsNewest(source, start, maxRows, maxBytes);
    retained := source[start..];
  }

  // ---------------------------------------------------------------------------------------------
  // One page
  // ---------------------------------------------------------------------------------------------

  /** The JSON string of these lines, quotes included, is within the limit. */
  predicate PageFits(lines: seq<Line>, start: nat, end: nat)
    requires start <= end <= |lines|
  {
    2 + EncodedLength(Join(lines[start..end])) <= MAX_PAGE_BYTES
  }

  function FirstAllowed(end: nat, pageSize: int): nat {
    if end - pageSize > 0 then end - pageSize else 0
  }

  /** The page of at most `pageSize` lines before `end` is as long as the byte limit allows. */
  ghost predicate IsPage(lines: seq<Line>, start: nat, end: nat, pageSize: int) {
    && start <= end <= |lines| && (start < end ==> end - start <= pageSize)
    && (start < end ==> PageFits(lines, start, end))
    && forall i: nat :: i < start && end - i <= pageSize ==> !PageFits(lines, i, end)
  }

  lemma PageIsUnique(lines: seq<Line>, a: nat, b: nat, end: nat, pageSize: int)
    requires IsPage(lines, a, end, pageSize) && IsPage(lines, b, end, pageSize)
    ensures a == b
  {
  }

  lemma {:induction false} EncodingShrinks(lines: seq<Line>, i: nat, j: nat, end: nat)
    requires i <= j <= end <= |lines|
    ensures EncodedLength(Join(lines[j..end])) <= EncodedLength(Join(lines[i..end]))
    decreases j - i
  {
    if i < j {
      assert lines[i..end][1..] == lines[i + 1..end];
      EncodedLinesIsEncodedJoin(lines[i..end]);
      EncodedLinesIsEncodedJoin(lines[i + 1..end]);
      EncodingShrinks(lines, i + 1, j, end);
    }
  }

  /** The start of the page that ends at `end`. */
  function PageStart(lines: seq<Line>, end: nat, pageSize: int): (start: nat)
    requires end <= |lines|
    ensures start <= end
  {
    Extend(lines, end, end, FirstAllowed(end, pageSize))
  }

  /** Moves the start back by one line for as long as the page still fits. */
  function Extend(lines: seq<Line>, start: nat, end: nat, first: nat): (r: nat)
    requires start <= end <= |lines|
    ensures r <= start
  {
    if start > first && PageFits(lines, start - 1, end) then Extend(lines, start - 1, end, first) else start
  }

  lemma {:induction false} ExtendIsMaximal(lines: seq<Line>, start: nat, end: nat, first: nat)
    requires start <= end <= |lines| && (start < end ==> start >= first && PageFits(lines, start, end))
    ensures
      var r := Extend(lines, start, end, first);
      && (r < end ==> r >= first && PageFits(lines, r, end))
      && (r > first ==> !PageFits(lines, r - 1, end))
  {
    if start > first && PageFits(lines, start - 1, end) {
      ExtendIsMaximal(lines, start - 1, end, first);
    }
  }

  lemma PageStartIsPage(lines: seq<Line>, end: nat, pageSize: int)
    requires end <= |lines|
    ensures IsPage(lines, PageStart(lines, end, pageSize), end, pageSize)
  {
    var first := FirstAllowed(end, pageSize);
    var start := PageStart(lines, end, pageSize);
    ExtendIsMaximal(lines, end, end, first);
    forall i: nat | i < start && end - i <= pageSize ensures !PageFits(lines, i, end) {
      EncodingShrinks(lines, i, start - 1, end);
    }
  }

  datatype PageError = LineTooLong

  datatype Page = Page(content: Line, start: nat, end: nat, hasOlder: bool)

  /** A page is refused when its very last line exceeds the limit. */
  function MakePage(lines: seq<Line>, end: nat, pageSize: int): Result<Page, PageError>
    requires end <= |lines|
  {
    var start := PageStart(lines, end, pageSize);
    if start == end && end > FirstAllowed(end, pageSize) then Err(LineTooLong)
    else Ok(Page(Join(lines[start..end]), start, end, start > 0))
  }

  /** The bytes that the page's content takes up in a JSON document, quotes included. */
  function EncodedSize(lines: seq<Line>, start: nat, end: nat): nat
    requires start <= end <= |lines|
  {
    |JsonText.Encode(Join(lines[start..end]))| + 2
  }

  lemma FitsWhenEncoded(lines: seq<Line>, start: nat, end: nat)
    requires start <= end <= |lines|
    ensures PageFits(lines, start, end) <==> EncodedSize(lines, start, end) <= 512 * 1024
  {
    JsonText.LengthIsEncoded(Join(lines[start..end]));
  }

  /**
   A page is at most 512 KiB in JSON and no line could be added to it. It is refused exactly if its last line
   alone takes up more.
   */
  lemma PageIsBounded(lines: seq<Line>, end: nat, pageSize: int)
    requires end <= |lines|
    ensures
      var page := MakePage(lines, end, pageSize);
      && (page.Err? <==> end > 0 && pageSize > 0 && EncodedSize(lines, end - 1, end) > 512 * 1024)
      && (page.Ok? ==>
            && page.value.start <= page.value.end == end && page.value.content == Join(lines[page.value.start..end])
            && |JsonText.Encode(page.value.content)| + 2 <= 512 * 1024
            && (page.value.start < end ==> end - page.value.start <= pageSize)
            && (page.value.hasOlder <==> page.value.start > 0))
  {
    PageStartIsPage(lines, end, pageSize);
    var start := PageStart(lines, end, pageSize);
    FitsWhenEncoded(lines, start, end);
    assert lines[end..end] == [];
    if end > 0 {
      FitsWhenEncoded(lines, end - 1, end);
    }
  }

  /** No longer page would do: what is left out in front does not fit. */
  lemma PageIsLongest(lines: seq<Line>, end: nat, pageSize: int, i: nat)
    requires end <= |lines| && i < PageStart(lines, end, pageSize) && end - i <= pageSize
    ensures EncodedSize(lines, i, end) > 512 * 1024
  {
    PageStartIsPage(lines, end, pageSize);
    FitsWhenEncoded(lines, i, end);
  }

  /** Adds lines to the front of the page while their encoding fits. */
  method FillPage(lines: seq<Line>, end: nat, firstAllowedLine: nat) returns (start: nat)
    requires end <= |lines|
    ensures start <= end && start == Extend(lines, end, end, firstAllowedLine)
  {
    start := end;
    var encodedBytes := 2;
    assert lines[end..end] == [];
    while start > firstAllowedLine
      invariant start <= end
      invariant encodedBytes == 2 + EncodedLines(lines[start..end])
      invariant Extend(lines, start, end, firstAllowedLine) == Extend(lines, end, end, firstAllowedLine)
    {
      var index := start - 1;
      assert lines[index..end][1..] == lines[start..end];
      EncodedLinesIsEncodedJoin(lines[index..end]);
      var addedBytes := EncodedLength(lines[index]);
      if start < end {
        addedBytes := addedBytes + 2;
      }
      if encodedBytes + addedBytes > MAX_PAGE_BYTES {
        break;
      }
      encodedBytes := encodedBytes + addedBytes;
      start := index;
    }
  }

  /** The page of the newest lines before `end`, at most 512 KiB of JSON. */
  method BuildPage(lines: seq<Line>, end: nat, pageSize: int) returns (page: Result<Page, PageError>)
    requires end <= |lines|
    ensures page == MakePage(lines, end, pageSize)
    ensures page.Ok? ==>
              && page.value.start <= page.value.end == end && page.value.content == Join(lines[page.value.start..end])
              && |JsonText.Encode(page.value.content)| + 2 <= 512 * 1024
    ensures page.Err? <==> end > 0 && pageSize > 0 && EncodedSize(lines, end - 1, end) > 512 * 1024
  {
    PageIsBounded(lines, end, pageSize);
    var firstAllowedLine := FirstAllowed(end, pageSize);
    var start := FillPage(lines, end, firstAllowedLine);
    if start == end && end > firstAllowedLine {
      return Err(LineTooLong);
    }
    return Ok(Page(Join(lines[start..end]), start, end, start > 0));
  }

  // ---------------------------------------------------------------------------------------------
  // All pages
  // ---------------------------------------------------------------------------------------------

  predicate LineFits(line: Line) {
    2 + EncodedLength(line) <= MAX_PAGE_BYTES
  }

  ghost predicate AllFit(lines: seq<Line>) {
    forall i: nat {:trigger LineFits(lines[i])} :: i < |lines| ==> LineFits(lines[i])
  }

  lemma LastLineFits(lines: seq<Line>, end: nat)
    requires 0 < end <= |lines|
    ensures PageFits(lines, end - 1, end) == LineFits(lines[end - 1])
  {
    assert lines[end - 1..end] == [lines[end - 1]];
  }

  lemma PageProgress(lines: seq<Line>, end: nat, pageSize: int)
    requires 0 < end <= |lines| && pageSize >= 1
    ensures MakePage(lines, end, pageSize).Ok? <==> LineFits(lines[end - 1])
    ensures MakePage(lines, end, pageSize).Ok? ==> MakePage(lines, end, pageSize).value.start < end
  {
    LastLineFits(lines, end);
    PageStartIsPage(lines, end, pageSize);
  }

  /** The pages from the oldest line up to `end`, found by asking for the one before each start. */
  function FollowPages(lines: seq<Line>, end: nat, pageSize: int): Result<seq<Page>, PageError>
    requires end <= |lines| && pageSize >= 1
    decreases end
  {
    var page := MakePage(lines, end, pageSize);
    if page.Err? then Err(page.error)
    else if !page.value.hasOlder then Ok([page.value])
    else
      PageProgress(lines, end, pageSize);
      var older := FollowPages(lines, page.value.start, pageSize);
      if older.Err? then older else Ok(older.value + [page.value])
  }

  /** The lines of consecutive pages. */
  function Gather(lines: seq<Line>, pages: seq<Page>): seq<Line>
    requires forall i: nat :: i < |pages| ==> pages[i].start <= pages[i].end <= |lines|
  {
    if pages == [] then []
    else Gather(lines, pages[..|pages| - 1]) + lines[pages[|pages| - 1].start..pages[|pages| - 1].end]
  }

  /** Pages follow each other without a gap from the first line up to `end`, and each is as long as it can be. */
  ghost predicate PagesOk(lines: seq<Line>, pages: seq<Page>, end: nat, pageSize: int) {
    && pages != [] && pages[0].start == 0 && pages[|pages| - 1].end == end
    && (forall i: nat {:trigger pages[i]} :: i < |pages| ==>
          && IsPage(lines, pages[i].start, pages[i].end, pageSize)
          && pages[i].content == Join(lines[pages[i].start..pages[i].end]))
    && (forall i: nat, j: nat {:trigger pages[i], pages[j]} :: i + 1 == j < |pages| ==> pages[i].end == pages[j].start)
  }

  lemma FirstPageOk(lines: seq<Line>, end: nat, pageSize: int)
    requires end <= |lines| && pageSize >= 1 && MakePage(lines, end, pageSize).Ok?
    ensures
      var page := MakePage(lines, end, pageSize).value;
      && IsPage(lines, page.start, end, pageSize) && page.end == end && page.content == Join(lines[page.start..end])
      && (page.hasOlder <==> page.start > 0)
      && (end > 0 ==> page.start < end)
  {
    PageStartIsPage(lines, end, pageSize);
    if end > 0 {
      PageProgress(lines, end, pageSize);
    }
  }

  lemma PagesExtend(lines: seq<Line>, pages: seq<Page>, page: Page, end: nat, pageSize: int)
    requires page.start <= |lines| && PagesOk(lines, pages, page.start, pageSize)
    requires IsPage(lines, page.start, end, pageSize) && page.end == end && page.content == Join(lines[page.start..end])
    ensures PagesOk(lines, pages + [page], end, pageSize)
    ensures Gather(lines, pages + [page]) == Gather(lines, pages) + lines[page.start..end]
  {
    assert (pages + [page])[..|pages|] == pages;
  }

  lemma {:induction false} LineIsShorterThanPage(lines: seq<Line>, start: nat, end: nat, i: nat)
    requires start <= i < end <= |lines|
    ensures EncodedLength(lines[i]) <= EncodedLength(Join(lines[start..end]))
    decreases i - start
  {
    assert lines[start..end][1..] == lines[start + 1..end];
    EncodedLinesIsEncodedJoin(lines[start..end]);
    if start < i {
      LineIsShorterThanPage(lines, start + 1, end, i);
      EncodingShrinks(lines, start, start + 1, end);
    }
  }

  /** A page is no shorter than any of its lines. */
  lemma PageLinesFit(lines: seq<Line>, start: nat, end: nat)
    requires start <= end <= |lines| && AllFit(lines[..start]) && (start < end ==> PageFits(lines, start, end))
    ensures AllFit(lines[..end])
  {
    forall i: nat | i < end ensures LineFits(lines[..end][i]) {
      if i < start {
        assert LineFits(lines[..start][i]);
      } else {
        LineIsShorterThanPage(lines, start, end, i);
      }
    }
  }

  /**
   The pages that are found, oldest first, hold all the lines up to `end` and nothing twice; a line
   that is too long makes some page on the way fail.
   */
  lemma {:induction false} PagesCoverLines(lines: seq<Line>, end: nat, pageSize: int)
    requires end <= |lines| && pageSize >= 1
    ensures
      var pages := FollowPages(lines, end, pageSize);
      pages.Ok? ==>
        && PagesOk(lines, pages.value, end, pageSize) && Gather(lines, pages.value) == lines[..end]
        && AllFit(lines[..end])
    decreases end
  {
    if FollowPages(lines, end, pageSize).Ok? {
      FirstPageOk(lines, end, pageSize);
      var page := MakePage(lines, end, pageSize).value;
      if page.hasOlder {
        PagesCoverLines(lines, page.start, pageSize);
        PagesExtend(lines, FollowPages(lines, page.start, pageSize).value, page, end, pageSize);
        assert lines[..page.start] + lines[page.start..end] == lines[..end];
      } else {
        SinglePage(lines, page, end, pageSize);
      }
      PageLinesFit(lines, page.start, end);
    }
  }

  lemma SinglePage(lines: seq<Line>, page: Page, end: nat, pageSize: int)
    requires IsPage(lines, 0, end, pageSize)
    requires page.start == 0 && page.end == end && page.content == Join(lines[0..end])
    ensures PagesOk(lines, [page], end, pageSize) && Gather(lines, [page]) == lines[..end]
  {
    assert [page][..0] == [];
  }

  lemma AllFitPrefix(lines: seq<Line>, start: nat, end: nat)
    requires start <= end <= |lines| && AllFit(lines[..end])
    ensures AllFit(lines[..start])
  {
    forall i: nat | i < start ensures LineFits(lines[..start][i]) {
      assert LineFits(lines[..end][i]);
    }
  }

  lemma {:induction false} FittingLinesHavePages(lines: seq<Line>, end: nat, pageSize: int)
    requires end <= |lines| && pageSize >= 1 && AllFit(lines[..end])
    ensures FollowPages(lines, end, pageSize).Ok?
    decreases end
  {
    if end > 0 {
      assert LineFits(lines[..end][end - 1]);
      PageProgress(lines, end, pageSize);
      AllFitPrefix(lines, MakePage(lines, end, pageSize).value.start, end);
      FittingLinesHavePages(lines, MakePage(lines, end, pageSize).value.start, pageSize);
    }
  }

  /** Following the pages back from `end` succeeds exactly when every line fits into a page of its own. */
  lemma PagesExistWhenLinesFit(lines: seq<Line>, end: nat, pageSize: int)
    requires end <= |lines| && pageSize >= 1
    ensures FollowPages(lines, end, pageSize).Ok? <==> AllFit(lines[..end])
  {
    PagesCoverLines(lines, end, pageSize);
    if AllFit(lines[..end]) {
      FittingLinesHavePages(lines, end, pageSize);
    }
  }
}
