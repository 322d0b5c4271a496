/** The promo-code scraper of bot.js (`scrapePromoCodes`, bot.js:52-116)
    over a document whose selector queries have already been answered: the
    texts of the `p strong, h2, h3` nodes, every `table` with the text of
    the heading before it and the `td` texts of its rows, and the texts of
    the `strong, b` nodes. */
module Extractor {
  import opened Wrappers
  import opened Strings
  import opened Lists

  /** The texts of the `td` cells of one `tr`, in order. */
  type Row = seq<string>

  /** A `table`: `heading` is the text of the nearest preceding sibling
      that is an `h2`, `h3`, `h4` or `strong` ("" when there is none),
      `rows` its `tr` rows. */
  datatype Table = Table(heading: string, rows: seq<Row>)

  /** The parts of a page the scraper looks at, each in document order. */
  datatype Document = Document(
    dateCandidates: seq<string>,  // texts of the `p strong, h2, h3` nodes
    tables: seq<Table>,           // every `table`
    emphasis: seq<string>)        // texts of the `strong, b` nodes

  /** The outcome of the HTTP request for the page. */
  datatype Page = Fetched(doc: Document) | FetchFailed

  datatype CodeRecord = CodeRecord(code: string, reward: string)

  datatype ExtractionResult = ExtractionResult(
    timeLimited: seq<CodeRecord>,
    newPlayer: seq<CodeRecord>,
    updateDate: string)

  /** The two lists a table can feed. */
  datatype Category = TimeLimited | NewPlayer

  const UnknownLabel: string := "Unknown"
  const ErrorLabel: string := "Error fetching"
  const FallbackReward: string := "Unknown (check page)"

  // ---------------------------------------------------------------------
  // Text rules

  /** The date cue of bot.js:63-64, tested on the lower-cased text. */
  predicate MentionsDate(text: string) {
    var t := ToLower(text);
    Contains(t, "february") || Contains(t, "updated") || Contains(t, "as of")
  }

  /** The time-limited keywords of bot.js:73, on the lower-cased heading. */
  predicate IsTimeLimitedHeading(prevHeading: string) {
    Contains(prevHeading, "time-limited") || Contains(prevHeading, "active promo codes")
    || Contains(prevHeading, "limited")
  }

  /** The new-player keywords of bot.js:86, on the lower-cased heading. */
  predicate IsNewPlayerHeading(prevHeading: string) {
    Contains(prevHeading, "new player") || Contains(prevHeading, "long-term")
    || Contains(prevHeading, "permanent")
  }

  /** A table under `heading` feeds the list `cat`. */
  predicate Feeds(heading: string, cat: Category) {
    match cat
    case TimeLimited => IsTimeLimitedHeading(ToLower(heading))
    case NewPlayer => IsNewPlayerHeading(ToLower(heading))
  }

  predicate IsCodeChar(c: char) {
    'A' <= c <= 'Z' || '0' <= c <= '9'
  }

  /** Matches `^[A-Z0-9]*$`. */
  predicate AllCodeChars(s: string) {
    forall i :: 0 <= i < |s| ==> IsCodeChar(s[i])
  }

  /** The table test `code && /^[A-Z0-9]+$/.test(code) && code.length >= 4`:
      no upper bound on the length. */
  predicate IsTableCode(code: string) {
    code != [] && AllCodeChars(code) && |code| >= 4
  }

  /** The fallback test `/^[A-Z0-9]{4,20}$/`. */
  predicate IsFallbackCode(text: string) {
    4 <= |text| <= 20 && AllCodeChars(text)
  }

  /** `text.trim().toUpperCase()`: trimmed, and every character its own
      upper case. */
  function Normalize(s: string): (r: string)
    ensures IsTrimmed(r)
    ensures forall i :: 0 <= i < |r| ==> IsUpperFixed(r[i])
  {
    ToUpperKeepsTrimmed(Trim(s));
    ToUpper(Trim(s))
  }

  lemma NormalizeIdempotent(s: string)
    ensures Normalize(Normalize(s)) == Normalize(s)
  {
    var n := Normalize(s);
    TrimOfTrimmed(n);
    ToUpperOfUpper(n);
  }

  /** A string of `A-Z0-9` characters is already in normal form. */
  lemma CodeCharsAreNormal(s: string)
    requires AllCodeChars(s)
    ensures Normalize(s) == s
  {
    assert IsTrimmed(s);
    TrimOfTrimmed(s);
    ToUpperOfUpper(s);
  }

  /** What every record taken from a table satisfies. */
  predicate IsTableRecord(rec: CodeRecord) {
    IsTableCode(rec.code) && IsTrimmed(rec.reward)
  }

  // ---------------------------------------------------------------------
  // Specification of the extraction

  /** The row rule of bot.js:76-81 (and 89-94). */
  function ParseRow(row: Row): (r: Option<CodeRecord>)
    ensures r.Some? <==> |row| >= 2 && IsTableCode(Normalize(row[0]))
    ensures r.Some? ==> r.value.code == Normalize(row[0]) && r.value.reward == Trim(row[1])
    ensures r.Some? ==> IsTableRecord(r.value)
  {
    if |row| >= 2 then
      var code := Normalize(row[0]);
      var reward := Trim(row[1]);
      if IsTableCode(code) then
        Some(CodeRecord(code, reward))
      else None
    else None
  }

  /** The records the rows of one table yield, in row order. */
  function RowRecords(rows: seq<Row>): (r: seq<CodeRecord>)
    ensures |r| <= |rows|
    ensures forall k :: 0 <= k < |r| ==> IsTableRecord(r[k])
  {
    FilterMapAll(ParseRow, rows, IsTableRecord);
    FilterMap(ParseRow, rows)
  }

  /** What one table contributes to the list `cat`. */
  function TableRecords(t: Table, cat: Category): seq<CodeRecord> {
    if Feeds(t.heading, cat) then RowRecords(t.rows) else []
  }

  /** The number of rows in the tables that feed `cat`. */
  function ClassifiedRows(tables: seq<Table>, cat: Category): nat {
    if tables == [] then 0
    else
      var last := tables[|tables| - 1];
      ClassifiedRows(tables[..|tables| - 1], cat) + (if Feeds(last.heading, cat) then |last.rows| else 0)
  }

  /** The records the tables feed into `cat`, table after table. */
  function TablesRecords(tables: seq<Table>, cat: Category): seq<CodeRecord> {
    ConcatMap(TableFeed(cat), tables)
  }

  function TableFeed(cat: Category): Table -> seq<CodeRecord> {
    t => TableRecords(t, cat)
  }

  /** A list is never longer than the rows of the tables classified into
      it, and holds only records that pass the table test. */
  lemma {:induction false} TablesRecordsBound(tables: seq<Table>, cat: Category)
    ensures |TablesRecords(tables, cat)| <= ClassifiedRows(tables, cat)
    ensures forall k :: 0 <= k < |TablesRecords(tables, cat)| ==> IsTableRecord(TablesRecords(tables, cat)[k])
  {
    if tables != [] {
      TablesRecordsBound(tables[..|tables| - 1], cat);
    }
  }

  /** The fallback test of one `strong`/`b` text (bot.js:103-106). */
  function FallbackRecord(text: string): (r: Option<CodeRecord>)
    ensures r.Some? <==> IsFallbackCode(Normalize(text))
    ensures r.Some? ==> r.value == CodeRecord(Normalize(text), FallbackReward)
  {
    var code := Normalize(text);
    if IsFallbackCode(code) then Some(CodeRecord(code, FallbackReward)) else None
  }

  predicate IsFallbackRecord(rec: CodeRecord) {
    IsFallbackCode(rec.code) && rec.reward == FallbackReward
  }

  /** The bold-text fallback of bot.js:102-108: every accepted code has 4 to
      20 characters of `A-Z0-9` and the placeholder reward. */
  function FallbackRecords(texts: seq<string>): (r: seq<CodeRecord>)
    ensures |r| <= |texts|
    ensures forall k :: 0 <= k < |r| ==> IsFallbackRecord(r[k])
  {
    FilterMapAll(FallbackRecord, texts, IsFallbackRecord);
    FilterMap(FallbackRecord, texts)
  }

  /** What one date candidate makes of `updateDate` (bot.js:63-66): its
      trimmed text, when it mentions a date and is not blank. */
  function DateLabel(text: string): (r: Option<string>)
    ensures r.Some? <==> MentionsDate(text) && Trim(text) != []
    ensures r.Some? ==> r.value == Trim(text) && MentionsDate(r.value)
  {
    if MentionsDate(text) && Trim(text) != [] then
      MentionsDateSurvivesTrim(text);
      Some(Trim(text))
    else None
  }

  /** The label of bot.js:59-67: "Unknown", or a text that mentions a date. */
  function UpdateLabel(candidates: seq<string>): (l: string)
    ensures l == UnknownLabel || MentionsDate(l)
  {
    LastSomeIsLabel(candidates);
    LastSome(DateLabel, candidates, UnknownLabel)
  }

  lemma {:induction false} LastSomeIsLabel(candidates: seq<string>)
    ensures var l := LastSome(DateLabel, candidates, UnknownLabel); l == UnknownLabel || MentionsDate(l)
  {
    if candidates != [] {
      LastSomeIsLabel(candidates[..|candidates| - 1]);
    }
  }

  /** The result of a page that was fetched. Every code in it is a
      non-empty string of `A-Z0-9`, and the label is never the error label. */
  function Extract(doc: Document): (r: ExtractionResult)
    ensures forall k :: 0 <= k < |r.timeLimited| ==>
      |r.timeLimited[k].code| >= 4 && AllCodeChars(r.timeLimited[k].code)
    ensures forall k :: 0 <= k < |r.newPlayer| ==> IsTableRecord(r.newPlayer[k])
    ensures r.updateDate != ErrorLabel
  {
    ErrorLabelIsNoDate();
    TablesRecordsBound(doc.tables, TimeLimited);
    TablesRecordsBound(doc.tables, NewPlayer);
    var timeLimited := TablesRecords(doc.tables, TimeLimited);
    var newPlayer := TablesRecords(doc.tables, NewPlayer);
    ExtractionResult(
      if timeLimited == [] && newPlayer == [] then FallbackRecords(doc.emphasis) else timeLimited,
      newPlayer,
      UpdateLabel(doc.dateCandidates))
  }

  /** `scrapePromoCodes`: the error result exactly when the fetch failed. */
  function Scrape(page: Page): (r: ExtractionResult)
    ensures r.updateDate == ErrorLabel <==> page.FetchFailed?
    ensures page.FetchFailed? ==> r.timeLimited == [] && r.newPlayer == []
  {
    match page
    case FetchFailed => ExtractionResult([], [], ErrorLabel)
    case Fetched(doc) => Extract(doc)
  }

  // ---------------------------------------------------------------------
  // The scraper, as the loops of bot.js build it

  /** The `.each` over the date candidates (bot.js:59-67). */
  method ScanUpdateDate(candidates: seq<string>) returns (updateDate: string)
    ensures updateDate == UpdateLabel(candidates)
  {
    updateDate := UnknownLabel;
    for i := 0 to |candidates|
      invariant updateDate == UpdateLabel(candidates[..i])
    {
      var text := candidates[i];
      if MentionsDate(text) {
        var trimmed := Trim(text);
        if trimmed != [] {
          updateDate := trimmed;
        }
      }
      assert candidates[..i + 1][..i] == candidates[..i];
    }
    assert candidates[..|candidates|] == candidates;
  }

  /** The `.each` over the rows of one table (bot.js:74-83 and 87-96):
      pushes every accepted row onto `acc`. */
  method PushRows(acc: seq<CodeRecord>, rows: seq<Row>) returns (out: seq<CodeRecord>)
    ensures out == acc + RowRecords(rows)
  {
    out := acc;
    for j := 0 to |rows|
      invariant out == acc + RowRecords(rows[..j])
    {
      var cells := rows[j];
      if |cells| >= 2 {
        var code := Normalize(cells[0]);
        var reward := Trim(cells[1]);
        if code != [] && AllCodeChars(code) && |code| >= 4 {
          out := out + [CodeRecord(code, reward)];
        }
      }
      assert rows[..j + 1][..j] == rows[..j];
    }
    assert rows[..|rows|] == rows;
  }

  /** The `.each` over the tables (bot.js:70-98). */
  method ScanTables(tables: seq<Table>) returns (timeLimited: seq<CodeRecord>, newPlayer: seq<CodeRecord>)
    ensures timeLimited == TablesRecords(tables, TimeLimited)
    ensures newPlayer == TablesRecords(tables, NewPlayer)
  {
    timeLimited, newPlayer := [], [];
    for i := 0 to |tables|
      invariant timeLimited == TablesRecords(tables[..i], TimeLimited)
      invariant newPlayer == TablesRecords(tables[..i], NewPlayer)
    {
      var table := tables[i];
      var prevHeading := ToLower(table.heading);
      if IsTimeLimitedHeading(prevHeading) {
        timeLimited := PushRows(timeLimited, table.rows);
      }
      if IsNewPlayerHeading(prevHeading) {
        newPlayer := PushRows(newPlayer, table.rows);
      }
      assert tables[..i + 1][..i] == tables[..i];
    }
    assert tables[..|tables|] == tables;
  }

  /** The `.each` over the `strong, b` texts (bot.js:102-108). */
  method ScanEmphasis(texts: seq<string>) returns (found: seq<CodeRecord>)
    ensures found == FallbackRecords(texts)
  {
    found := [];
    for i := 0 to |texts|
      invariant found == FallbackRecords(texts[..i])
    {
      var text := Normalize(texts[i]);
      if IsFallbackCode(text) {
        found := found + [CodeRecord(text, FallbackReward)];
      }
      assert texts[..i + 1][..i] == texts[..i];
    }
    assert texts[..|texts|] == texts;
  }

  /** `scrapePromoCodes` (bot.js:52-116), the fetch replaced by its outcome. */
  method ScrapePromoCodes(page: Page) returns (result: ExtractionResult)
    ensures result == Scrape(page)
  {
    if page.FetchFailed? {
      return ExtractionResult([], [], ErrorLabel);
    }
    var doc := page.doc;
    var updateDate := ScanUpdateDate(doc.dateCandidates);
    var timeLimited, newPlayer := ScanTables(doc.tables);
    if |timeLimited| == 0 && |newPlayer| == 0 {
      timeLimited := ScanEmphasis(doc.emphasis);
    }
    result := ExtractionResult(timeLimited, newPlayer, updateDate);
  }

  // ---------------------------------------------------------------------
  // Properties of the extraction

  /** Lower-casing keeps whitespace whitespace and everything else not. */
  lemma LowerCharWhitespace(c: char)
    ensures IsWhitespace(LowerChar(c)) <==> IsWhitespace(c)
  {
  }

  lemma ToLowerSlice(s: string, a: int, b: int)
    requires 0 <= a <= b <= |s|
    ensures ToLower(s[a..b]) == ToLower(s)[a..b]
  {
  }

  lemma OccursInSlice(s: string, kw: string, i: int, a: int, b: int)
    requires OccursAt(s, kw, i) && 0 <= a <= i && i + |kw| <= b <= |s|
    ensures OccursAt(s[a..b], kw, i - a)
  {
    forall t | 0 <= t < |kw|
      ensures s[a..b][i - a + t] == kw[t]
    {
      assert s[i..i + |kw|][t] == kw[t];
    }
    assert s[a..b][i - a..i - a + |kw|] == kw;
  }

  /** Trimming keeps every character from the first to the last one that is
      not whitespace. */
  lemma TrimKeepsSpan(s: string, i: int, j: int)
    requires 0 <= i <= j < |s| && !IsWhitespace(s[i]) && !IsWhitespace(s[j])
    ensures LeadingSpace(s) <= i && j < LeadingSpace(s) + |Trim(s)|
  {
    assert TrimmedAt(s, LeadingSpace(s), Trim(s));
  }

  /** The ends of an occurrence of a keyword whose ends are not whitespace
      are not whitespace in the original text either. */
  lemma KeywordEnds(s: string, kw: string, i: int)
    requires kw != [] && IsTrimmed(kw)
    requires OccursAt(ToLower(s), kw, i)
    ensures !IsWhitespace(s[i]) && !IsWhitespace(s[i + |kw| - 1])
  {
    var low := ToLower(s);
    var n := |kw|;
    assert low[i..i + n][0] == low[i];
    assert low[i..i + n][n - 1] == low[i + n - 1];
    LowerCharWhitespace(s[i]);
    LowerCharWhitespace(s[i + n - 1]);
  }

  /** An occurrence in the lower-cased text that lies inside a slice is an
      occurrence in the lower-cased slice. */
  lemma LowerOccursInSlice(s: string, kw: string, i: int, a: int, b: int)
    requires OccursAt(ToLower(s), kw, i) && 0 <= a <= i && i + |kw| <= b <= |s|
    ensures OccursAt(ToLower(s[a..b]), kw, i - a)
  {
    OccursInSlice(ToLower(s), kw, i, a, b);
    ToLowerSlice(s, a, a + (b - a));
  }

  /** An occurrence at `i` of a keyword whose ends are not whitespace is,
      after trimming, an occurrence at `i` less the leading whitespace. */
  lemma KeywordSurvivesTrimAt(s: string, kw: string, i: int)
    requires kw != [] && IsTrimmed(kw)
    requires OccursAt(ToLower(s), kw, i)
    ensures Trim(s) != []
    ensures OccursAt(ToLower(Trim(s)), kw, i - LeadingSpace(s))
  {
    KeywordEnds(s, kw, i);
    TrimKeepsSpan(s, i, i + |kw| - 1);
    assert TrimmedAt(s, LeadingSpace(s), Trim(s));
    OccursInSubstring(s, kw, i, LeadingSpace(s), Trim(s));
  }

  lemma OccursInSubstring(s: string, kw: string, i: int, a: int, r: string)
    requires OccursAt(ToLower(s), kw, i)
    requires 0 <= a <= i && i + |kw| <= a + |r| <= |s| && r == s[a..a + |r|]
    ensures OccursAt(ToLower(r), kw, i - a)
  {
    LowerOccursInSlice(s, kw, i, a, a + |r|);
  }

  /** A keyword whose ends are not whitespace, found in the lower-cased
      text, is still found once the text is trimmed. */
  lemma KeywordSurvivesTrim(s: string, kw: string)
    requires kw != [] && IsTrimmed(kw)
    requires Contains(ToLower(s), kw)
    ensures Contains(ToLower(Trim(s)), kw)
    ensures Trim(s) != []
  {
    var i :| 0 <= i <= |ToLower(s)| - |kw| && OccursAt(ToLower(s), kw, i);
    KeywordSurvivesTrimAt(s, kw, i);
    ContainsAt(ToLower(Trim(s)), kw, i - LeadingSpace(s));
  }

  lemma MentionsDateSurvivesTrim(text: string)
    requires MentionsDate(text)
    ensures MentionsDate(Trim(text))
    ensures Trim(text) != []
  {
    var t := ToLower(text);
    if Contains(t, "february") {
      KeywordSurvivesTrim(text, "february");
    } else if Contains(t, "updated") {
      KeywordSurvivesTrim(text, "updated");
    } else {
      KeywordSurvivesTrim(text, "as of");
    }
  }

  /** A text without the letter `c` in either case has no `c` once lower-cased. */
  lemma LowerLacks(s: string, c: char)
    requires 'a' <= c <= 'z'
    requires c !in s && (c as int - 32) as char !in s
    ensures c !in ToLower(s)
  {
  }

  /** A text with none of the letters b, u and a, in either case, does not
      mention a date. */
  lemma NoDateLetters(text: string)
    requires 'b' !in text && 'B' !in text && 'u' !in text && 'U' !in text && 'a' !in text && 'A' !in text
    ensures !MentionsDate(text)
  {
    var t := ToLower(text);
    LowerLacks(text, 'b');
    LowerLacks(text, 'u');
    LowerLacks(text, 'a');
    MissingCharNotContained(t, "february", 2);
    MissingCharNotContained(t, "updated", 0);
    MissingCharNotContained(t, "as of", 0);
  }

  /** "Error fetching" does not mention a date, so a fetched page never has
      the error label. */
  lemma ErrorLabelIsNoDate()
    ensures !MentionsDate(ErrorLabel)
  {
    NoDateLetters(ErrorLabel);
  }

  /** The update label is the trimmed text of the last candidate that
      mentions a date, or "Unknown" when none does; the `|| updateDate` of
      bot.js:65 never applies, since such a text is never blank. */
  lemma UpdateLabelIsLastCue(candidates: seq<string>)
    ensures (forall j :: 0 <= j < |candidates| ==> !MentionsDate(candidates[j])) ==>
      UpdateLabel(candidates) == UnknownLabel
    ensures forall i :: 0 <= i < |candidates| && MentionsDate(candidates[i]) && (forall j :: i < j < |candidates| ==> !MentionsDate(candidates[j])) ==>
      UpdateLabel(candidates) == Trim(candidates[i])
  {
    forall j | 0 <= j < |candidates| && MentionsDate(candidates[j])
      ensures Trim(candidates[j]) != []
    {
      MentionsDateSurvivesTrim(candidates[j]);
    }
    LastSomeIsLast(DateLabel, candidates, UnknownLabel);
  }

  /** Code normalisation is idempotent and accepted codes are in normal form,
      on both paths. */
  lemma AcceptedCodesAreNormal(doc: Document)
    ensures forall k :: 0 <= k < |Extract(doc).timeLimited| ==>
      Normalize(Extract(doc).timeLimited[k].code) == Extract(doc).timeLimited[k].code
    ensures forall k :: 0 <= k < |Extract(doc).newPlayer| ==>
      Normalize(Extract(doc).newPlayer[k].code) == Extract(doc).newPlayer[k].code
  {
    var r := Extract(doc);
    forall k | 0 <= k < |r.timeLimited|
      ensures Normalize(r.timeLimited[k].code) == r.timeLimited[k].code
    {
      CodeCharsAreNormal(r.timeLimited[k].code);
    }
    forall k | 0 <= k < |r.newPlayer|
      ensures Normalize(r.newPlayer[k].code) == r.newPlayer[k].code
    {
      CodeCharsAreNormal(r.newPlayer[k].code);
    }
  }

  /** Rows are read in order and nothing is merged. */
  lemma RowRecordsAppend(a: seq<Row>, b: seq<Row>)
    ensures RowRecords(a + b) == RowRecords(a) + RowRecords(b)
  {
    FilterMapAppend(ParseRow, a, b);
  }

  /** Tables are read in document order and nothing is merged. */
  lemma TablesRecordsAppend(a: seq<Table>, b: seq<Table>, cat: Category)
    ensures TablesRecords(a + b, cat) == TablesRecords(a, cat) + TablesRecords(b, cat)
  {
    ConcatMapAppend(TableFeed(cat), a, b);
  }

  /** A record is in a table's list exactly when one of its rows parses to it. */
  lemma RowRecordsMembers(rows: seq<Row>, rec: CodeRecord)
    ensures rec in RowRecords(rows) <==> exists j :: 0 <= j < |rows| && ParseRow(rows[j]) == Some(rec)
  {
    FilterMapMembers(ParseRow, rows, rec);
  }

  /** A record is in the list `cat` exactly when some table contributes it. */
  lemma TablesRecordsMembers(tables: seq<Table>, cat: Category, rec: CodeRecord)
    ensures rec in TablesRecords(tables, cat) <==>
      exists i :: 0 <= i < |tables| && rec in TableRecords(tables[i], cat)
  {
    ConcatMapMembers(TableFeed(cat), tables, rec);
  }

  /** Only the rows of a table whose heading feeds `cat` reach the list
      `cat`, and every such row that parses does. */
  lemma RecordsComeFromClassifiedRows(tables: seq<Table>, cat: Category, rec: CodeRecord)
    ensures rec in TablesRecords(tables, cat) <==>
      exists i, j :: 0 <= i < |tables| && Feeds(tables[i].heading, cat)
        && 0 <= j < |tables[i].rows| && ParseRow(tables[i].rows[j]) == Some(rec)
  {
    TablesRecordsMembers(tables, cat, rec);
    forall i | 0 <= i < |tables|
      ensures rec in TableRecords(tables[i], cat) <==> (Feeds(tables[i].heading, cat)
        && exists j :: 0 <= j < |tables[i].rows| && ParseRow(tables[i].rows[j]) == Some(rec))
    {
      RowRecordsMembers(tables[i].rows, rec);
    }
  }

  /** A table whose heading does not feed `cat` can be removed from the
      document without changing the list `cat`. */
  lemma UnclassifiedTableIgnored(before: seq<Table>, t: Table, after: seq<Table>, cat: Category)
    requires !Feeds(t.heading, cat)
    ensures TablesRecords(before + [t] + after, cat) == TablesRecords(before + after, cat)
  {
    TablesRecordsAppend(before + [t], after, cat);
    TablesRecordsAppend(before, [t], cat);
    TablesRecordsAppend(before, after, cat);
    SingleTable(t, cat);
  }

  lemma SingleTable(t: Table, cat: Category)
    ensures TablesRecords([t], cat) == TableRecords(t, cat)
  {
    assert [t][..0] == [];
    assert ConcatMap(TableFeed(cat), [t]) == ConcatMap(TableFeed(cat), []) + TableFeed(cat)(t);
  }

  /** Records are not deduplicated: a row given twice yields its record twice. */
  lemma DuplicateRowsKept(row: Row)
    requires ParseRow(row).Some?
    ensures RowRecords([row, row]) == [ParseRow(row).value, ParseRow(row).value]
  {
    RowRecordsAppend([row], [row]);
    assert [row] + [row] == [row, row];
    assert [row][..0] == [];
    assert RowRecords([row]) == [ParseRow(row).value];
  }

  /** The keyword "time-limited" is subsumed by "limited": a heading feeds
      the time-limited list exactly when it contains "limited" or
      "active promo codes". */
  lemma TimeLimitedKeywordSubsumed(prevHeading: string)
    ensures IsTimeLimitedHeading(prevHeading) <==>
      Contains(prevHeading, "limited") || Contains(prevHeading, "active promo codes")
  {
    if Contains(prevHeading, "time-limited") {
      assert "time-limited"[5..12] == "limited";
      ContainsAt("time-limited", "limited", 5);
      ContainsTransitive(prevHeading, "time-limited", "limited");
    }
  }

  /** The fallback runs only when the tables yielded nothing at all; it
      never touches the new-player list. */
  lemma FallbackOnlyWhenTablesEmpty(doc: Document)
    ensures Extract(doc).newPlayer == TablesRecords(doc.tables, NewPlayer)
    ensures TablesRecords(doc.tables, TimeLimited) != [] || TablesRecords(doc.tables, NewPlayer) != [] ==>
      Extract(doc).timeLimited == TablesRecords(doc.tables, TimeLimited)
    ensures TablesRecords(doc.tables, TimeLimited) == [] && TablesRecords(doc.tables, NewPlayer) == [] ==>
      Extract(doc).timeLimited == FallbackRecords(doc.emphasis) && Extract(doc).newPlayer == []
  {
  }

  /** A bold text yields a fallback record exactly when its normal form
      matches `^[A-Z0-9]{4,20}$`. */
  lemma FallbackRecordsMembers(texts: seq<string>, rec: CodeRecord)
    ensures rec in FallbackRecords(texts) <==>
      exists i :: 0 <= i < |texts| && IsFallbackCode(Normalize(texts[i]))
        && rec == CodeRecord(Normalize(texts[i]), FallbackReward)
  {
    FilterMapMembers(FallbackRecord, texts, rec);
  }
}
