/** Concrete pages and check sequences, worked through the model of bot.js. */
module Scenarios {
  import opened Wrappers
  import opened Strings
  import opened Extractor
  import opened Detector

  /** A one-table document where one heading and one row are all there is. */
  function OneTable(heading: string, row: Row): Document {
    Document([], [Table(heading, [row])], [])
  }

  /** The records of a one-table document with a single row. */
  lemma OneRowTable(heading: string, row: Row, cat: Category)
    ensures TablesRecords([Table(heading, [row])], cat) ==
      if Feeds(heading, cat) && ParseRow(row).Some? then [ParseRow(row).value] else []
  {
    SingleTable(Table(heading, [row]), cat);
    assert [row][..0] == [];
  }

  /** `kw` occurs in the lower case of `h` at `i`. */
  lemma KeywordIn(h: string, kw: string, i: nat)
    requires i + |kw| <= |h| && forall k :: 0 <= k < |kw| ==> LowerChar(h[i + k]) == kw[k]
    ensures Contains(ToLower(h), kw)
  {
    assert ToLower(h)[i..i + |kw|] == kw;
    ContainsAt(ToLower(h), kw, i);
  }

  /** A row whose first cell is already a table code and whose second
      cell is already trimmed parses to exactly those two texts. */
  lemma NormalRowParses(code: string, reward: string)
    requires AllCodeChars(code) && |code| >= 4 && IsTrimmed(reward)
    ensures ParseRow([code, reward]) == Some(CodeRecord(code, reward))
  {
    CodeCharsAreNormal(code);
    TrimOfTrimmed(reward);
  }

  /** "Time-Limited Codes" feeds the time-limited list only. */
  lemma TimeLimitedHeading()
    ensures Feeds("Time-Limited Codes", TimeLimited) && !Feeds("Time-Limited Codes", NewPlayer)
  {
    var h := "Time-Limited Codes";
    KeywordIn(h, "limited", 5);
    // every new-player keyword has an n, and the heading has none
    LowerLacks(h, 'n');
    MissingCharNotContained(ToLower(h), "new player", 0);
    MissingCharNotContained(ToLower(h), "long-term", 2);
    MissingCharNotContained(ToLower(h), "permanent", 5);
  }

  lemma MidloveRow()
    ensures ParseRow(["MIDLOVE", "50 Silver"]) == Some(CodeRecord("MIDLOVE", "50 Silver"))
  {
    NormalRowParses("MIDLOVE", "50 Silver");
  }

  /** A "Time-Limited Codes" table with the row MIDLOVE / 50 Silver yields
      exactly that code in the time-limited list and nothing else. */
  lemma TimeLimitedTableScenario()
    ensures Extract(OneTable("Time-Limited Codes", ["MIDLOVE", "50 Silver"])) ==
      ExtractionResult([CodeRecord("MIDLOVE", "50 Silver")], [], UnknownLabel)
  {
    TimeLimitedHeading();
    MidloveRow();
    OneRowTable("Time-Limited Codes", ["MIDLOVE", "50 Silver"], TimeLimited);
    OneRowTable("Time-Limited Codes", ["MIDLOVE", "50 Silver"], NewPlayer);
  }

  /** A two-character code cell is discarded: the lists stay empty, and with
      no bold text the fallback finds nothing either. */
  lemma ShortCodeScenario()
    ensures Extract(OneTable("Time-Limited Codes", ["ab", "50 Silver"])).timeLimited == []
    ensures Extract(OneTable("Time-Limited Codes", ["ab", "50 Silver"])).newPlayer == []
  {
    TrimOfTrimmed("ab");
    assert "ab"[1..] == "b" && "b"[1..] == [];
    assert ToUpper("ab") == "AB";
    assert ParseRow(["ab", "50 Silver"]).None?;
    OneRowTable("Time-Limited Codes", ["ab", "50 Silver"], TimeLimited);
    OneRowTable("Time-Limited Codes", ["ab", "50 Silver"], NewPlayer);
  }

  /** A table under "Other Info" feeds neither list, whatever its rows. */
  lemma UnmatchedHeadingScenario(row: Row)
    ensures !Feeds("Other Info", TimeLimited) && !Feeds("Other Info", NewPlayer)
    ensures TablesRecords([Table("Other Info", [row])], TimeLimited) == []
    ensures TablesRecords([Table("Other Info", [row])], NewPlayer) == []
  {
    var h := "Other Info";
    // the heading has neither an m nor a p, and every keyword has one of them
    LowerLacks(h, 'm');
    LowerLacks(h, 'p');
    MissingCharNotContained(ToLower(h), "time-limited", 2);
    MissingCharNotContained(ToLower(h), "active promo codes", 10);
    MissingCharNotContained(ToLower(h), "limited", 2);
    MissingCharNotContained(ToLower(h), "new player", 4);
    MissingCharNotContained(ToLower(h), "long-term", 8);
    MissingCharNotContained(ToLower(h), "permanent", 0);
    OneRowTable("Other Info", row, TimeLimited);
    OneRowTable("Other Info", row, NewPlayer);
  }

  /** "Limited and permanent codes" feeds both lists. */
  lemma BothListsHeading()
    ensures Feeds("Limited and permanent codes", TimeLimited) && Feeds("Limited and permanent codes", NewPlayer)
  {
    KeywordIn("Limited and permanent codes", "limited", 0);
    KeywordIn("Limited and permanent codes", "permanent", 12);
  }

  /** A heading with keywords of both kinds sends its rows to both lists. */
  lemma BothListsScenario(row: Row)
    requires ParseRow(row).Some?
    ensures TablesRecords([Table("Limited and permanent codes", [row])], TimeLimited) == [ParseRow(row).value]
    ensures TablesRecords([Table("Limited and permanent codes", [row])], NewPlayer) == [ParseRow(row).value]
  {
    BothListsHeading();
    OneRowTable("Limited and permanent codes", row, TimeLimited);
    OneRowTable("Limited and permanent codes", row, NewPlayer);
  }

  /** A code longer than 20 characters passes the table test but not the
      fallback test. */
  lemma LongCodesOnlyInTables(code: string, reward: string)
    requires AllCodeChars(code) && |code| > 20
    ensures ParseRow([code, reward]) == Some(CodeRecord(code, Trim(reward)))
    ensures FallbackRecord(code) == None
  {
    CodeCharsAreNormal(code);
  }

  /** A first check records the newest code silently; a later check with a
      new code in front alerts the channel once, and a repeat stays silent. */
  lemma AlertSequenceScenario()
    ensures var first := Step(None, Some("42"), [CodeRecord("MIDLOVE", "50 Silver")]);
      && first == Observation(Some("MIDLOVE"), None)
      && Step(first.lastNewestCode, Some("42"), [CodeRecord("SPRING", "Energy")]) ==
        Observation(Some("SPRING"), Some(Alert("42", "SPRING")))
      && Step(Some("SPRING"), Some("42"), [CodeRecord("SPRING", "Energy")]) ==
        Observation(Some("SPRING"), None)
  {
  }

  /** The `PromoWatcher` walked through the same sequence: an alert arrives
      only after `SetChannel`, and only for a changed newest code. */
  method WatcherScenario() returns (alerts: seq<Option<Alert>>)
    ensures alerts == [None, Some(Alert("42", "SPRING")), None]
  {
    var w := new PromoWatcher();
    var a1 := w.Observe([CodeRecord("MIDLOVE", "50 Silver")]);
    w.SetChannel("42");
    var a2 := w.Observe([CodeRecord("SPRING", "Energy")]);
    var a3 := w.Observe([CodeRecord("SPRING", "Energy")]);
    alerts := [a1, a2, a3];
  }
}
