# RAID promo-code bot: a verified model

`bot.js` is a Discord bot. Once a minute it scrapes a Dexerto article for
RAID: Shadow Legends promo codes. When the first time-limited code changes,
it posts that code to a channel chosen with the `/setchannel` command. This
project models the two parts of the bot that hold its logic, and proves
properties of both:

- **The scraper** (`scrapePromoCodes`, module `Extractor`). The result of the
  HTTP request is a `Page`: a `Document` it fetched, or a failure. A
  `Document` holds the answers to the scraper's selector queries:
  - the texts of the `p strong, h2, h3` nodes (date candidates);
  - each `table`, with the text of its preceding heading and the `td` texts
    of its rows;
  - the texts of the `strong, b` nodes.

  The scraper is written twice:
  - as specification functions (`ParseRow`, `TablesRecords`,
    `FallbackRecords`, `UpdateLabel`, `Extract`, `Scrape`);
  - as methods whose loops mirror the `.each` loops of the source
    (`ScanUpdateDate`, `PushRows`, `ScanTables`, `ScanEmphasis`,
    `ScrapePromoCodes`), each proved equal to its specification function.
- **The novelty detector** (`checkPromoCodes` and `/setchannel`, module
  `Detector`).
  - The class `PromoWatcher` holds the two module-level variables
    `alertChannel` and `lastNewestCode`.
  - `Observe` is the state change of one check. It returns the alert that
    would be posted.
  - `Step` is the pure transition it is proved against.
  - `Run` folds `Step` over a sequence of checks.

Supporting modules:
- `Strings`: JavaScript's `trim`, `toUpperCase`, `toLowerCase` and
  `includes`.
- `Lists`: the two list-walking shapes the scraper uses: collect in order,
  and keep the last hit.
- `Wrappers`: an `Option` type for `null`-or-value variables.
- `Scenarios`: concrete pages and check sequences worked through the model.

Two facts about the code that the model keeps as written:
- The table test at bot.js:79 and bot.js:92 checks only a minimum length of
  4. The only 20-character cap is the bold-text fallback's, at bot.js:104.
- `scrapePromoCodes` returns no timestamp. Its result holds only
  `timeLimited`, `newPlayer` and `updateDate` (bot.js:111).

## Model

| member | source | states |
|---|---|---|
| Strings.Trim | bot.js:78 | `trim` gives a string with no whitespace at either end. It is a slice of the input with only whitespace outside it. It is empty exactly when the input is all whitespace. |
| Strings.ToUpper | bot.js:77 | `toUpperCase`: every character is its own upper case, and the result is never shorter than the input. |
| Strings.ToUpperIdempotent | bot.js:77 | Upper-casing twice is upper-casing once. |
| Strings.ToLower | bot.js:63 | `toLowerCase` keeps the length, leaves no ASCII capital, and changes no other character. |
| Strings.ToLowerIdempotent | bot.js:71 | Lower-casing twice is lower-casing once. |
| Strings.Contains | bot.js:64 | `includes`: the keyword occurs as a contiguous slice at some position. |
| Strings.ContainsTransitive | bot.js:73 | A text contains everything that its substrings contain. |
| Extractor.MentionsDate | bot.js:63-64 | The date cue: the lower-cased text contains "february", "updated" or "as of". |
| Extractor.IsTimeLimitedHeading | bot.js:73 | The lower-cased heading contains "time-limited", "active promo codes" or "limited". |
| Extractor.IsNewPlayerHeading | bot.js:86 | The lower-cased heading contains "new player", "long-term" or "permanent". |
| Extractor.Feeds | bot.js:71-86 | A table feeds a list when its lower-cased heading passes that list's keyword test. The two tests are independent. |
| Extractor.IsTableCode | bot.js:79 | The table code test: non-empty, only `A-Z0-9`, and length at least 4, with no upper bound. |
| Extractor.IsFallbackCode | bot.js:104 | The fallback code test: `^[A-Z0-9]{4,20}$`. |
| Extractor.TableRecords | bot.js:71-97 | One table contributes its parsed rows to a list when its heading feeds that list, and nothing otherwise. |
| Extractor.TablesRecords | bot.js:70-98 | A list after the table pass is the contributions of the tables, joined in document order. |
| Extractor.Normalize | bot.js:77 | `trim().toUpperCase()` yields a trimmed string of characters that are their own upper case. |
| Extractor.NormalizeIdempotent | bot.js:90 | Code normalisation is idempotent. |
| Extractor.CodeCharsAreNormal | bot.js:79 | A string of `A-Z0-9` characters is already in normal form. |
| Extractor.AcceptedCodesAreNormal | bot.js:77-80 | Every code in either list of a fetched page is in normal form. |
| Extractor.ParseRow | bot.js:76-81 | A row yields a record exactly when it has at least 2 cells and its normalised first cell is a non-empty `A-Z0-9` string of length at least 4. The code is that normalised cell and the reward is the trimmed second cell. |
| Extractor.RowRecords | bot.js:74-83 | A table yields at most one record per row, and each passes the row test. |
| Extractor.TablesRecordsBound | bot.js:70-98 | Each list is no longer than the total row count of the tables classified into it, and holds only records that pass the row test. |
| Extractor.RowRecordsAppend | bot.js:74-83 | The rows are read in order and nothing is merged. |
| Extractor.TablesRecordsAppend | bot.js:70-98 | The tables are read in document order and nothing is merged. |
| Extractor.RowRecordsMembers | bot.js:89-94 | A record is in a table's contribution exactly when one of its rows parses to it. |
| Extractor.TablesRecordsMembers | bot.js:70-98 | A record is in a list exactly when some table contributes it. |
| Extractor.RecordsComeFromClassifiedRows | bot.js:71-97 | A record is in a list exactly when it comes from a parsed row of a table whose lower-cased heading carries one of that list's keywords. |
| Extractor.UnclassifiedTableIgnored | bot.js:71-86 | Removing a table whose heading does not feed a list leaves that list unchanged. |
| Extractor.TimeLimitedKeywordSubsumed | bot.js:73 | The "time-limited" keyword is redundant: a heading feeds the time-limited list exactly when it contains "limited" or "active promo codes". |
| Extractor.DuplicateRowsKept | bot.js:80 | Records are not deduplicated: a row that appears twice yields its record twice. |
| Extractor.FallbackRecord | bot.js:103-106 | A bold text yields a record exactly when its normal form matches `^[A-Z0-9]{4,20}$`. The reward is "Unknown (check page)". |
| Extractor.FallbackRecords | bot.js:102-108 | The fallback yields at most one record per text, each with a 4 to 20 character `A-Z0-9` code and the placeholder reward. |
| Extractor.FallbackRecordsMembers | bot.js:102-108 | A record is in the fallback list exactly when some bold text normalises to its code. |
| Extractor.FallbackOnlyWhenTablesEmpty | bot.js:101-109 | The fallback runs only when both lists are empty after the table pass. It never touches `newPlayer`. Otherwise the time-limited list is the table pass's. |
| Extractor.DateLabel | bot.js:63-66 | A candidate changes the label exactly when its lower case mentions "february", "updated" or "as of" and its trimmed text is not blank. The new label is that trimmed text. |
| Extractor.MentionsDateSurvivesTrim | bot.js:64-65 | A text that mentions a date still does once trimmed, and it is never blank: the `\|\| updateDate` branch is dead. |
| Extractor.UpdateLabel | bot.js:59-67 | The label is "Unknown" or a text that mentions a date. |
| Extractor.UpdateLabelIsLastCue | bot.js:59-67 | The label is "Unknown" when no candidate mentions a date. Otherwise it is the trimmed text of the last candidate that does. |
| Extractor.ErrorLabelIsNoDate | bot.js:114 | "Error fetching" does not mention a date, so no fetched page can carry the error label. |
| Extractor.Extract | bot.js:57-111 | A fetched page gives `A-Z0-9` codes of length at least 4 in both lists, and a label other than the error label. |
| Extractor.Scrape | bot.js:52-116 | The error label appears exactly when the fetch failed, and then both lists are empty. |
| Extractor.ScanUpdateDate | bot.js:59-67 | The loop over date candidates computes `UpdateLabel`. |
| Extractor.PushRows | bot.js:74-83 | The row loop appends exactly `RowRecords` of the rows to the list. |
| Extractor.ScanTables | bot.js:70-98 | The table loop, with its two independent keyword tests, builds exactly `TablesRecords` for each list. |
| Extractor.ScanEmphasis | bot.js:102-108 | The bold-text loop builds exactly `FallbackRecords`. |
| Extractor.ScrapePromoCodes | bot.js:52-116 | The whole scraper computes `Scrape`. |
| Detector.IsSet | bot.js:137 | `alertChannel` is truthy: set and not the empty string. |
| Detector.Step | bot.js:123-151 | One check. An empty list changes nothing. A first observation records the newest code silently. A newest code equal to the tracked one changes nothing. A non-empty newest code becomes the tracked code. An alert goes only to a set channel, only for a code different from the one tracked before, and names the new tracked code. |
| Detector.PromoWatcher.constructor | bot.js:16-17 | Both variables start out unset. |
| Detector.PromoWatcher.SetChannel | bot.js:168 | `/setchannel` sets the alert channel and leaves the tracked code alone. |
| Detector.PromoWatcher.Observe | bot.js:123-151 | The detector's state change is `Step`; the alert channel is not modified. |
| Detector.PromoWatcher.CheckPromoCodes | bot.js:120-152 | A poll is `Step` applied to the scraped time-limited list. |
| Detector.AlertIff | bot.js:133-137 | An alert is sent exactly when a code is tracked, the newest code is non-empty and different from it, and the channel is set. It names the newest code. |
| Detector.StateIndependentOfChannel | bot.js:133-137 | The tracked code advances whether or not a channel is set. |
| Detector.ObserveTwice | bot.js:133 | A second check of the same list changes nothing and sends nothing. |
| Detector.FirstCheckIsBaseline | bot.js:127-131 | The first check from the unset state never alerts, and it records the newest code. |
| Detector.ScrapedCodesNonEmpty | bot.js:133 | Scraped codes are never empty, so the `newest &&` guard always holds for them. |
| Detector.FetchFailureIsNoOp | bot.js:123 | A failed fetch leaves the detector unchanged and sends nothing. |
| Detector.RunOfEmptyLists | bot.js:123 | A run of empty lists changes nothing and sends nothing. |
| Detector.Run | bot.js:155-158 | Repeated polls under a fixed channel: the tracked code after each `Step`, and the alerts in the order sent. There is at most one alert per poll. |
| Detector.RunTracksNewest | bot.js:125-134 | After a run, the tracked code is the newest code of the last non-empty list, when that list's newest code is non-empty, as every scraped code is. |
| Detector.RunNoRepeatedAlert | bot.js:133-146 | In a run, alerts go only to a set channel, no code is announced twice in a row, and the last alert names the tracked code. |
| Scenarios.TimeLimitedHeading | bot.js:71-86 | "Time-Limited Codes" feeds the time-limited list and not the new-player list. |
| Scenarios.TimeLimitedTableScenario | bot.js:70-83 | A "Time-Limited Codes" table with the row MIDLOVE / 50 Silver yields exactly that record, no new-player codes, and the "Unknown" label. |
| Scenarios.ShortCodeScenario | bot.js:79 | A two-character code cell yields nothing. |
| Scenarios.UnmatchedHeadingScenario | bot.js:73-86 | A table under "Other Info" feeds neither list. |
| Scenarios.BothListsScenario | bot.js:73-86 | A heading with keywords of both kinds sends each row to both lists. |
| Scenarios.LongCodesOnlyInTables | bot.js:79-104 | A code longer than 20 characters is accepted from a table but not from bold text. |
| Scenarios.AlertSequenceScenario | bot.js:127-146 | Baseline, then an alert for a new code, then silence for a repeat. |
| Scenarios.WatcherScenario | bot.js:127-146 | The same sequence on a `PromoWatcher`, with `SetChannel` called before the second check. |

## Left out

- The HTTP request (axios, 15-second timeout) is left out as network I/O. Only its outcome is modelled, as `Page`: a document or a failure.
- Cheerio's HTML parsing and selector traversal are left out: they are a foreign library. `Document` holds the texts the selectors return, and `Table.heading` holds the `prevAll(...).first()` text.
- Discord is left out as platform I/O: the client, login, channel lookup, `isTextBased` and `send`. An `Alert` is the message the bot would attempt to post. Whether the send succeeds does not affect the state, which has already advanced.
- Slash-command registration and deploy-commands.js are left out: a REST call with static data.
- `/testalert` and `/listcodes` are left out: they only format and post messages, and they change no state.
- The one-minute timer and the interleaving of commands with polls are left out as scheduling and concurrency. `Run` models a sequence of polls under a fixed channel.
- Console logging is left out.
- Strings.ToUpper: does not implement the full Unicode case mapping. It maps ASCII letters, and the characters whose upper case is ASCII-only (ß, ı, ſ and the Latin ligatures), and leaves every other character unchanged.
- Strings.ToLower: maps only ASCII letters. JavaScript's full mapping also lower-cases two non-ASCII characters to ASCII letters: U+0130 becomes "i" followed by U+0307, and U+212A (Kelvin sign) becomes "k". The keyword tests give the same answers either way. No keyword contains a "k". Every "i" in a keyword is followed by another ASCII letter of that keyword, while the "i" from U+0130 is followed by U+0307.
- Strings are modelled as sequences of Unicode scalar values, not UTF-16 code units. Every length the scraper tests is the length of a string already checked to be ASCII-only, and there the two agree.
- Extractor.Extract: states about the time-limited list only that its codes are `A-Z0-9` strings of length at least 4, because that list comes either from tables or from the fallback. `FallbackOnlyWhenTablesEmpty` says which source applies.
