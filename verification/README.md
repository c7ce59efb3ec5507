# TVHeadend bouquet importer — a Dafny model

The repository is a desktop tool that reads a satellite channel list from
satkurier.pl and turns it into TVHeadend channels. It comes in four
variants: tvhlst.py, tvhlstfta.py, tvh_parser_fix.py and
tvh-bouquet-fixed.py. Each variant has two parts:

- A `BouquetParser` with static methods:
  - it normalises names into matching keys and cleans them for display;
  - it reads the transponder parameters out of a row;
  - it converts frequencies;
  - it turns the HTML tables of one or more pages into bouquets. A bouquet
    is an ordered map from category to numbered channel entries.
- An `ImportWorker.run`, which reconciles those bouquets with the
  server's services, channels and tags:
  - it resolves or creates one tag per category;
  - it matches each entry to a service;
  - it updates the channel that already carries the service, or creates a
    new one.

The variants share one data model and differ in their strategies. This
project models that core in the same shape:

- Shared modules:
  - `Chars` and `Patterns`: the character classes and a leftmost,
    non-overlapping `re.sub` / `re.search` for the regular expressions the
    code uses.
  - `Keys`: the three normalisers.
  - `Cleaners`: the two cleaner families.
  - `ChannelInfo` and `Frequency`: reading a row's parameters.
  - `Table`: cells as lists of stripped text nodes.
  - `Bouquets`: ordered categories with numbered entries.
  - `Dedup`: global deduplication and regrouping.
  - `KeyExamples`, `CleanerExamples` and `PassOrderExamples`: worked
    inputs of the normalisers and cleaners.
- Page parsers, one per variant:
  - `Pages` and `TvhlstParser`: page discovery plus per-table header
    detection, merged over pages.
  - `FtaParser`: the name column and per-category numbering.
  - `FixParser`: the category-header heuristic.
  - `FixedParser`: spanning rows only.
- The import:
  - `ServiceMaps`: the four service indexes, which keep the first
    service, the last service or every service per key.
  - `FuzzySearch`: the similarity searches, stated as "first maximum of a
    candidate sequence".
  - `Catalog`: tags, channels and the log of catalogue calls.
  - `Import`: one fold over groups and entries, parameterised by a
    `Strategy` per variant.

The HTTP client is reduced to its inputs and its call log:

- The fetched pages, the tag list, the channel list and the services are
  parameters.
- The reply to `create_tag` is a function parameter.
- `SequenceMatcher.ratio` is an uninterpreted function `Ratio`.
- Each `create_tag`, `update_channel` and `create_channel_from_service`
  call is recorded as an `Action` in `Run.log`.

Where the documentation and the code disagree, the model follows the
code, with one exception. The display cleaner of tvh_parser_fix.py and
tvh-bouquet-fixed.py joins the rest of the name and the quality token with
a space even when nothing else remains. That join is modelled as written
(`Cleaners.CleanQualityLastAsWritten`), but the parsers of those variants
use the corrected cleaner (`Cleaners.CleanQualityLast`; see Findings).
Elsewhere:

- tvhlstfta.py:206 documents the key of "Polsat Sport HD" as
  "polsatsport", but the key keeps every letter
  (`KeyExamples.RawQualityLettersKept`).
- The module docstring at tvhlst.py:5 calls the mapping key letters-only,
  but the code keeps digits as well (`KeyExamples.TvnExample`).
- `clean_channel_name` is not idempotent.
- The DVB pass of `clean_channel_name` (tvhlst.py:188) runs before the
  symbol-rate pass and takes the spaces around the token with it, so a
  symbol rate written before "DVB-S2" is glued to the FEC and survives
  (`PassOrderExamples.GluedRateSurvives`).
- The fixed variant's skip test compares a name key with service uuids
  (see Findings).

## Model

| member | source | states |
|---|---|---|
| Keys.LettersDigitsKey | tvhlst.py:163-173 | the key is empty for an empty name, holds only `a-z0-9`, and is no longer than the name |
| Keys.LettersKey | tvhlstfta.py:144-160 | the key is empty for an empty name, holds only `a-z`, and is no longer than the name |
| Keys.KeyOfConcat | tvhlst.py:171-172 | both keys are computed character by character: the key of `a + b` is the key of `a` followed by the key of `b` |
| Keys.KeyOfChar | tvhlstfta.py:157-158 | a single character survives exactly when its lower-case form is `a-z` (or `0-9` with digits kept) |
| Keys.LettersKeyIdempotent | tvhlstfta.py:151-160 | re-normalising a letters-only key leaves it unchanged |
| Keys.LettersDigitsKeyIdempotent | tvhlst.py:168-173 | re-normalising a letters-and-digits key leaves it unchanged |
| Keys.LettersKeyCoarser | tvhlstfta.py:157-158 | the letters-only key equals the letters-and-digits key with its digits dropped |
| Keys.CollisionsPropagate | tvhlst.py:203-204 | two names sharing a tvhlst key also share a tvhlstfta key, so the letters-only index merges at least as many services |
| Keys.FuzzyKey | tvh_parser_fix.py:145-158 | the fuzzy key is empty for an empty name, holds only word characters, spaces, `+` and `-`, and has no upper-case letter |
| Keys.FuzzyKeyCaseInsensitive | tvh-bouquet-fixed.py:114-142 | lower-casing the name first does not change its fuzzy key |
| Keys.ComparisonKey | tvhlst.py:203-204 | each variant's mapping key meets that variant's alphabet |
| KeyExamples.TvnExample | tvhlstfta.py:208 | "TVN 24" keys to "tvn" without digits, as documented, and to "tvn24" under tvhlst.py's digit-keeping key (tvhlst.py:172) |
| KeyExamples.CanalExample | tvhlstfta.py:207 | "Canal+ Sport" keys to "canalsport", as documented |
| KeyExamples.PolishDropped | tvhlstfta.py:157-158 | Polish letters, upper- or lower-case, are dropped by both exact-match keys |
| KeyExamples.SignsKey | tvhlst.py:172 | a text with no letter or digit keys to "" under both policies |
| KeyExamples.RawQualityLettersKept | tvhlstfta.py:202-210 | the key of the raw name "Polsat Sport HD" ends in "hd", so it is not the documented "polsatsport" |
| Chars.Lower | tvhlst.py:171 | lower-casing maps every upper-case letter (ASCII and Polish) to a lower-case one and keeps word, space and digit classes |
| Chars.LowerStrIdempotent | tvhlstfta.py:151 | lower-casing twice is lower-casing once |
| Patterns.Strip | tvhlst.py:199 | `strip()` leaves no outer whitespace and returns empty exactly for an all-whitespace text |
| Patterns.Squash | tvhlst.py:199 | collapsing whitespace runs to one space and stripping gives a text with no outer or double spaces, drawn from the input |
| Patterns.SquashIdempotent | tvhlst.py:199 | squashing is idempotent |
| Patterns.SubShrinks | tvhlst.py:184-198 | a substitution with an empty or one-space replacement never lengthens the text |
| Patterns.SubNoMatch | tvhlst.py:184-198 | a pattern that matches nowhere leaves the text unchanged |
| Patterns.SearchFrom | tvhlst.py:369-385 | a search returns the leftmost match position, and `None` only when no position matches |
| Patterns.Found | tvhlst.py:369-385 | the captured text is empty exactly when the search fails |
| Patterns.FoundLeftmost | tvhlst.py:369-385 | `m.group(1) if m else ''` is the whole text of the leftmost match, or "" when the pattern matches nowhere |
| Removal.SubStripNoWord | tvh_parser_fix.py:176 | replacing every `\s*\b(token)\b\s*` by one space and stripping leaves no bounded occurrence of any token, so a search for one finds nothing |
| Cleaners.StripParameters | tvhlst.py:188-195 | the technical-parameter passes keep a text drawn in order from the input and never lengthen it |
| Cleaners.CleanDropQuality | tvhlst.py:176-200 | the tvhlst/tvhlstfta cleaner maps empty to empty, yields a squashed text drawn from the name, no longer than it |
| Cleaners.FirstQuality | tvh_parser_fix.py:173-175 | the first quality token, upper-cased, is one of HD/SD/UHD/4K and exists exactly when the search finds one |
| Cleaners.WithoutQuality | tvh_parser_fix.py:176 | the text left after removing the quality tokens has no outer whitespace and contains no quality token any more |
| Cleaners.MoveQualityAsWritten | tvh_parser_fix.py:173-177 | as written: with a quality token the result ends in " " + token and starts with the rest of the name + " ", and that rest holds no quality token; without one the text is unchanged |
| Cleaners.MoveQuality | tvh-bouquet-fixed.py:168-172 | corrected: the token, upper-cased, becomes the last word after a rest that holds no quality token, the result has no outer space, and a bare token stays bare |
| Cleaners.CleanQualityLastAsWritten | tvh_parser_fix.py:161-179 | the fix/fixed cleaner as written: after the parameter and trail passes the first quality token ends the name, preceded by a rest that holds no quality token; without a token the result is squashed and token-free |
| Cleaners.CleanQualityLast | tvh-bouquet-fixed.py:145-174 | the corrected cleaner maps empty to empty, never yields outer whitespace, ends with the first quality token after a token-free rest (or is just the token), and without a token gives a squashed, token-free text |
| Cleaners.QualityLastAgrees | tvh-bouquet-fixed.py:168-172 | whenever a name has more than its quality token, the corrected and the as-written cleaner agree |
| Cleaners.Clean | tvhlst.py:176-200 | every variant's display cleaner maps empty to empty and leaves no outer whitespace |
| CleanerExamples.DropQualityNotIdempotent | tvhlst.py:196-199 | some name changes again when cleaned twice ("A D-" becomes "A D", then "A") |
| CleanerExamples.CleanOnce | tvhlst.py:196-199 | cleaning "A D-" once gives "A D" |
| CleanerExamples.CleanTwice | tvhlst.py:196-199 | cleaning "A D" gives "A" |
| PassOrderExamples.SpacedDvbGlues | tvhlst.py:188 | the spaced DVB pass on "rate DVB-Sn fec" removes the token with both spaces, leaving the five rate digits glued to the FEC |
| PassOrderExamples.SeparateRateMatches | tvhlst.py:192 | before the DVB pass the rate stands alone and `\b\d{5}\b` matches it |
| PassOrderExamples.GluedParameters | tvhlst.py:190-194 | on the glued text the parameter passes remove only the FEC: the frequency, polarisation, symbol-rate and modulation passes find nothing, and the rate stays |
| PassOrderExamples.GluedRateSurvives | tvhlst.py:188-194 | because the DVB pass runs first, "27500 DVB-S2 3/4" keeps "27500" through the parameter passes |
| CleanerExamples.QualityLastLeadingSpace | tvh_parser_fix.py:177 | as written, cleaning the bare name "HD" gives " HD" |
| CleanerExamples.QualityLastKeepsBareToken | tvh-bouquet-fixed.py:172 | the corrected cleaner keeps "HD" as "HD" |
| ChannelInfo.StripOrdinal | tvhlst.py:356 | the leading `\d+\.?\s*` is removed: the result is a suffix of the text, and the text is unchanged when it does not start with a digit |
| ChannelInfo.ParseChannelInfo | tvhlst.py:351-388 | `None` exactly when the text minus its ordinal is shorter than 2; otherwise the name is the cleaned text and each field is the text of the leftmost match of its pattern, or "" when there is none (frequency, polarisation in V/H/L/R, five-digit rate, FEC, upper-cased quality token, modulation) |
| Frequency.FreqMhzFromStr | tvhlst.py:404-418 | empty or unreadable text gives 0; a value below 1000 is read as GHz and scaled by 1000, otherwise truncated MHz |
| Frequency.WholeNumberMhz | tvhlst.py:413-416 | a whole number of at least 1000 is its own MHz value; a smaller one is multiplied by 1000 |
| Frequency.CommaIsPoint | tvhlst.py:409 | a comma reads like a decimal point |
| Frequency.ShapedFrequencyMhz | tvhlst.py:365-367 | a frequency captured as `\d{1,2}[.,]\d{3}` converts to the integer formed by its digits |
| Frequency.MuxFreqMhz | tvhlst.py:445-447 | a non-positive multiplex frequency gives 0; a positive kHz value gives its truncated MHz value |
| Frequency.ShapedMeetsMux | tvhlst.py:447-506 | a list frequency and a multiplex frequency give the same key part exactly when the multiplex's kHz value falls within that MHz |
| Frequency.CommaAndWholeAgree | tvhlst.py:405 | the documented inputs "11,508" and "11508" both give 11508 |
| Frequency.UnreadableFrequencyExample | tvhlst.py:417-418 | text that is not a number gives 0 |
| Table.CellText | tvhlst.py:288 | `get_text(strip=True)` is empty exactly when the cell has no non-blank text node |
| Table.Join | tvh_parser_fix.py:260 | joining no parts gives "", one part gives that part, and every character comes from a part or the separator |
| Table.KeywordCount | tvhlst.py:289-292 | the keyword count is at most the number of keywords and is zero exactly when no keyword occurs |
| Table.LastWhere | tvhlst.py:293-297 | the column picked is the last header cell meeting the test, and `None` means no cell does |
| Table.FirstWhere | tvhlstfta.py:243-246 | the column picked is the first header cell meeting the test, and `None` means no cell does |
| Pages.StripExtension | tvhlst.py:224-225 | the text after the last dot is removed, and a path without a dot is unchanged |
| Pages.StripPageNumber | tvhlst.py:229 | only a trailing `-digits` is removed |
| Pages.DashNumberStripped | tvhlst.py:229 | a path ending in `-digits` loses exactly that suffix |
| Pages.LinkName | tvhlst.py:248-250 | a link path loses a trailing ".html" and nothing else |
| Pages.DiscoverFromSpec | tvhlst.py:231-259 | the discovered pages keep what was found, add each accepted link once, and never repeat a page |
| Pages.Discover | tvhlst.py:211-262 | the base page comes first; a failed seed fetch leaves just the base page; otherwise the pages are exactly the base plus every `page=` link or same-site sibling `-N` page |
| Bouquets.EnsureCategory | tvhlstfta.py:254-255 | the category exists afterwards, is added at the end with no entries if it was missing, and nothing else changes |
| Bouquets.AppendEntry | tvhlstfta.py:277-281 | the entry goes to the end of its category, created if missing, and the total grows by one |
| Bouquets.EntriesOfAppend | tvh-bouquet-fixed.py:318 | appending changes only the target category's entries |
| Bouquets.AppendKeepsNumbering | tvh_parser_fix.py:281-284 | a running counter keeps the entries numbered exactly 1..N |
| Bouquets.AppendKeepsIncreasing | tvh_parser_fix.py:281-284 | appending a larger number keeps the numbers increasing in file order |
| Bouquets.FileNext | tvh-bouquet-fixed.py:216-221 | filing the next-numbered entry keeps the bouquet globally numbered with the counter one higher |
| Bouquets.EnsureKeepsNumbering | tvh-bouquet-fixed.py:203-204 | adding an empty category keeps the global numbering |
| Bouquets.Renumber | tvhlst.py:342-344 | renumbering keeps categories and entries in place and numbers each category 1, 2, 3, ... |
| Bouquets.MergePages | tvhlst.py:334-344 | merging pages gives well-formed bouquets with no empty group, where each category holds exactly that category's entries from every page, page by page and in order, numbered from 1 |
| Bouquets.MergeRenumbered | tvhlst.py:334-344 | merging then renumbering gives, per category, the concatenation of that category's entries over the pages, numbered from 1 |
| Bouquets.RenumberKeepsShape | tvhlst.py:342-344 | renumbering keeps the bouquets well-formed and the total unchanged |
| Dedup.Deduplicate | tvh-bouquet-fixed.py:302-313 | the loop's result is the reference survivors list (first entry per non-empty key, in file order) numbered from 1 |
| Dedup.DedupLoopIsReference | tvh-bouquet-fixed.py:305-313 | the `seen`/`global_number` loop computes the reference survivors |
| Dedup.SurvivorsDistinct | tvh-bouquet-fixed.py:308 | survivors have non-empty, pairwise distinct keys |
| Dedup.SurvivorsGrow | tvh-bouquet-fixed.py:308-313 | survivors only grow, and an entry is added exactly when its key is seen for the first time |
| Dedup.DeduplicateSpec | tvh-bouquet-fixed.py:302-313 | at most the parsed entries, numbered 1..n, distinct non-empty keys, and every non-empty key of the input is represented |
| Dedup.Regroup | tvh-bouquet-fixed.py:315-319 | regrouping gives well-formed bouquets holding every survivor |
| Bouquets.FileAllOrder | tvh-bouquet-fixed.py:316-318 | filing keeps each category's entries in input order after what it held |
| Dedup.RegroupSpec | tvh-bouquet-fixed.py:315-319 | each category holds exactly the survivors of that category in order, and no category is empty |
| TvhlstParser.HeaderColumns | tvhlst.py:288-300 | a header row sets the name and frequency columns to cells meeting the heading tests (the last such cell), and leaves them otherwise |
| TvhlstParser.RowChannel | tvhlst.py:308-332 | a channel is produced only from an admissible raw name outside the header phrases, with its ordinal stripped and its cleaned name non-empty |
| TvhlstParser.ListingRow | tvhlst.py:284-332 | a header row changes only the columns; other rows keep the columns; the category changes only on a spanning title |
| TvhlstParser.ListingRowsSpec | tvhlst.py:284-332 | rows only append channels, each named and filed under the running category or a title of those rows |
| TvhlstParser.ListingTablesSpec | tvhlst.py:278-332 | the category carries across tables while the columns reset, and every new channel has a name and a category from the page |
| TvhlstParser.ListingPageSpec | tvhlst.py:274-332 | every channel of a page is named and filed under "Bez kategorii" or a title of that page |
| TvhlstParser.PagesChannels | tvhlst.py:267-340 | each page contributes its own channels, and a failed fetch contributes none |
| TvhlstParser.ParseListing | tvhlst.py:207-348 | the parse gives well-formed bouquets with no empty group; each category holds exactly its channels from the fetched pages, in page order and document order, numbered from 1 |
| TvhlstParser.FetchedIsMerged | tvhlst.py:267-344 | the entries merged for a category are that category's channels of each fetched page in turn, a failed fetch adding none |
| FtaParser.RowInfo | tvhlstfta.py:260-276 | a channel is read from the name column when one was found (otherwise the whole row), and only from admissible text with a non-empty cleaned name |
| FtaParser.FtaRow | tvhlstfta.py:232-282 | a header row sets only the name column; a spanning title starts a category and resets the counter to 1; otherwise at most one entry is appended with the counter |
| FtaParser.FtaRowNumbering | tvhlstfta.py:250-282 | after each row the current category's entries since the last title are numbered 1, 2, 3, ... |
| FtaParser.FtaRowsNumbering | tvhlstfta.py:232-282 | the per-category numbering holds after any sequence of rows |
| FtaParser.ParseFtaNumbering | tvhlstfta.py:213-286 | the per-category numbering holds after the whole page |
| FtaParser.ParseFta | tvhlstfta.py:213-286 | the parse gives well-formed bouquets |
| FixParser.WordCount | tvh_parser_fix.py:229 | `len(text.split())` is zero exactly for an all-whitespace text |
| FixParser.IsCategoryHeader | tvh_parser_fix.py:182-234 | short texts are never headers; otherwise a header is a marked first cell (spanning, `th`, class, mostly bold) or a title-like text with no technical parameter |
| FixParser.FixRow | tvh_parser_fix.py:253-284 | a header row switches category; a channel row appends one entry numbered with the global counter; global numbering is kept |
| FixParser.ParseFix | tvh_parser_fix.py:237-288 | the parse gives well-formed bouquets numbered exactly 1..N, increasing in file order |
| FixedParser.RowInfo | tvh-bouquet-fixed.py:207-215 | a row yields a channel exactly when its ordinal-stripped text has length at least 2 and a non-empty cleaned name |
| FixedParser.FixedListing | tvh-bouquet-fixed.py:207-221 | a non-spanning row keeps the category and either appends one entry with the next number or changes nothing |
| FixedParser.FileChannel | tvh-bouquet-fixed.py:216-221 | filing a channel appends it to the current category with the counter as number and advances the counter |
| FixedParser.FixedRow | tvh-bouquet-fixed.py:194-221 | a spanning title starts a category; a short spanning row changes nothing; other rows are listings; global numbering is kept |
| FixedParser.ParseFixed | tvh-bouquet-fixed.py:177-225 | the parse gives well-formed bouquets numbered exactly 1..N, increasing in file order |
| FixedParser.NoTitlesOneGroup | tvh-bouquet-fixed.py:5 | a page without spanning rows puts everything in at most one group, "Bez kategorii" |
| ServiceMaps.FirstWins | tvhlstfta.py:365-371 | the index maps each key to the first service carrying it |
| ServiceMaps.FirstWinsFromSpec | tvhlst.py:437-452 | the `if key not in map` loop keeps the first service per key |
| ServiceMaps.PairKey | tvhlst.py:438-449 | a service without a name has no key; otherwise its key is its letters-and-digits key paired with its multiplex MHz |
| ServiceMaps.PairServiceMap | tvhlst.py:437-452 | the tvhlst index holds exactly the (key, MHz) pairs of named services, first service winning |
| ServiceMaps.LettersServiceKey | tvhlstfta.py:365-371 | a service is indexed under its non-empty letters-only key, and unnamed services are skipped |
| ServiceMaps.FuzzyServiceKey | tvh-bouquet-fixed.py:328-332 | a named service is indexed under its fuzzy key |
| ServiceMaps.MuxKhz | tvhlst.py:445-446 | an unknown or absent multiplex counts as 0 kHz |
| ServiceMaps.Lookup | tvh_parser_fix.py:376-383 | lookup in an insertion-ordered dict finds nothing exactly when no entry has the key |
| ServiceMaps.Put | tvh-bouquet-fixed.py:332 | assignment replaces an existing key in place and appends a new key at the end |
| ServiceMaps.PutLookup | tvh-bouquet-fixed.py:332 | after assignment the key maps to the new value and every other key is unchanged |
| ServiceMaps.LastWins | tvh-bouquet-fixed.py:327-332 | the fixed variant's index maps each key to the last service carrying it |
| ServiceMaps.LastWinsFromSpec | tvh-bouquet-fixed.py:328-332 | the overwriting loop keeps the last service per key |
| ServiceMaps.Grouped | tvh_parser_fix.py:376-383 | the fix variant's index maps each key to all its services in order, and holds no empty list |
| ServiceMaps.GroupFromSpec | tvh_parser_fix.py:378-383 | the appending loop builds exactly those lists |
| Catalog.ExistingTags | tvhlst.py:429 | the tag cache has exactly the names of the server's tags |
| Catalog.ExistingTagsLast | tvhlst.py:429 | a name maps to the uuid of its last record |
| Catalog.Owners | tvhlst.py:457-463 | a service maps to the last channel listing it, and a service no channel lists is absent |
| Catalog.LastOwner | tvh-bouquet-fixed.py:338-340 | the owner found is the last channel listing the service |
| Catalog.MergeTag | tvhlst.py:530-532 | a truthy tag is added once at the end; otherwise the list is unchanged |
| Catalog.MergeTagIdempotent | tvhlst.py:531 | adding the same tag twice is adding it once, and distinct tags stay distinct |
| Catalog.NewChannelTags | tvhlst.py:547 | a new channel gets just the tag when it is truthy, else no tag |
| Catalog.Start | tvhlst.py:429-468 | the run starts with the server's tags, no consumed services, zero counters and an empty log |
| Catalog.ResolveTag | tvhlst.py:476-484 | without tag creation there is no tag; a cached category reuses its tag; otherwise `create_tag` is called with the next index and its reply is cached |
| Catalog.Apply | tvhlst.py:518-560 | the service is consumed and matched; its owning channel is updated with merged tags, or a channel is created |
| Catalog.LogAppend | tvhlst.py:527-558 | channel actions add their service to the matched list and tag creations to the creation list |
| Catalog.StartConsistent | tvhlst.py:429-468 | the starting run meets the import invariant |
| Catalog.ResolveKeeps | tvhlst.py:476-484 | tag resolution keeps the import invariant, and tags are created only for categories not yet cached, with consecutive indexes |
| Catalog.ApplyKeeps | tvhlst.py:518-567 | applying a match to an unconsumed service keeps the invariant and no service is acted on twice |
| FuzzySearch.Similarity | tvh_parser_fix.py:338-346 | similarity is 0 when either fuzzy key is empty, and otherwise the ratio of the two keys |
| FuzzySearch.SimilarityIgnoresCase | tvh_parser_fix.py:340-341 | similarity does not depend on letter case |
| FuzzySearch.SearchVariants | tvh_parser_fix.py:431-436 | the four variants start with the key; the others have no space or no `+`, and equal the key when it has none |
| FuzzySearch.Improve | tvh_parser_fix.py:441-447 | a candidate replaces the best only with a strictly higher score |
| FuzzySearch.ScanFirstMaximum | tvh-bouquet-fixed.py:367-373 | a strict-improvement scan returns the first candidate with the maximum score, or the start when none beats it |
| FuzzySearch.FirstFresh | tvh_parser_fix.py:444-449 | the service picked is the first of the list not yet processed, and none exists only if all are processed |
| FuzzySearch.SearchGroupedIsScan | tvh_parser_fix.py:439-449 | the fix variant's nested loops are a scan over candidates that are all unprocessed |
| FuzzySearch.SearchFixSpec | tvh_parser_fix.py:428-453 | the fix search returns the first best-scoring unprocessed candidate |
| FuzzySearch.SearchSingleIsScan | tvh-bouquet-fixed.py:367-373 | the fixed variant's loops are a scan over the candidates its skip test lets through |
| FuzzySearch.SearchFixedSpec | tvh-bouquet-fixed.py:361-373 | the fixed search returns the first best candidate, and with a uuid skip test never a consumed service |
| FuzzySearch.Accept | tvh_parser_fix.py:451 | a match is taken exactly when one was found and its score reaches the threshold |
| Import.Decide | tvhlst.py:490-518 | tvhlst: a match needs a non-empty key, the (key, MHz) pair in the index and an unconsumed service; tvhlstfta: the same with the letters-only key; fix/fixed: the accepted search result |
| Import.DecideUnconsumed | tvhlst.py:510-516 | except for the fixed variant's skip test as written, a decision never returns a consumed service |
| Import.Step | tvhlst.py:486-567 | each entry raises `processed` by one and logs at most one channel action, carrying the entry's number |
| Import.ImportEntries | tvh_parser_fix.py:421-493 | a category processes each of its entries once |
| Import.ImportGroups | tvh-bouquet-fixed.py:346-390 | the run processes exactly the total number of entries |
| Import.StepKeeps | tvhlst.py:486-567 | one entry keeps the invariant and, for honest strategies, no service is acted on twice |
| Import.ImportEntriesKeeps | tvhlstfta.py:422-503 | a whole category keeps the invariant |
| Import.ImportGroupsKeeps | tvh_parser_fix.py:401-493 | a whole run keeps the invariant |
| Import.Reconcile | tvhlst.py:470-474 | with categories but no channel at all, the first progress report divides by zero and the run ends with no catalogue call, no tag index used and nothing processed |
| Import.RunSpec | tvhlst.py:420-567 | `processed` is the number of entries, `matched == created + updated <= processed`, each tag creation uses the next index for an uncached category, and, except for the fixed skip test as written, every service is acted on at most once and the consumed set is exactly those services |
| Import.FixedInput | tvh-bouquet-fixed.py:302-319 | the fixed variant imports well-formed regrouped survivors |
| Import.FixedRunCounts | tvh-bouquet-fixed.py:302-390 | the fixed variant processes exactly the survivors of deduplication, no more than the parsed entries, and matches at most that many |
| ImportExamples.AsWrittenIgnoresConsumed | tvh-bouquet-fixed.py:367-368 | with the skip test as written, a service whose key differs from its uuid is chosen again even after it was consumed |
| ImportExamples.AsWrittenActsTwice | tvh-bouquet-fixed.py:367-377 | as written, two entries can both be matched to one service: the log names it twice |
| ImportExamples.EmptyCategoryStops | tvh_parser_fix.py:401-412 | one empty category and no channel: without the progress division the tag would be created, but the division by zero ends the run with an empty log |

## Left out

- HTTP: `TVHeadendAPI`, `requests.get` and BeautifulSoup are left out. Pages are given as tables of rows of cells, a cell being its text nodes, spanning flag, tag name, classes and bold text. Failed fetches are `None`.
- Catalogue errors: a failing API call aborts `run` through its `except`. The model assumes every call succeeds and records it in the log.
- Qt: progress signals, messages, the summary text and the GUI classes are left out. The progress division is kept only for its effect. Each variant reports `processed / total_channels` when it enters a category, before it resolves the tag (tvhlst.py:472, tvhlstfta.py:404, tvh_parser_fix.py:403, tvh-bouquet-fixed.py:347). When categories exist but hold no channel, which the fta and fix parsers can produce, that report raises `ZeroDivisionError`. `run`'s `except` then ends the import before any catalogue call (`Import.Reconcile`).
- `SequenceMatcher.ratio` is an uninterpreted function, so no property of its values is assumed.
- Unicode: there is no normalisation or full case folding. `\s`, `strip()` and `split()` use Python's full set of whitespace characters. `\w` and lower-casing cover only ASCII plus the Polish letters.
- Chars.IsDigit: `\d` is ASCII `0-9` only. Python's `\d` also matches other Unicode decimal digits, such as Arabic-Indic ones, which channel lists do not use.
- Chars.IsWordChar: `\w` is ASCII letters, digits, `_` and the Polish letters. Python's `\w` covers every Unicode letter and digit. A name with other non-ASCII letters can therefore split into more words, and get more `\b` positions, than in the program.
- Iteration order: tvhlst.py iterates `pages_to_process`, which is a set. The order of the fetched pages is therefore a parameter of `TvhlstParser.ParseListing`.
- Frequency.FreqMhzFromStr: `float()` is idealised as exact decimal parsing of `digits[.digits]`. Exponents, signs, `inf`/`nan` and surrounding whitespace count as unreadable, and float rounding is not modelled.
- The `remote_map` of tvhlstfta.py:377-383 is built but never read, so it is left out.
- `similarity` is modelled (`FuzzySearch.Similarity`) but `run` does not call it. The searches use the ratio of the keys directly, as the code does.
- Cleaners.Clean: for tvh_parser_fix.py and tvh-bouquet-fixed.py it is the corrected `Cleaners.CleanQualityLast`. A name that is only a quality token, such as "HD", stays "HD" instead of becoming " HD" (see Findings). Its "no leading whitespace" promise therefore holds for the corrected cleaner, not for the code as written, whose result for "HD" starts with a space (`CleanerExamples.QualityLastLeadingSpace`).
- FixParser.FixRow: channel names come from the corrected quality-last cleaner, so a row naming only a quality token files "HD" rather than " HD".
- FixParser.ParseFix: same as `FixParser.FixRow`; its bouquets carry corrected names.
- FixedParser.RowInfo: the cleaned name uses the corrected quality-last join. Because the name is " HD" in the program and "HD" here, the "non-empty cleaned name" test agrees.
- FixedParser.FixedListing: the entries carry the corrected names of `FixedParser.RowInfo`.
- FixedParser.FixedRow: same as `FixedParser.FixedListing`.
- FixedParser.ParseFixed: its bouquets carry corrected names. Deduplication is unaffected: the fuzzy key of both " HD" and "HD" is empty, so either name is dropped there.
- ChannelInfo.ParseChannelInfo: `name` is `Clean(policy, …)`, so under the quality-last policy it is the corrected join.
- URL handling: `urljoin` and `urlparse` are left out. Links are given with their resolved full URL, origin and path.

## Findings

| source | as written | input that shows it | evidently intended | confidence | as-written member | corrected member |
|---|---|---|---|---|---|---|
| tvh_parser_fix.py:177 (and tvh-bouquet-fixed.py:172) | `cleaned = f"{cleaned} {quality}"` after removing the token | a name that is only a quality token, e.g. "HD", becomes " HD" | the token alone stays "HD" without a leading space | not executed | CleanerExamples.QualityLastLeadingSpace (on Cleaners.CleanQualityLastAsWritten) | Cleaners.CleanQualityLast, with CleanerExamples.QualityLastKeepsBareToken and Cleaners.QualityLastAgrees |
| tvh-bouquet-fixed.py:368 | `if svc_norm in processed_services: continue` tests a name key against a set of service uuids | two entries and one service whose key differs from its uuid: both entries are matched to it, and the log acts on it twice | skip services whose uuid was already processed | not executed | ImportExamples.AsWrittenActsTwice (strategy with the by-key skip test) | the by-uuid skip test, with FuzzySearch.SearchFixedSpec and Import.RunSpec (no service acted on twice) |
