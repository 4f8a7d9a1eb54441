# Lead analytics pipeline — a Dafny model

This project models the core of a lead-analytics back end. The pipeline has five stages:

- It reads the pages of the "Leads" data source out of a Notion query response.
- It extracts each page's property values through a registry of extraction rules.
- It validates a lead record per page with the Pydantic model `NotionPropertyValues`.
- It flattens every record into a 32-column row.
- It writes the rows to a Delta Lake table as an update-only merge on `id`.

The analytics endpoints aggregate that table into per-week or per-month counts of the five date columns.

The repository carries two copies of the pipeline. `ingestion_leads/` is an earlier script; `backend/routers/ingestion_leads/` is the back-end copy. Their extraction, validation and normalisation are the same code, so one model serves both. The table rows below cite the back-end copy and name the script's lines in the third column. The copies differ in their write step only: the table path, and the schema, which the script declares inline. Both variants are modelled.

Modules, one per file:

- `Common` (`common.dfy`): JSON values, `Option`, `Result`, the pipeline's errors, and `dict.get`.
- `Dates` (`dates.dfy`): ISO `YYYY-MM-DD` dates, day numbers counted from 1970-01-01, and Monday-based weeks.
- `LeadModel` (`model.dfy`): the value objects, the table of the 31 record fields with their aliases and types, validation (both "before" validators as written), `DataSourceInfos`, and `SCHEMA_POLARS`.
- `Extraction` (`extraction.dfy`): the strategy registry, the page loop with its shared accumulator (as a method with loops, proved against a recursive specification), and the selection of the "Leads" data source.
- `Normalisation` (`normalise.dfy`): the per-field null rules, the row of one record, and the loop over records.
- `DeltaLake` (`deltalake.dfy`): a `DeltaStorage` class holding location → table, and the create-or-merge writes of both copies.
- `Transformation` (`transformation.dfy`): `DATE_COLS`, the two handlers' parameter choice, and the documented unpivot → truncate → count → pivot aggregation.

The page loop is proved for any function that builds a record from the accumulator (`Extraction.Validator`); the pipeline instantiates it with `LeadModel.Validate`. Only the facts that need the record's fields, such as its id, are proved about `Validate` itself.

Two consequences of the code as written are proved rather than just noted:

- Every select/status column, and the three date columns `date_appel_booke`, `date_appel_propose` and `date_relance`, is always `None` after normalisation.
  - The "before" validators replace any real input with `SelectValue()` or `DateValue()`.
  - A `SelectValue` instance is always truthy.
  - See `Normalisation.SelectColumnsAlwaysNull` and `Normalisation.CoercedDateColumnsAlwaysNull`.
  - In practice only `date_prise_contact` and `date_reponse_prospect` can ever be counted by the aggregation. The documented weekly example (backend/routers/transformation/docs.py:36-42) shows non-zero `date_appel_booke` counts, which the pipeline as written cannot produce.
- The page accumulator is shared across pages, so a page lacking a property repeats the previous page's value for that field instead of taking the default (`Extraction.AbsentPropertyInheritsField`).

Three behaviours of the code differ from what its parameters and docstrings suggest (the monthly docstring, backend/routers/transformation/main.py:59-60, documents `date_cols`); the model follows the code:

- The monthly handler ignores its `date_cols` argument.
- The back-end write discards its location argument. It always writes to `backend/data_leads`, the same directory as the default `settings.PATH_DELTALAKE`.
- Record fields are looked up by alias first, then by field name (`populate_by_name`). `DataSourceInfos` does not set this option and accepts only its alias `id`.

## Model

| member | source | states |
|---|---|---|
| Common.Get | backend/routers/ingestion_leads/utils.py:24 | `d.get(key)`: the stored value when the key is present, `None` otherwise |
| Common.Iterated | backend/routers/ingestion_leads/utils.py:77 | what a `for` loop over `results` (and over `data_sources`, line 215) goes through: a list's items, nothing for an empty dict or string; any other value makes the loop raise |
| Common.GetOr | backend/routers/ingestion_leads/utils.py:37 | `d.get(key, default)`: the stored value when present, the default otherwise |
| Extraction.SimpleStrategy | backend/routers/ingestion_leads/utils.py:14-24 | the payload under the key, or `None` when it is absent (same in ingestion_leads/main.py:15-17) |
| Extraction.ListStrategy | backend/routers/ingestion_leads/utils.py:27-37 | the payload under the key, or `[]` when it is absent (same in ingestion_leads/main.py:20-22) |
| Extraction.RegistryShape | backend/routers/ingestion_leads/utils.py:44-55 | the registry has exactly the ten tags; each reads the key equal to its own tag; exactly rich_text, title and people are list rules (same table in ingestion_leads/main.py:30-41) |
| Extraction.ExtractProperty | backend/routers/ingestion_leads/utils.py:79-80 | a property is read exactly when it is a dict whose `type` is a registered tag; the value is that tag's rule applied to the property data |
| Extraction.ReadProperties | backend/routers/ingestion_leads/utils.py:78-80 | reference definition of one page's inner loop: every property read by its rule, or nothing when one has no rule |
| Extraction.DefaultRegistryDispatch | backend/routers/ingestion_leads/utils.py:44-55 | with the default registry, a property of type `t` is read iff `t` is one of the ten tags; scalar tags give `get(t)`, list tags give `get(t, [])` |
| Extraction.ReadPageProperties | backend/routers/ingestion_leads/utils.py:78-80 | the inner loop succeeds iff every property of the page has a rule; the accumulator then equals the old one overlaid with every property's payload |
| Extraction.PageStep | backend/routers/ingestion_leads/utils.py:77-82 | reference definition of one page's effect on the shared accumulator: the page's properties written over it, then `id` set to the page's id; a malformed page is an error (its properties are in `PageStepSpec`) |
| Extraction.ExtractFrom | backend/routers/ingestion_leads/utils.py:74-86 | reference definition of the page loop, record by record, threading one accumulator through every page (its properties are in `OneRecordPerPage`, `RecordAt`, `UnsupportedPropertyAborts`) |
| Extraction.ExtractPropertyValues | backend/routers/ingestion_leads/utils.py:58-88 | the page loop with one accumulator shared by all pages returns what the recursive specification `ExtractFrom` gives, errors included (same loop in ingestion_leads/main.py:44-71) |
| Extraction.ExtractPages | backend/routers/ingestion_leads/utils.py:74-84 | the outer loop over pages, for any record constructor, returns the recursive specification `ExtractFrom`: the same records in page order, or the first error |
| Extraction.PageStepSpec | backend/routers/ingestion_leads/utils.py:78-82 | after a page, the accumulator's keys are the old keys plus the page's properties plus `id`; `id` is the page's id; each property holds its payload; every other key keeps its earlier value |
| Extraction.UnsupportedPropertyAborts | backend/routers/ingestion_leads/utils.py:79-80 | a property of any page with a missing or unregistered type makes the whole extraction fail, with no partial list (same in ingestion_leads/main.py:62-63) |
| Extraction.OneRecordPerPage | backend/routers/ingestion_leads/utils.py:77-86 | a successful extraction yields exactly one record per input page |
| Extraction.RecordAt | backend/routers/ingestion_leads/utils.py:77-84 | record `i` is the validation of the accumulator as it stands after pages `0..i`, so records follow page order |
| Extraction.AccumulatedLast | backend/routers/ingestion_leads/utils.py:77-82 | the accumulator after page `i` is page `i`'s writes applied to the accumulator left by pages `0..i-1` |
| Extraction.ConsecutiveRecords | backend/routers/ingestion_leads/utils.py:77-84 | records `i - 1` and `i` are validated from the accumulator just before and just after page `i` |
| Extraction.RecordIdIsPageId | backend/routers/ingestion_leads/utils.py:82-84 | record `i` carries page `i`'s own id, which is overwritten on every page |
| Extraction.ExtractedRecordIsWellTyped | backend/routers/ingestion_leads/utils.py:84 | every extracted record holds every field with a value of its declared type |
| Extraction.AbsentPropertyInheritsField | backend/routers/ingestion_leads/utils.py:74-84 | a field absent from page `i` (under alias and name) has in record `i` the same value as in record `i - 1`, because the accumulator is shared (same in ingestion_leads/main.py:56-67) |
| Extraction.AbsentPropertyKeepsInput | backend/routers/ingestion_leads/utils.py:78-82 | a page without a field's alias or name leaves the accumulator's input for that field unchanged |
| Extraction.GetLeadsDataSource | backend/routers/ingestion_leads/utils.py:215-217 | the selection loop returns what `LastNamed` specifies: a non-dict or nameless entry raises; no "Leads" entry is the unbound-variable error |
| Extraction.LastNamed | backend/routers/ingestion_leads/utils.py:215-219 | reference definition of the selection loop: each entry named "Leads" replaces the earlier choice (its properties are in `LastNamedWins` and `NoLeadsIsMissing`) |
| Extraction.LastNamedWins | backend/routers/ingestion_leads/utils.py:215-217 | a successful choice is the validated entry at some index `j` named "Leads", and no later entry has that name (same loop in ingestion_leads/main.py:177-179) |
| Extraction.WellFormedLeadsSucceeds | backend/routers/ingestion_leads/utils.py:215-219 | the converse: when every entry is a dict with a name and every "Leads" entry is a valid data source, a list holding a "Leads" entry (or an earlier choice) is always selected |
| Extraction.NoLeadsIsMissing | backend/routers/ingestion_leads/utils.py:215-219 | when no entry is named "Leads", the selection fails with the missing-collection error |
| LeadModel.ValidateDataSourceInfos | backend/routers/ingestion_leads/model.py:19-28 | a data source is valid iff `id` and `name` are both present strings, and the record carries them (same in ingestion_leads/model.py:10-12) |
| LeadModel.ParseDateValue | backend/routers/ingestion_leads/model.py:31-45 | a date object is valid iff its `start` and `end` are each null or an ISO date and its `time_zone` is null or a string; `start` is kept as parsed |
| LeadModel.ParseTextContent | backend/routers/ingestion_leads/model.py:64-73 | text content is valid iff it is an object with a string `content` and a `link` that is absent, null or an object; both are kept |
| LeadModel.ParseRichText | backend/routers/ingestion_leads/model.py:76-94 | a rich-text element is valid iff it is an object with string `plain_text` and `type`, valid text content under `text`, an object under `annotations`, and `href` absent, null or a string; every field is kept as given |
| LeadModel.ParseRichTextsSpec | backend/routers/ingestion_leads/model.py:135-144 | a rich-text list is valid iff each element is, and the parsed list is element by element the parsed elements |
| LeadModel.ParseDictsSpec | backend/routers/ingestion_leads/model.py:167 | a people list is valid iff each element is a dict, and is kept as it is |
| LeadModel.Default | backend/routers/ingestion_leads/model.py:121-167 | each field's default has the field's declared type |
| LeadModel.ValidateField | backend/routers/ingestion_leads/model.py:120-211 | any present select input becomes `SelectValue()` and any present coerced-date input `DateValue()`; the Optional kinds (text, number, uncoerced date) accept exactly null or their own JSON shape and keep the value given (a string, a number, the parsed date); rich text and people lists accept only a JSON list whose items parse, never null, and keep the parsed list |
| LeadModel.Lookup | backend/routers/ingestion_leads/model.py:213-216 | the alias wins: its value when the alias is a key, otherwise the value under the field name, and no input exactly when neither is a key |
| LeadModel.FieldOutcome | backend/routers/ingestion_leads/model.py:120-167 | a field's outcome, when valid, has the field's declared type |
| LeadModel.ValidateFieldsSpec | backend/routers/ingestion_leads/model.py:120-167 | validating a list of fields succeeds iff every one of them does, and then holds each field under its name with that field's own outcome |
| LeadModel.ValidateAccepts | backend/routers/ingestion_leads/model.py:97-216 | a record is built iff the id is a string and every one of the 31 fields validates |
| LeadModel.ValidatedFields | backend/routers/ingestion_leads/model.py:97-216 | a built record holds all 31 fields, each the outcome of its own input, and so is well typed |
| LeadModel.ValidatedField | backend/routers/ingestion_leads/model.py:97-216 | one field of a built record is that field's own outcome |
| LeadModel.PresentOutcome | backend/routers/ingestion_leads/model.py:120-216 | a field present in the input under its alias or name takes the outcome of validating that input |
| LeadModel.Validate | backend/routers/ingestion_leads/model.py:97-216 | a built record's id is the input's `id` (or `id_`) string; failure is the validation error (same model in ingestion_leads/model.py:48-129) |
| LeadModel.ValidateSpec | backend/routers/ingestion_leads/model.py:97-216 | a record is built iff the id is a string and every field is valid; it holds every field, each with its own outcome and of its declared type |
| LeadModel.SameInputSameField | backend/routers/ingestion_leads/model.py:120-167 | a field's value depends only on that field's input |
| LeadModel.AbsentFieldsTakeDefaults | backend/routers/ingestion_leads/model.py:120-167 | a field absent under alias and name takes `None` (select, date, number, text) or `[]` (rich text, title, people) (same in ingestion_leads/model.py:52-98) |
| LeadModel.SelectInputIsReplaced | backend/routers/ingestion_leads/model.py:184-211 | any present select/status input, null or dict alike, becomes `SelectValue()` with id, name and color `None` (same in ingestion_leads/model.py:107-126) |
| LeadModel.CoercedDateInputIsReplaced | backend/routers/ingestion_leads/model.py:169-182 | the date validator covers exactly date_appel_booke, date_appel_propose and date_relance, and turns any present input into `DateValue()` (same in ingestion_leads/model.py:100-105) |
| LeadModel.UncoercedDateKeepsStart | backend/routers/ingestion_leads/model.py:149-151 | date_prise_contact and date_reponse_prospect keep the start date parsed from their input |
| LeadModel.IdIsRequired | backend/routers/ingestion_leads/model.py:120 | without `id` (or `id_`) no record is built (same in ingestion_leads/model.py:51) |
| LeadModel.RichTextElementNeedsRequiredKeys | backend/routers/ingestion_leads/model.py:90-94 | one rich-text element lacking a required key fails the whole record (same in ingestion_leads/model.py:41-45) |
| LeadModel.ColumnsOfType | backend/routers/ingestion_leads/model.py:229-262 | the columns of a given type are exactly the schema's columns declared with it |
| LeadModel.SchemaCoversRecord | backend/routers/ingestion_leads/model.py:229-262 | the schema declares `id` (Utf8) and exactly the record's 31 fields |
| LeadModel.SchemaTypesFollowFields | backend/routers/ingestion_leads/model.py:229-262 | each field is declared with the type its flattened value has |
| LeadModel.SchemaDateColumns | backend/routers/ingestion_leads/model.py:251-255 | the Date columns are exactly the five date fields |
| LeadModel.SchemaNumberAndListColumns | backend/routers/ingestion_leads/model.py:256-261 | budget alone is Float64, personne_assignee alone List(Utf8) |
| LeadModel.SchemaTextColumns | backend/routers/ingestion_leads/model.py:229-262 | every other column, `id` included, is Utf8 |
| Dates.ParseIsoDate | backend/routers/ingestion_leads/model.py:43-44 | a parsed date is a calendar date Python's `date` can hold |
| Dates.ParseFormat | backend/routers/ingestion_leads/model.py:43-44 | every such date parses back from its ISO text |
| Dates.FormatParse | backend/routers/ingestion_leads/model.py:43-44 | every accepted string is the canonical ISO text of the date it parses to |
| Dates.DayNumberNextDay | backend/routers/ingestion_leads/model.py:251-255 | the day number of the next calendar day is one more, so day numbers count days |
| Dates.MarchDaysStep | backend/routers/ingestion_leads/model.py:251-255 | a March-based year is 366 days long when the following calendar year is a leap year and 365 otherwise |
| Dates.MarchFirstStep | backend/routers/ingestion_leads/model.py:251-255 | 1 March follows the last day of February, 28th or 29th, by exactly one day number |
| Dates.MonthEndStep | backend/routers/ingestion_leads/model.py:251-255 | day 1 of the next month follows the last day of any month other than February and December by exactly one day number |
| Dates.YearEndStep | backend/routers/ingestion_leads/model.py:251-255 | 1 January follows 31 December by exactly one day number |
| Dates.EpochIsDayZero | backend/routers/ingestion_leads/model.py:251-255 | 1970-01-01 is day 0, as for polars dates |
| Dates.MondayOnOrBeforeBounds | backend/routers/transformation/docs.py:16 | the week key of day `n` is a Monday and `n` lies in the seven days it starts |
| Dates.MondayOnOrBeforeUnique | backend/routers/transformation/docs.py:16 | it is the only Monday at most six days before `n` |
| Dates.DocumentedWeeks | backend/routers/transformation/docs.py:28-36 | 2025-09-29 and 2025-10-06, the documented week keys, are Mondays |
| Normalisation.PeopleIds | backend/routers/ingestion_leads/utils.py:186-188 | the people column has one entry per person, each `p.get("id")` |
| Normalisation.Flatten | backend/routers/ingestion_leads/utils.py:112-188 | the cell rule of each kind of field (its rules are in `FlattenRules`) |
| Normalisation.NormaliseRecord | backend/routers/ingestion_leads/utils.py:110-188 | the dictionary of one record: `id`, then each field's flattened value (its shape is in `RowShape`) |
| Normalisation.NormaliseData | backend/routers/ingestion_leads/utils.py:91-192 | one row per record, in order, each the record's flattened row (same loop in ingestion_leads/main.py:74-169) |
| Normalisation.RowShape | backend/routers/ingestion_leads/utils.py:110-190 | each row has exactly the keys of `SCHEMA_POLARS`, `id` equals the record's `id_`, and every field column is that field's flattened value |
| Normalisation.RowFitsSchema | backend/routers/ingestion_leads/utils.py:113-188 | every cell fits its declared column type, given string-or-missing people ids |
| Normalisation.FlattenRules | backend/routers/ingestion_leads/utils.py:113-188 | per kind, when the cell is `None` and what it holds otherwise (the select name, the first run's text, the date start, the number or string itself, the people ids); null rules: select → `None` iff no value or no name; rich text/title → `None` iff empty; date → `None` iff no value or no start; scalars → `None` iff `None`; people never `None` (same in ingestion_leads/main.py:90-165) |
| Normalisation.FirstRunOnly | backend/routers/ingestion_leads/utils.py:140-161 | a rich-text column keeps the first run's plain text and drops later runs |
| Normalisation.SelectColumnsAlwaysNull | backend/routers/ingestion_leads/utils.py:114-137 | after validation every select/status column is `None` |
| Normalisation.CoercedDateColumnsAlwaysNull | backend/routers/ingestion_leads/utils.py:164-173 | after validation date_appel_booke, date_appel_propose and date_relance are `None` |
| Normalisation.UncoercedDateColumnKeepsStart | backend/routers/ingestion_leads/utils.py:170-176 | date_prise_contact and date_reponse_prospect carry the parsed start date, which prints back as the input text |
| Normalisation.ColumnOfOutcome | backend/routers/ingestion_leads/utils.py:110-188 | the column of a field of a validated record is that field's validation outcome, flattened |
| Normalisation.TextColumnKeepsInput | backend/routers/ingestion_leads/utils.py:180-183 | email_pro, telephone, url_site_internet and url_linkedin, given a string, store that string |
| Normalisation.BudgetColumnKeepsInput | backend/routers/ingestion_leads/utils.py:179 | budget, given a number, stores that number |
| Normalisation.RichTextColumnKeepsFirstText | backend/routers/ingestion_leads/utils.py:139-161 | a rich-text or title column stores the `plain_text` of the first input element, or `None` for an empty list |
| Normalisation.PeopleColumnListsIds | backend/routers/ingestion_leads/utils.py:186-188 | the people column is never `None` and lists each person's `id` in order |
| DeltaLake.ScriptSchemaIsSchemaPolars | ingestion_leads/main.py:190-223 | the script's inline schema equals `SCHEMA_POLARS`, so its key set is the normalised row's |
| DeltaLake.BatchContent | backend/routers/ingestion_leads/utils.py:255 | every row of the batch is held under its own id |
| DeltaLake.BatchContentSpec | backend/routers/ingestion_leads/utils.py:255-258 | the batch content has exactly the batch's ids, each mapped to its row |
| DeltaLake.Merge | backend/routers/ingestion_leads/utils.py:263-272 | reference definition of the update-only merge on `id` (its properties are in `MergeKeepsKeys`, `MergeMatchedRow`, `MergeUnmatchedRow`) |
| DeltaLake.MergeTable | backend/routers/ingestion_leads/utils.py:263-272 | the merge commits a new version and keeps the previous content on disk |
| DeltaLake.Compact | backend/routers/ingestion_leads/utils.py:274 | compaction adds a version and keeps the superseded files |
| DeltaLake.Vacuum | backend/routers/ingestion_leads/utils.py:275 | vacuum with zero retention leaves no superseded version |
| DeltaLake.Written | backend/routers/ingestion_leads/utils.py:257-275 | reference definition of the store after a write: create when absent, else merge, compact and vacuum (its properties are in `WrittenStates`) |
| DeltaLake.DeltaStorage.Upsert | backend/routers/ingestion_leads/utils.py:255-275 | schema mismatch → error, store unchanged; absent path → batch written, no merge, compaction or vacuum; present path → merge, then compaction and vacuum (same in ingestion_leads/main.py:227-247) |
| DeltaLake.DeltaStorage.WriteToDeltaLake | backend/routers/ingestion_leads/utils.py:224-275 | writes at `backend/data_leads` whatever location is passed in |
| DeltaLake.DeltaStorage.WriteToDeltaLakeScript | ingestion_leads/main.py:189-247 | writes at `leads_data` with the inline schema |
| DeltaLake.MergeKeepsIds | backend/routers/ingestion_leads/utils.py:270 | update-all except `id` keeps every row keyed by its own id |
| DeltaLake.MergeKeepsKeys | backend/routers/ingestion_leads/utils.py:263-272 | update-only: the merged table has exactly the target's ids, none added and none removed |
| DeltaLake.MergeMatchedRow | backend/routers/ingestion_leads/utils.py:266-270 | a matched row takes every non-id column of its source row and keeps its id |
| DeltaLake.MergeUnmatchedRow | backend/routers/ingestion_leads/utils.py:263-272 | a target row that no source row matches is unchanged |
| DeltaLake.MergeIdempotent | backend/routers/ingestion_leads/utils.py:263-272 | merging the same batch twice gives the content of merging it once |
| DeltaLake.MergeWithItself | backend/routers/ingestion_leads/utils.py:263-272 | merging a table's own content into it changes nothing |
| DeltaLake.CompactAndVacuumKeepContent | backend/routers/ingestion_leads/utils.py:274-275 | compaction and vacuum change files, not content |
| DeltaLake.WrittenStates | backend/routers/ingestion_leads/utils.py:257-275 | only the written location changes; absent → exactly the batch; present → the merged content with no older version left |
| DeltaLake.RewriteIdempotent | backend/routers/ingestion_leads/utils.py:257-275 | re-running the same batch leaves the content of the first run |
| DeltaLake.StoredContentRewriteKeepsContent | backend/routers/ingestion_leads/utils.py:263-275 | since the store keeps every table keyed by id, writing a stored table's own content back leaves that content unchanged |
| DeltaLake.NormalisedBatchFits | backend/routers/ingestion_leads/utils.py:255 | normalised rows fit `SCHEMA_POLARS`, given string-or-missing people ids |
| Transformation.DateColsAreSchemaDates | backend/routers/transformation/main.py:14 | `DATE_COLS` is five distinct columns, exactly the schema's Date columns |
| Transformation.Aggregate | backend/routers/transformation/docs.py:14-43 | reference definition of the documented query result: one row per period holding an event, with its count per listed column |
| Transformation.Query | backend/routers/transformation/main.py:43-46 | no table → not-found; a non-empty list of distinct date columns → the documented aggregation of those columns; any other column list (empty, a repeated name, a name that is not a date column) → the engine's outcome, left open as the parameter `other` | 
| Transformation.CountDateByWeek | backend/routers/transformation/main.py:17-48 | no table → not-found; the caller's columns a non-empty list of distinct date columns → the weekly aggregation of those columns; any other column list (empty, repeated or not dates) → the open outcome `other` |
| Transformation.CountDateByMonth | backend/routers/transformation/main.py:51-82 | fails only, and always as not-found, when there is no table at the path; otherwise the monthly aggregation of `DATE_COLS` |
| Transformation.WeeklyUsesCallerColumns | backend/routers/transformation/main.py:43-44 | for a non-empty list of distinct date columns, the weekly handler aggregates exactly the caller's columns at the caller's path |
| Transformation.WeeklyEmptyOrRepeatedIsOpen | backend/routers/transformation/main.py:43-44 | an empty column list, or one naming a column twice, is rendered unchecked and its result is the open outcome `other`, not an aggregation |
| Transformation.MonthlyIgnoresDateCols | backend/routers/transformation/main.py:78 | the monthly result does not depend on `date_cols` and always aggregates `DATE_COLS` |
| Transformation.OutputRowShape | backend/routers/transformation/docs.py:26-43 | one output row per period holding an event; each has the period key and one count per listed column |
| Transformation.PeriodRowShape | backend/routers/transformation/docs.py:26-43 | one period's output row has exactly the period key and the listed columns; the period cell is the period and each column cell is its count |
| Transformation.CountZeroIff | backend/routers/transformation/docs.py:26-43 | a count is 0 exactly when no row has an event of that column in that period |
| Transformation.CountAppend | backend/routers/transformation/docs.py:14-17 | each non-null date adds exactly 1 to its column's count in its own period; nulls add nothing |
| Transformation.WeeklyBuckets | backend/routers/transformation/docs.py:16 | a date counts under Monday `m` iff it lies in `m .. m + 6` |
| Transformation.WeeklyKeysAreMondays | backend/routers/transformation/docs.py:16 | every weekly key is a Monday |
| Transformation.MonthlyBuckets | backend/routers/transformation/docs.py:14-17 | a date counts under its own year and month |
| Transformation.CountsSumToNonNull | backend/routers/transformation/docs.py:15-17 | over distinct periods covering all events, a column's counts sum to its non-null dates |
| Transformation.AggregateTotals | backend/routers/transformation/docs.py:15-17 | summed over the output's periods, each listed column's counts equal its number of non-null dates |
| Transformation.DocumentedFirstWeek | backend/routers/transformation/docs.py:27-34 | a lead contacted on 2025-10-01 gives exactly the documented first row: week 2025-09-29, date_prise_contact 1, others 0 |
| Transformation.ExampleLeadRow | backend/routers/transformation/docs.py:27-34 | the output row of week 2025-09-29 for that lead is the documented row, cell by cell |

## Left out

- Notion client calls (`databases.retrieve`, `data_sources.query`), the client object and the script's module-level execution are network I/O. The model takes the decoded responses as `Json` values.
- Delta Lake file I/O is library code: the existence check, `write_deltalake`, the physical merge, compaction and vacuum. A table is its content plus the superseded versions still on disk.
- `pl.from_dicts` coercion is library code and is modelled only as a check that every cell fits its declared column type. A failing batch is a schema-mismatch error.
- DeltaStorage.Upsert: requires distinct, string source ids. What the merge does with duplicate ids is the library's business.
- The Jinja templates, the SQL files and DuckDB are not part of this model. The aggregation is the documented contract, over the scanned rows of the stored table.
- Transformation.Query, Transformation.CountDateByWeek: the column names are rendered into the query text unchecked. For an empty column list, a list naming a column twice, or a list holding a name that is not a date column (a text column, an unknown name, or text that changes the query) the result is left open as the parameter `other`, not derived.
- Transformation.Query: the result is a map from period to output row. Row order, which the front end relies on (latest period last), and the rendering of the period as a timestamp string are not modelled.
- Parsing of date inputs: only `YYYY-MM-DD` strings are accepted. Pydantic's other date forms (datetimes at midnight, numbers as timestamps) are rejected here.
- LeadModel.ValidateField: Pydantic's lax-mode coercions are not modelled. `budget` (`Optional[float]`, backend/routers/ingestion_leads/model.py:154) accepts only a JSON number or null here; Pydantic also accepts a numeric string such as `"12.5"` or a bool, which the model rejects. (An integer where a float is declared is accepted, since JSON numbers are one kind here.)
- Extraction.Strategy, Extraction.ExtractProperty: `extract_property_values` takes any mapping from type tag to a callable. The model's registry holds only the two rule shapes the default table uses, reading a key with a `None` or a `[]` default, so a custom registry of arbitrary functions is not modelled. Every call site uses the default table.
- Property order inside a page is not modelled; the properties are a map. A property whose data is not a dict is folded into the unsupported-type error (Python raises an `AttributeError` there). Either way the batch is aborted.
- The `settings` defaults of the two handlers are left out. `settings.GCS_URI`, their default location, is not declared in `backend/core/config.py`.
- The FastAPI routers, OpenAPI objects, logging, pprint, the Reflex UI and the React components are plumbing or UI.
- Dates.DocumentedWeeks and Transformation.DocumentedFirstWeek: only the first documented output row is reproduced as a concrete computation. The second row needs non-zero counts for date_appel_booke and date_appel_propose, and those columns are `None` after validation as written.
