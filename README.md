# Survey ingestion and normalisation, modelled in Dafny

This project models how the ASC project entry/exit dashboard gets Qualtrics
survey responses into its `SurveyResponse` table. There are three ways in:

- the Qualtrics webhook (`qualtrics_webhook`), which decodes a loosely typed
  payload, stores only ending-project surveys and fills the NOT NULL metadata
  with fallbacks;
- the CSV upload endpoint (`import_qualtrics_csv`), which reads a Qualtrics
  export row by row, upserts each row by `response_id`, records failing rows
  under the label `index + 3` and counts creations;
- the `import_survey_data` management command, which does the same from a
  file path but skips rows without a survey type and computes display names
  and normalised columns itself.

All three end in `SurveyResponse.objects.update_or_create`. That call runs the
model's `save()`. `save()` fills an empty `project_mentor` and `topic` from the
mentor and topic codes. For ending surveys it also rescales the 1..5 agreement
answers and the 1..3 ratings onto [-1, 1].

Modules, in dependency order:

| file | module | what it holds |
|---|---|---|
| base.dfy | `Base` | `Option` and `Result` |
| text.dfy | `Text` | Python's `strip`, `lower`, `in`, `split('(')[0]`, `int()` and `float()` on text |
| scale.dfy | `Scale` | `normalize_value` and `normalize_rating` and the rescale behind them |
| survey.dfy | `Survey` | the `SurveyResponse` row; the class with its `save()`; the mentor and topic tables; the validators |
| storage.dfy | `Storage` | the table keyed by `response_id`; `update_or_create`; the NOT NULL columns |
| frame.dfy | `Frame` | reading a pandas row: NaN, a missing column (`KeyError`), `int()` and `float()` failures (`ValueError`) |
| batch.dfy | `Batch` | the row loop both CSV importers share |
| decoders.dfy | `Decoders` | the webhook's `safe_*` and `map_*` helpers |
| webhook.dfy | `Webhook` | `qualtrics_webhook` |
| csv_upload.dfy | `CsvUpload` | `import_qualtrics_csv` |
| import_command.dfy | `ImportCommand` | the `import_survey_data` command |

Imperative parts stay imperative:

- `SurveyResponse.save()` is a method of a Dafny class whose fields it
  updates.
- `update_or_create` is a method that builds or loads that object, assigns
  the defaults and saves it.
- The form-list collapsing loop and the CSV row loops are `while` loops.

Each method is proved against a function, and the properties are lemmas
about those functions.

Two inputs are passed in as parameters rather than read:

- the request time (`timezone.now()`) is a parameter `now`;
- the contents of `Mentor Values.txt` and `Topic Values.txt` are parameters
  holding the file's lines, or `None` when the file cannot be read.

A timestamp is kept as its text.

### Behaviour worth knowing

- **Missing response id.** A row without a response id is still stored:
  - the CSV paths store the text `"nan"`: the empty cell is the float NaN,
    and the `CharField` turns it into its `str()` when the row is looked up
    and saved (`Frame.EmptyCellReads`);
  - the webhook stores `""` (`Webhook.ResponseIdFallback`).
- **Survey type in the upload endpoint.** The endpoint does not check the
  type. It stores any integer `Q1.1`, and an empty `Q1.1` fails only because
  `survey_type` is NOT NULL (`CsvUpload.NoSurveyTypeFails`). The
  command skips such a row (`ImportCommand.BlankTypeRowIgnored`).
- **Counts.** Only creations are counted, in both CSV paths. An updated row
  adds nothing to `imported_count`.
- **Updates are not full replacements.** The upload endpoint's `defaults`
  have no `project_mentor`, `topic` or normalised columns. An update keeps the
  stored display names (`Storage.UpdateKeepsDisplayNames`). A normalised
  column is only overwritten when its answer is present.
- **Webhook display names.** The webhook passes the raw `Q3.3` and `Q3.8`
  values as `project_mentor` and `topic`. A truthy value is stored as its
  `str()`. A falsy one (missing, `''` or an empty list) leaves the name to
  `save()`, which derives it from the codes (`Webhook.WebhookSaved`). An
  empty list maps to no code, so the name is `''`, not the text `"[]"`
  (`Webhook.EmptyListDisplayName`).
- **Webhook rating `"0"`.** It is stored as 0 and normalised to -2: `save()`
  does not run the 1..3 validators (`Webhook.WebhookZeroRating`).
- **Webhook decoding failures.** An optional field that fails to decode
  becomes NULL. The one exception is an unreadable `Finished`: it leaves the
  NOT NULL `finished` NULL, so the write is refused (`Webhook.WebhookRejects`).
- **The form-data branch of the webhook.** Under Django REST framework's
  `@api_view`, `request.data` already holds the parsed form for form content,
  and `request.POST` is empty for any other content. So `not data and
  request.POST` (backend/surveys/views.py:333) never holds, and the branch is
  dead code. The model keeps the body and the form as two independent
  parameters of `Webhook.Received`, so it also covers combinations the
  framework never produces.

## Model

| member | source | states |
|---|---|---|
| Text.Strip | backend/surveys/views.py:384 | `str.strip()` over Python's whole whitespace set (the ASCII blanks, U+001C to U+001F, NEL, the no-break space and the Unicode spaces): the result neither starts nor ends with whitespace |
| Text.StripExact | backend/surveys/views.py:414 | whitespace, then a core that neither starts nor ends with whitespace, then whitespace, strips to exactly that core |
| Text.TrimStartPast | backend/surveys/views.py:414 | `lstrip()` removes a whitespace prefix and stops at the first other character |
| Text.TrimEndPast | backend/surveys/views.py:414 | `rstrip()` removes a whitespace suffix and stops at the last other character |
| Text.StripKeeps | backend/surveys/views.py:414 | a text without surrounding whitespace is its own strip |
| Text.StripTrailingBlank | backend/surveys/views.py:418 | a trailing blank is removed by the strip before the rating's number is read |
| Text.Lower | backend/surveys/views.py:384 | `str.lower()` keeps the length, turns each capital A to Z into its own lower-case letter (code + 32), and keeps every other character |
| Text.LowerIdempotent | backend/surveys/views.py:384 | lower-casing twice is lower-casing once |
| Text.OccursFromSound | backend/surveys/views.py:385 | the substring search finds a match exactly when one exists at some position |
| Text.Found | backend/surveys/views.py:385 | a match at a position makes `p in s` true |
| Text.ContainsTransitive | backend/surveys/views.py:401 | a text containing "neither agree nor disagree" contains whatever that phrase contains |
| Text.MissingChar | backend/surveys/views.py:397-406 | a phrase with a character absent from the text is not in it |
| Text.BeforeFirst | backend/surveys/views.py:418 | `split('(')[0]`: the longest prefix without `(`, followed by `(` when shorter than the text, and the whole text when it has no `(` |
| Text.BeforeFirstJoin | backend/surveys/views.py:418 | the part before the first `(` of `a + "(" + b` is `a` when `a` has no `(` |
| Text.ParseInt | backend/surveys/views.py:358 | `int()` on text skips Python's whitespace around the numeral and accepts only a non-empty text without `.` or `(` |
| Text.SignedDigitsPlain | backend/surveys/views.py:358 | a sign followed by digits holds no `.` and no `(` |
| Text.ParseIntOfStripped | backend/surveys/views.py:414-427 | stripping the text before `int()` changes nothing, and stripping twice is stripping once |
| Text.ParseIntAroundBlanks | backend/surveys/views.py:358 | any whitespace around a numeral, the no-break space included, is skipped: `int(ws + str(n) + ws) == n` |
| Text.ParseShowInt | backend/surveys/views.py:358 | `int(str(n)) == n` for every integer |
| Text.ParseShowIntBlank | backend/surveys/views.py:358 | `int()` ignores a trailing blank |
| Text.ParseIntThenDecimal | backend/surveys/management/commands/import_survey_data.py:55 | a text `int()` reads as n is read by `float()` as n |
| Scale.NormalizeValue | backend/surveys/models.py:197-201 | None stays None and a value gives a value |
| Scale.NormalizeRating | backend/surveys/models.py:203-207 | None stays None and a value gives a value |
| Scale.UnscaleRescale | backend/surveys/models.py:201 | the rescale is invertible: the original answer can be recovered |
| Scale.RescaleStrictlyIncreasing | backend/surveys/models.py:201 | the rescale preserves the order of answers strictly |
| Scale.RescaleEnds | backend/surveys/models.py:201 | the bottom of the scale maps to -1 and the top to 1 |
| Scale.RescaleWithin | backend/surveys/models.py:201 | an answer within its scale maps into [-1, 1] |
| Scale.NormalizeValueClosedForm | backend/surveys/models.py:197-201 | `normalize_value(v) == (v - 3) / 2`: 1, 3 and 5 give -1, 0 and 1 |
| Scale.NormalizeRatingClosedForm | backend/surveys/models.py:203-207 | `normalize_rating(v) == v - 2`: 1, 2 and 3 give -1, 0 and 1 |
| Scale.NormalizedWithinBounds | backend/surveys/models.py:197-207 | an agreement answer on 1..5 and a rating on 1..3 normalise into [-1, 1] |
| Survey.MentorNameFromChoice | backend/surveys/models.py:157-181 | choice 15 gives the typed name or "Other"; choices 1..14 give the table's name; the result is empty exactly when the choice is missing or outside 1..15 |
| Survey.TopicNameFromValue | backend/surveys/models.py:183-195 | the topic name is non-empty exactly when the type-dependent topic code is on 1..5, and is then that code's name |
| Survey.Derive | backend/surveys/models.py:209-244 | `save()` keeps the answers and non-empty display names, and changes normalised columns only on ending surveys |
| Survey.ApplyDefaultsIdempotent | backend/surveys/views.py:139-142 | assigning the same `defaults` twice is assigning them once |
| Survey.FullDefaultsReplace | backend/surveys/views.py:139-142 | `defaults` that hold the display names and the normalised group make the loaded row irrelevant: any two rows end up the same |
| Survey.PartialDefaultsKeep | backend/surveys/views.py:139-142 | `defaults` with only the answers replace the answers and keep the stored display names and normalised columns |
| Survey.SurveyResponse.constructor | backend/surveys/models.py:5-136 | the instance holds the given row |
| Survey.SurveyResponse.Assign | backend/surveys/views.py:139-142 | assigning the defaults to the instance gives the row `ApplyDefaults` describes |
| Survey.SurveyResponse.SetNormalized | backend/surveys/models.py:126-136 | the eleven normalised fields become the given group and nothing else changes |
| Survey.SurveyResponse.Save | backend/surveys/models.py:209-244 | after `save()` the instance is `Derive` of what it was |
| Survey.SurveyResponse.FillDisplayNames | backend/surveys/models.py:210-215 | an empty `project_mentor` or `topic` is filled from the codes; a non-empty one is kept |
| Survey.SurveyResponse.NormalizeEnding | backend/surveys/models.py:217-242 | each normalised field is refreshed from its answer when that answer is present |
| Survey.DeriveIdempotent | backend/surveys/models.py:209-244 | saving twice is the same as saving once |
| Survey.DeriveNormalizedIdempotent | backend/surveys/models.py:217-242 | refreshing the normalised group twice is the same as once |
| Survey.DeriveOnlyFills | backend/surveys/models.py:209-242 | `save()` only fills empty display names; each of the eleven normalised columns is set to its answer's rescale on an ending survey with that answer present, and otherwise keeps its stored value |
| Survey.CreatedDisplayNames | backend/surveys/models.py:210-215 | a new instance gets both display names from its mentor and topic codes |
| Survey.CreatedNormalized | backend/surveys/models.py:217-242 | a newly created ending survey has each normalised column present exactly when its answer is, and equal to its rescale; other types have none |
| Survey.ValueOnAxis | backend/surveys/models.py:39-70 | an agreement answer the 1..5 validators allow normalises into [-1, 1] |
| Survey.RatingOnAxis | backend/surveys/models.py:71-118 | a rating the 1..3 validators allow normalises into [-1, 1] |
| Survey.DeriveKeepsAxis | backend/surveys/models.py:209-244 | when the answers satisfy the validators, `save()` keeps every normalised column within [-1, 1] |
| Storage.UpdateOrCreate | backend/surveys/views.py:139-142 | load or build the instance, assign the defaults, save, and write unless a NOT NULL column is NULL; the result is `Upsert` |
| Storage.UpsertOutcome | backend/surveys/models.py:9-25 | the write fails exactly when a NOT NULL answer is NULL; otherwise the row is created exactly when its id is new, stored as `save()` derives it, and every other row is unchanged |
| Storage.UpsertAddsOne | backend/surveys/views.py:139-145 | a write keeps every key and adds one exactly when it reports a creation |
| Storage.ApplyDerived | backend/surveys/views.py:139-142 | assigning the same defaults to a saved row and saving again changes nothing |
| Storage.UpsertIdempotent | backend/surveys/views.py:139-142 | a second identical upsert reports "not created" and leaves the table unchanged |
| Storage.UpdateKeepsDisplayNames | backend/surveys/views.py:93-142 | when `defaults` has no `project_mentor` or `topic`, an update keeps non-empty stored display names whatever the new answers say |
| Frame.IntCell | backend/surveys/views.py:96 | `int(row[col]) if notna else None`: fails with `KeyError` for a missing column and `ValueError` for text `int()` rejects |
| Frame.BoolCell | backend/surveys/views.py:99 | `bool(int(...))` is true exactly for a non-zero integer; NaN gives the given fallback |
| Frame.FloatCell | backend/surveys/views.py:104 | `float(row[col]) if notna else None`; it fails exactly when the column is missing (`KeyError`) or `float()` rejects the text (`ValueError`) |
| Frame.StampCell | backend/surveys/views.py:94 | `pd.to_datetime(row[col])`: the cell as given, NaN as NULL |
| Frame.MissingColumnRaises | backend/surveys/views.py:94-135 | every cell reader raises `KeyError` for a column the file does not have |
| Frame.EmptyCellReads | backend/surveys/views.py:94-135 | an empty cell never raises: NULL for numbers and times, the fallback for booleans, `''` for guarded text and the text "nan" for unguarded text |
| Frame.FilledCellReads | backend/surveys/views.py:101-106 | a filled cell reaches both text readers and the time reader as it is |
| Batch.ImportRows | backend/surveys/views.py:89-149 | the loop's table, counter and error list are those `Run` gives for the rows |
| Batch.RunCountsCreations | backend/surveys/views.py:144-145 | `imported_count` equals the number of response ids added; no row is removed; counted plus failed rows never exceed the rows |
| Batch.StepCounts | backend/surveys/views.py:139-149 | one iteration keeps the counter equal to the number of added ids |
| Batch.AddedKeys | backend/surveys/views.py:144-145 | keys added over two steps split into those of each step |
| Batch.RunErrorRows | backend/surveys/views.py:147-148 | error labels are `index + 3` of actual rows, strictly increasing, so no row is reported twice |
| Batch.RunAfterFailure | backend/surveys/views.py:147-149 | a failing row is recorded once with its label and leaves the table and counter as they were |
| Batch.RunAfterSkip | backend/surveys/management/commands/import_survey_data.py:91-92 | a skipped row changes nothing |
| Decoders.AsText | backend/surveys/views.py:384 | `str(value)`: a text is itself; a list is shown in brackets |
| Decoders.SafeInt | backend/surveys/views.py:354-360 | None for a missing value, `''`, `'0'`, a list or text `int()` rejects; otherwise the text's integer |
| Decoders.SafeIntShow | backend/surveys/views.py:354-360 | an integer sent as text comes back, except 0, which is treated as missing |
| Decoders.SafeFloat | backend/surveys/views.py:363-369 | None for a missing value, `''`, `'0'` or a list; for any other text, exactly `float()` of the text |
| Decoders.SafeFloatOfInt | backend/surveys/views.py:354-369 | a value `safe_int` reads as n, `safe_float` reads as n |
| Decoders.SafeBool | backend/surveys/views.py:372-378 | a value exactly for a text `int()` accepts, and then whether that integer is non-zero |
| Decoders.SafeBoolShow | backend/surveys/views.py:372-378 | `safe_bool(str(n)) == (n != 0)`, so `'0'` is False, not missing |
| Decoders.SafeDatetime | backend/surveys/views.py:345-351 | a time exactly for a non-empty text, and then that text |
| Decoders.MapSurveyType | backend/surveys/views.py:381-390 | 1 exactly when the folded text contains "starting"; 2 exactly when it contains "ending" but not "starting"; None otherwise or when missing |
| Decoders.FoldLabel | backend/surveys/views.py:384 | lower-casing a label without surrounding blanks is its folded form |
| Decoders.StartingLabel | backend/surveys/views.py:381-390 | the Qualtrics label "Starting Project" maps to 1 |
| Decoders.EndingLabel | backend/surveys/views.py:381-390 | the label "Ending Project - Cohort 2" maps to 2 |
| Decoders.NeitherSubsumed | backend/surveys/views.py:401 | the long "neither agree nor disagree" test is subsumed by "neither" |
| Decoders.MapAgreementScale | backend/surveys/views.py:393-408 | a code is always within 1..5 and only for a truthy value |
| Decoders.ScaleCode | backend/surveys/views.py:397-408 | the phrase scan gives a code within 1..5 |
| Decoders.ScaleCodeFirstMatch | backend/surveys/views.py:397-408 | the scan gives the code of the first phrase, in source order, that the text contains ("neither agree nor disagree" counting as "neither"), and None exactly when it contains none |
| Decoders.AgreementFirstMatch | backend/surveys/views.py:393-408 | the code is that of the first phrase, in source order, that the folded text contains, and None exactly when it contains none |
| Decoders.StronglyDisagreeLabel | backend/surveys/views.py:397-398 | "Strongly Disagree" maps to 1 |
| Decoders.SomewhatDisagreeLabel | backend/surveys/views.py:399-400 | "Somewhat Disagree" maps to 2 |
| Decoders.NeitherLabel | backend/surveys/views.py:401-402 | "Neither Agree nor Disagree" maps to 3 |
| Decoders.SomewhatAgreeLabel | backend/surveys/views.py:403-404 | "Somewhat Agree" maps to 4, even though it contains "agree" after "somewhat" |
| Decoders.StronglyAgreeLabel | backend/surveys/views.py:405-406 | "Strongly Agree" maps to 5 |
| Decoders.MapRatingScale | backend/surveys/views.py:411-413 | a missing value and `''` give None |
| Decoders.RatingWithoutParen | backend/surveys/views.py:423-427 | a non-empty text without `(` reads as `int()` of the text |
| Decoders.RatingBeforeParen | backend/surveys/views.py:414-422 | a text whose stripped form has a `(` is read as `int()` of the stripped part before its first `(`, blanks around the whole text included |
| Decoders.RatingOfLabel | backend/surveys/views.py:411-422 | "n (caption)" reads as n for every integer n and caption |
| Decoders.RatingOfNumber | backend/surveys/views.py:423-427 | a bare integer text reads as itself |
| Decoders.ZeroRatingIsNotMissing | backend/surveys/views.py:354-427 | `"0"` is the rating 0, while `safe_int` treats it as missing |
| Decoders.RatingOfList | backend/surveys/views.py:411-427 | a list value is never a rating |
| Decoders.CleanRoster | backend/surveys/views.py:437 | the stripped roster has no blank names and is no longer than the file |
| Decoders.CleanRosterLine | backend/surveys/views.py:437 | one line gives its stripped text, or nothing when that is blank |
| Decoders.CleanRosterAppend | backend/surveys/views.py:437 | the roster of two runs of lines is the two rosters in order, so names keep the file's order |
| Decoders.CleanRosterMembers | backend/surveys/views.py:437 | a name is on the roster exactly when it is not blank and some line strips to it |
| Decoders.RosterIndexLast | backend/surveys/views.py:440 | the name-to-position dictionary holds exactly the roster's names, each at its last 1-based position |
| Decoders.MapMentorToInt | backend/surveys/views.py:430-444 | a mentor code lies on 0..the roster's length, and is 0 only for an empty roster |
| Decoders.MentorLookup | backend/surveys/views.py:430-444 | the mentor code is the name's last 1-based position, or the roster length ("Other") for an unknown name; None exactly for an empty name, an unreadable file or a list |
| Decoders.MapTopicToInt | backend/surveys/views.py:447-461 | a topic code is at least 1 and, when not the fallback 1, at most the roster's length |
| Decoders.TopicLookup | backend/surveys/views.py:447-461 | the topic code is the name's last 1-based position, or 1 for an unknown name; None exactly for an empty name, an unreadable file or a list |
| Decoders.DistinctRosterPosition | backend/surveys/views.py:440-441 | on a roster without repeats, the k-th name has code k + 1 |
| Webhook.GetTextIsGetOrDefault | backend/surveys/views.py:489-499 | `data.get(key, default)` is `data.get(key)` with the default in place of a missing key, and a present key's value does not depend on the default |
| Webhook.Collapsed | backend/surveys/views.py:335-339 | every one-item list becomes its item, the other values are unchanged, and the keys are the same |
| Webhook.CollapseFormLists | backend/surveys/views.py:335-339 | the loop over `data.items()` gives exactly `Collapsed` |
| Webhook.Received | backend/surveys/views.py:317-339 | an empty body with form data gives `Collapsed` of the form data (same keys); a non-empty body, or an empty form, gives the body |
| Webhook.ReceivedData | backend/surveys/views.py:317-339 | the method computes `Received` |
| Webhook.CollapsedValues | backend/surveys/views.py:337-339 | a field sent once reads as its only value; a field sent any other number of times stays the list of its values |
| Webhook.OrDefault | backend/surveys/views.py:481-487 | `x or default`: always a value; the default exactly when x is NULL or 0, x itself otherwise |
| Webhook.QualtricsWebhook | backend/surveys/views.py:313-545 | the endpoint's reply and new table are those `Webhook` gives for the received payload |
| Webhook.RespondGate | backend/surveys/views.py:468-475 | a submission is skipped exactly when its type is not 2, and then the reply carries its type and the table is unchanged |
| Webhook.RespondOutcome | backend/surveys/views.py:529-545 | an ending survey is refused exactly when a NOT NULL column is NULL; otherwise it is stored under its id as `save()` derives it, and reported as created exactly when the id is new |
| Webhook.StartingSubmissionSkipped | backend/surveys/views.py:468-475 | a "Starting Project" submission is skipped with type 1 and leaves the table alone |
| Webhook.EndingSubmissionPasses | backend/surveys/views.py:468-469 | an "Ending Project - Cohort 2" submission passes the gate |
| Webhook.WebhookCounters | backend/surveys/views.py:481-487 | status, progress and duration always have a value: missing, `''` or zero gives 1, 100 and 0; a non-zero integer is kept; a missing `StartDate`, `EndDate` or `RecordedDate` is the request time |
| Webhook.WebhookFinished | backend/surveys/views.py:486 | `finished` is True when absent, and otherwise whether the sent integer is non-zero |
| Webhook.WebhookRejects | backend/surveys/views.py:486-552 | an ending survey is refused exactly when it sends a `Finished` that `safe_bool` cannot read |
| Webhook.WebhookSaved | backend/surveys/views.py:489-531 | a stored submission is keyed by `ResponseId`/`ResponseID`, holds the decoded answers, keeps a truthy raw `Q3.3`/`Q3.8` value as its display name (its `str()`), and for a falsy one (missing, `''`, `[]`) stores the name derived from the mentor or topic code |
| Webhook.EmptyListDisplayName | backend/surveys/views.py:499-503 | an empty list sent as `Q3.3` or `Q3.8` is stored as the display name `''`, not as the text `"[]"` |
| Webhook.ResponseIdFallback | backend/surveys/views.py:489 | a non-empty `ResponseId` wins; otherwise `ResponseID`; "" when both are absent |
| Webhook.RespondCreatedNormalized | backend/surveys/views.py:529-531 | a newly stored ending survey has each normalised column present exactly when its answer is, and equal to its rescale |
| Webhook.WebhookCreatedNormalized | backend/surveys/views.py:512-531 | the same for a submission: the normalised columns are the rescales of the decoded answers |
| Webhook.WebhookAgreementOnAxis | backend/surveys/views.py:512-514 | each of the three decoded agreement answers (Q3.9, Q3.10, Q3.11) lies on 1..5, and its normalised value on [-1, 1] |
| Webhook.WebhookZeroRating | backend/surveys/views.py:516 | a rating sent as `"0"` is stored as 0, breaks the 1..3 validator, and normalises to -2 |
| Webhook.WebhookRedelivery | backend/surveys/views.py:529-545 | redelivering a stored submission reports it as updated and leaves the table as the first delivery left it |
| Webhook.PoorRatingLabel | backend/surveys/views.py:415-420 | the label "1 (Poor)" reads as 1 and normalises to -1 |
| CsvUpload.DataRowsSkipHeader | backend/surveys/views.py:84 | `df.iloc[2:]`: the file is its two header rows followed by the data rows in order, and a file of at most two rows has no data rows |
| CsvUpload.MetadataOnly | backend/surveys/views.py:93-136 | the answers start from the twelve metadata values given, each in its own column, and every `Q2.x`/`Q3.x` question column is unanswered (`''` or None) |
| CsvUpload.ReadMetadata | backend/surveys/views.py:94-105 | the read metadata carries `int(Q1.1)` (or None) as its survey type |
| CsvUpload.ReadStartingQuestions | backend/surveys/views.py:106-116 | reading the starting questions keeps the type and the response id |
| CsvUpload.ReadEndingQuestions | backend/surveys/views.py:118-135 | reading the ending questions leaves the earlier columns unchanged, and the topic code, agreement answers and ratings are the integers of `Q3.8` to `Q3.12_8` |
| CsvUpload.ReadRatings | backend/surveys/views.py:126-133 | the eight ratings are the integers of `Q3.12_1` to `Q3.12_8`, and the other columns are unchanged |
| CsvUpload.UploadAnswers | backend/surveys/views.py:93-136 | the answers of a row carry `int(Q1.1)` as their type |
| CsvUpload.Summarize | backend/surveys/views.py:151-156 | at most the first ten errors are shown, in order, and `total_errors` counts all of them |
| CsvUpload.ImportQualtricsCsv | backend/surveys/views.py:70-156 | the new table and the reply are those the row loop gives for the data rows |
| CsvUpload.UploadRowOutcome | backend/surveys/views.py:91-149 | a row fails exactly when reading it raises or a NOT NULL column is NULL; a written row is created exactly when its id is new and adds at most itself |
| CsvUpload.NoSurveyTypeFails | backend/surveys/views.py:105-142 | a row without a `Q1.1` fails, because `survey_type` is NOT NULL |
| CsvUpload.UploadCountsCreations | backend/surveys/views.py:86-155 | the reported count is the number of response ids added; none is removed; counted plus failed rows never exceed the data rows |
| ImportCommand.GetMentorName | backend/surveys/management/commands/import_survey_data.py:13-37 | choice 15 gives the typed name or "Other"; no choice or 0 gives "" |
| ImportCommand.GetTopicName | backend/surveys/management/commands/import_survey_data.py:39-48 | a code in the table gives its name; anything else gives "" |
| ImportCommand.MentorNamesAgree | backend/surveys/management/commands/import_survey_data.py:13-37 | the command names a mentor exactly as `save()` would |
| ImportCommand.TopicNamesAgree | backend/surveys/management/commands/import_survey_data.py:39-48 | the command names a topic exactly as `save()` would for the same type-dependent code |
| ImportCommand.NormalizeCell | backend/surveys/management/commands/import_survey_data.py:50-68 | None exactly for NaN, `''` or text `float()` rejects; otherwise the rescale of the number |
| ImportCommand.NormalizeCellOfInt | backend/surveys/management/commands/import_survey_data.py:50-68 | for a cell read as an integer, the command's normalisation equals the model's |
| ImportCommand.CommandNormalizedMatches | backend/surveys/management/commands/import_survey_data.py:161-171 | the command's eleven normalised columns are those `save()` derives from the answers read |
| ImportCommand.ReadMentor | backend/surveys/management/commands/import_survey_data.py:97-102 | the mentor is read from `Q2.3`/`Q2.3.a` on a starting survey and from `Q3.3`/`Q3.3.a` otherwise |
| ImportCommand.ChosenTextReads | backend/surveys/management/commands/import_survey_data.py:128-129 | a type-chosen text is the starting column's cell for type 1, the ending column's for type 2, and "" otherwise |
| ImportCommand.ChosenTextRaises | backend/surveys/management/commands/import_survey_data.py:128-131 | the type-chosen readers raise only for a missing column of the row's own type |
| ImportCommand.ReadStartingAnswers | backend/surveys/management/commands/import_survey_data.py:135-140 | the starting answers are read and the earlier columns are kept |
| ImportCommand.CommandAnswers | backend/surveys/management/commands/import_survey_data.py:114-159 | the answers carry the given type and mentor, the type-dependent texts, and the integers of the ending questions |
| ImportCommand.CommandDefaults | backend/surveys/management/commands/import_survey_data.py:96-172 | the defaults' display names are those `save()` would derive, and the normalised group matches the answers |
| ImportCommand.Handle | backend/surveys/management/commands/import_survey_data.py:70-191 | the count, the errors and the new table are those the row loop gives for the data rows |
| ImportCommand.CommandRowOutcome | backend/surveys/management/commands/import_survey_data.py:88-187 | a row is skipped exactly when `Q1.1` is empty and fails exactly when reading raises or a NOT NULL column is NULL; a written row is created exactly when its id is new |
| ImportCommand.CommandStoredRow | backend/surveys/management/commands/import_survey_data.py:174-178 | a written row holds display names that agree with its own answers and matching normalised columns, on an update as on a creation, and other rows are kept |
| ImportCommand.CommandColumnsByType | backend/surveys/management/commands/import_survey_data.py:128-131 | `a_number` and `project_title` come from Q2.x for type 1, Q3.x for type 2, and are "" otherwise; `mentor_other_text` is "" unless type 1 |
| ImportCommand.CommandCountsCreations | backend/surveys/management/commands/import_survey_data.py:86-191 | the success count is the number of ids added; none is removed; counted plus failed rows never exceed the data rows |
| ImportCommand.BlankTypeRowIgnored | backend/surveys/management/commands/import_survey_data.py:90-92 | a row with an empty `Q1.1` leaves the table, count and errors unchanged |

### Definitions

These members have no contract of their own. The lemmas named describe them.

- `Survey.Blank` (backend/surveys/models.py:9-136): `Survey.CreatedDisplayNames`, `Survey.CreatedNormalized`.
- `Survey.ApplyDefaults` (backend/surveys/views.py:139-142): `Survey.ApplyDefaultsIdempotent`, `Survey.FullDefaultsReplace`, `Survey.PartialDefaultsKeep`, `Storage.UpdateKeepsDisplayNames`.
- `Survey.TopicCode` (backend/surveys/models.py:194): `Survey.TopicNameFromValue`, `ImportCommand.TopicNamesAgree`.
- `Survey.RefreshValue`, `Survey.RefreshRating` (backend/surveys/models.py:217-242): `Survey.DeriveOnlyFills`, `Survey.CreatedNormalized`.
- `Survey.DeriveNormalized` (backend/surveys/models.py:217-242): `Survey.DeriveOnlyFills`, `Survey.DeriveNormalizedIdempotent`, `Survey.CreatedNormalized`.
- `Storage.MissingRequired` (backend/surveys/models.py:9-26): `Storage.UpsertOutcome`, `Webhook.RespondOutcome`, `CsvUpload.UploadRowOutcome`, `CsvUpload.NoSurveyTypeFails`.
- `Storage.Loaded` (backend/surveys/views.py:139-142): `Storage.UpsertOutcome`, `Storage.UpdateKeepsDisplayNames`, `Survey.CreatedDisplayNames`.
- `Storage.Upsert` (backend/surveys/views.py:139-142): `Storage.UpsertOutcome`, `Storage.UpsertAddsOne`, `Storage.UpsertIdempotent`, and `Storage.UpdateOrCreate`, which computes it.
- `Batch.Run` (backend/surveys/views.py:89-149): `Batch.RunCountsCreations`, `Batch.RunErrorRows`, `Batch.RunAfterFailure`, `Batch.RunAfterSkip`, and `Batch.ImportRows`, which computes it.
- `Text.ParseDecimal` (backend/surveys/management/commands/import_survey_data.py:55): `Text.ParseIntThenDecimal`, `Decoders.SafeFloatOfInt`.
- `Text.Contains` (backend/surveys/views.py:385-388): `Text.OccursFromSound`, `Text.Found`, `Text.ContainsTransitive`, `Text.MissingChar`.
- `Decoders.Folded` (backend/surveys/views.py:384 and 396): `Decoders.FoldLabel`, `Decoders.MapSurveyType`, `Decoders.ScaleCodeFirstMatch`, `Decoders.AgreementFirstMatch`.
- `Decoders.RosterIndex` (backend/surveys/views.py:440): `Decoders.RosterIndexLast`, `Decoders.MentorLookup`, `Decoders.TopicLookup`.
- `Batch.Step` (backend/surveys/views.py:139-149, backend/surveys/management/commands/import_survey_data.py:175-187): `Batch.StepCounts`, `Batch.RunAfterFailure`, `Batch.RunAfterSkip`, `Batch.RunErrorRows`.
- `ImportCommand.Lookup` (backend/surveys/management/commands/import_survey_data.py:161-171): `ImportCommand.CommandNormalizedMatches`, `ImportCommand.CommandDefaults`.
- `Frame.Cell`, `Frame.TextCell`, `Frame.RawText` (backend/surveys/views.py:94-135): `Frame.MissingColumnRaises`, `Frame.EmptyCellReads`, `Frame.FilledCellReads`.
- `Webhook.Get`, `Webhook.GetText` (backend/surveys/views.py:468-525): `Webhook.GetTextIsGetOrDefault`, `Webhook.ResponseIdFallback`.
- `Webhook.RawDisplay` (backend/surveys/views.py:499-503): `Webhook.WebhookSaved`, `Webhook.EmptyListDisplayName`.
- `Webhook.Unwrapped` (backend/surveys/views.py:337-339): `Webhook.CollapsedValues`, `Webhook.Collapsed`.
- `Webhook.ResponseIdOf` (backend/surveys/views.py:489): `Webhook.ResponseIdFallback`, `Webhook.WebhookSaved`.
- `Webhook.StampOf` (backend/surveys/views.py:481-487): `Webhook.WebhookCounters`.
- `Webhook.WebhookAnswers` and `Webhook.WebhookDefaults` (backend/surveys/views.py:479-526): `Webhook.WebhookCounters`, `Webhook.WebhookFinished`, `Webhook.WebhookSaved`, `Webhook.WebhookCreatedNormalized`, `Webhook.WebhookAgreementOnAxis`, `Webhook.WebhookZeroRating`.
- `Webhook.Respond` and `Webhook.Webhook` (backend/surveys/views.py:468-545): `Webhook.RespondGate`, `Webhook.RespondOutcome`, `Webhook.RespondCreatedNormalized`, `Webhook.WebhookRejects`, `Webhook.WebhookRedelivery`, and `Webhook.QualtricsWebhook`, which computes them.
- `CsvUpload.DataRows` (backend/surveys/views.py:84): `CsvUpload.DataRowsSkipHeader`.
- `CsvUpload.UploadRow` (backend/surveys/views.py:91-149): `CsvUpload.UploadRowOutcome`, `CsvUpload.NoSurveyTypeFails`.
- `ImportCommand.ChosenText`, `ImportCommand.StartingOnlyText` (backend/surveys/management/commands/import_survey_data.py:128-131): `ImportCommand.ChosenTextReads`, `ImportCommand.ChosenTextRaises`, `ImportCommand.CommandColumnsByType`.
- `ImportCommand.ReadTopic` (backend/surveys/management/commands/import_survey_data.py:107-110): `ImportCommand.CommandDefaults`, `ImportCommand.TopicNamesAgree`.
- `ImportCommand.CommandNormalized` (backend/surveys/management/commands/import_survey_data.py:161-171): `ImportCommand.CommandNormalizedMatches`, `ImportCommand.CommandDefaults`.
- `ImportCommand.CommandRow` (backend/surveys/management/commands/import_survey_data.py:88-187): `ImportCommand.CommandRowOutcome`, `ImportCommand.CommandStoredRow`, `ImportCommand.BlankTypeRowIgnored`.

## Left out

- Decoders.SafeDatetime: any non-empty text counts as a readable time. The model does not capture `pd.to_datetime` rejecting malformed text (which the webhook turns into the request time) or its reading of list values.
- Frame.StampCell: a CSV time cell is kept as its text. `pd.to_datetime` rejecting malformed text, which fails the row, is not modelled.
- Timestamps are compared as texts. Time zones and datetime normalisation are not modelled.
- Decoders.AsText: `str(list)` is modelled with single quotes around each item, without Python's escaping of quotes inside items.
- Text.ParseInt: accepts an optional sign and ASCII digits, with Python's whitespace around them. Underscores, non-ASCII digits, `int()` of a float and the limit of 4300 digits on converting text are not modelled.
- Text.Lower: folds only the ASCII capitals A to Z. Python's `lower()` also folds other capitals, some of them to ASCII letters (the Kelvin sign U+212A becomes `k`, and U+0130 becomes `i` plus a combining dot), so a non-ASCII label can fold differently.
- Storage.Upsert: integers are unbounded. A value outside a column's range is not modelled: PostgreSQL's 32-bit `integer` columns refuse it, SQLite raises `OverflowError` beyond 64 bits, and `save()` raises `OverflowError` when an answer too large for a float is rescaled. Each of these would fail the row.
- `float()` is modelled on optionally signed decimals with an optional fraction. Exponents, `inf`, `nan` and digit-grouping underscores (`float("1_0")` is 10.0) are not, and floats are exact `real`s with no rounding.
- Payload values other than text and lists of texts (JSON numbers, booleans, null and nested objects) are not modelled, nor the conversion of a non-dict body at backend/surveys/views.py:328-330. `request.POST` is modelled as a map of lists, without QueryDict's other behaviour.
- `max_length` of the text columns is not enforced. On PostgreSQL an over-long value makes the write fail, so that row is an error; SQLite stores the whole text. The model stores every text whole, as SQLite does.
- The debug prints, the messages, the HTTP status codes and the serializer check on the uploaded file are left out. So are `pd.read_csv` failures, the `os.path.exists` check, the outer `except` that turns them into an error reply, and the command's console output.
- Reading `Mentor Values.txt` and `Topic Values.txt` is I/O: their lines, or their absence, are parameters.
- `timezone.now()` is a parameter.
- Concurrency and `transaction.atomic` are not modelled. Each `update_or_create` is atomic, with the table unchanged on failure, and rows run sequentially.
- Newer Django versions that save an updated row with `update_fields` are not modelled. The model saves every column, as the whole instance is saved.
- The top-level `surveys` app, the admin, the serializers, the list and summary views and the React front end are not part of this model.
- `created_at` and `updated_at` are not modelled. They are set by Django and nothing in the import paths reads them.
