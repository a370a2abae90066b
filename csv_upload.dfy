/**
 * `import_qualtrics_csv` (backend/surveys/views.py): every data row of an
 * uploaded Qualtrics export is turned into the columns of a response and
 * upserted by `response_id`; a row that raises is reported and skipped, and
 * the loop carries on. Only rows that create a response are counted.
 */
module CsvUpload {
  import opened Base
  import opened Frame
  import opened Survey
  import opened Storage
  import opened Batch

  /** The JSON body of the reply. */
  datatype Summary = Summary(importedCount: nat, errors: seq<RowError>, totalErrors: nat)

  /** The most errors the reply lists. */
  const ShownErrors: nat := 10

  /** `df.iloc[2:]`: the two rows under the header (question texts and import ids) are dropped. */
  function DataRows(table: seq<Row>): seq<Row> {
    if |table| >= 2 then table[2..] else []
  }

  /** Every question column, `Q2.x` and `Q3.x`, is unanswered: an empty text or no value. */
  ghost predicate Unanswered(a: Answers) {
    && a.aNumber == "" && a.projectTitle == "" && a.mentorChoice.None? && a.mentorOtherText == ""
    && a.mentorName == "" && a.isFirstProject.None? && a.topicsWorkingOn.None?
    && a.confidenceTopics.None? && a.enoughResources.None? && a.hopeToGain == ""
    && a.additionalCommentsStarting == "" && a.gainedLearned == "" && a.whatWentWell == ""
    && a.whatCouldImprove == "" && a.topicsWorkedOn.None? && a.hardSkillsImproved.None?
    && a.softSkillsImproved.None? && a.confidenceJobPlacement.None? && a.ratingOnboarding.None?
    && a.ratingInitiation.None? && a.ratingMentorship.None? && a.ratingTeam.None?
    && a.ratingCommunications.None? && a.ratingExpectations.None? && a.ratingSponsor.None?
    && a.ratingWorkload.None? && a.recommendAsc.None? && a.additionalCommentsEnding == ""
  }

  /** The response with only its Qualtrics metadata and survey type set; the question columns are empty. */
  function MetadataOnly(
    startDate: Timestamp, endDate: Timestamp, status: Option<int>, progress: Option<int>,
    duration: Option<int>, finished: Option<bool>, recordedDate: Timestamp, responseId: string,
    channel: string, language: string, recaptcha: Option<real>, surveyType: Option<int>): (a: Answers)
    ensures a.startDate == startDate && a.endDate == endDate && a.recordedDate == recordedDate
    ensures a.status == status && a.progress == progress && a.durationSeconds == duration
    ensures a.finished == finished && a.responseId == responseId && a.distributionChannel == channel
    ensures a.userLanguage == language && a.recaptchaScore == recaptcha && a.surveyType == surveyType
    ensures Unanswered(a)
  {
    Answers(
      startDate, endDate, status, progress, duration, finished, recordedDate,
      responseId, channel, language, recaptcha, surveyType,
      "", "", None, "", "", None, None, None, None, "", "",
      "", "", "", None, None, None, None, None, None, None, None, None, None, None, None, None, "")
  }

  /** The metadata columns and `Q1.1`, read in the order of the `response_data` literal. */
  function ReadMetadata(row: Row): (r: Result<Answers, Cause>)
    ensures r.Ok? ==> IntCell(row, "Q1.1").Ok? && r.value.surveyType == IntCell(row, "Q1.1").value
  {
    var startDate :- StampCell(row, "StartDate");
    var endDate :- StampCell(row, "EndDate");
    var status :- IntCell(row, "Status");
    var progress :- IntCell(row, "Progress");
    var duration :- IntCell(row, "Duration (in seconds)");
    var finished :- BoolCell(row, "Finished", Some(false));
    var recordedDate :- StampCell(row, "RecordedDate");
    var responseId :- RawText(row, "ResponseId");
    var channel :- RawText(row, "DistributionChannel");
    var language :- RawText(row, "UserLanguage");
    var recaptcha :- FloatCell(row, "Q_RecaptchaScore");
    var surveyType :- IntCell(row, "Q1.1");
    Ok(MetadataOnly(startDate, endDate, status, progress, duration, finished, recordedDate,
      responseId, channel, language, recaptcha, surveyType))
  }

  /** The starting-survey questions `Q2.1` to `Q2.10`, read whatever the survey type. */
  function ReadStartingQuestions(row: Row, a: Answers): (r: Result<Answers, Cause>)
    ensures r.Ok? ==> r.value.surveyType == a.surveyType && r.value.responseId == a.responseId
  {
    var aNumber :- TextCell(row, "Q2.1");
    var projectTitle :- TextCell(row, "Q2.2");
    var mentorChoice :- IntCell(row, "Q2.3");
    var mentorOtherText :- TextCell(row, "Q2.3_20_TEXT");
    var mentorName :- TextCell(row, "Q2.3.a");
    var isFirstProject :- BoolCell(row, "Q2.4", None);
    var topicsWorkingOn :- IntCell(row, "Q2.6");
    var confidenceTopics :- IntCell(row, "Q2.7");
    var enoughResources :- IntCell(row, "Q2.8");
    var hopeToGain :- TextCell(row, "Q2.9");
    var commentsStarting :- TextCell(row, "Q2.10");
    Ok(a.(aNumber := aNumber, projectTitle := projectTitle, mentorChoice := mentorChoice,
      mentorOtherText := mentorOtherText, mentorName := mentorName, isFirstProject := isFirstProject,
      topicsWorkingOn := topicsWorkingOn, confidenceTopics := confidenceTopics,
      enoughResources := enoughResources, hopeToGain := hopeToGain,
      additionalCommentsStarting := commentsStarting))
  }

  /** `b` keeps the metadata, the common columns and the starting answers of `a`. */
  predicate KeepsNonEnding(b: Answers, a: Answers) {
    && b.surveyType == a.surveyType && b.responseId == a.responseId && b.finished == a.finished
    && b.aNumber == a.aNumber && b.projectTitle == a.projectTitle && b.mentorChoice == a.mentorChoice
    && b.mentorOtherText == a.mentorOtherText && b.mentorName == a.mentorName
    && b.topicsWorkingOn == a.topicsWorkingOn
  }

  /** The eight category ratings of `a` are the integers of the row's `Q3.12_1` to `Q3.12_8` cells. */
  predicate RatingsFrom(row: Row, a: Answers) {
    && IntCell(row, "Q3.12_1") == Ok(a.ratingOnboarding)
    && IntCell(row, "Q3.12_2") == Ok(a.ratingInitiation)
    && IntCell(row, "Q3.12_3") == Ok(a.ratingMentorship)
    && IntCell(row, "Q3.12_4") == Ok(a.ratingTeam)
    && IntCell(row, "Q3.12_5") == Ok(a.ratingCommunications)
    && IntCell(row, "Q3.12_6") == Ok(a.ratingExpectations)
    && IntCell(row, "Q3.12_7") == Ok(a.ratingSponsor)
    && IntCell(row, "Q3.12_8") == Ok(a.ratingWorkload)
  }

  /** The topic, the three agreement answers and the ratings of `a` are the integers of the row's cells. */
  predicate EndingScalesFrom(row: Row, a: Answers) {
    && IntCell(row, "Q3.8") == Ok(a.topicsWorkedOn)
    && IntCell(row, "Q3.9") == Ok(a.hardSkillsImproved)
    && IntCell(row, "Q3.10") == Ok(a.softSkillsImproved)
    && IntCell(row, "Q3.11") == Ok(a.confidenceJobPlacement)
    && RatingsFrom(row, a)
  }

  /** The ending-survey questions `Q3.5` to `Q3.14`, read whatever the survey type. */
  function ReadEndingQuestions(row: Row, a: Answers): (r: Result<Answers, Cause>)
    ensures r.Ok? ==> KeepsNonEnding(r.value, a) && EndingScalesFrom(row, r.value)
  {
    var gainedLearned :- TextCell(row, "Q3.5");
    var wentWell :- TextCell(row, "Q3.6");
    var couldImprove :- TextCell(row, "Q3.7");
    var topicsWorkedOn :- IntCell(row, "Q3.8");
    var hardSkills :- IntCell(row, "Q3.9");
    var softSkills :- IntCell(row, "Q3.10");
    var confidenceJob :- IntCell(row, "Q3.11");
    var ratings :- ReadRatings(row, a);
    var recommend :- IntCell(row, "Q3.13");
    var commentsEnding :- TextCell(row, "Q3.14");
    Ok(ratings.(gainedLearned := gainedLearned, whatWentWell := wentWell, whatCouldImprove := couldImprove,
      topicsWorkedOn := topicsWorkedOn, hardSkillsImproved := hardSkills, softSkillsImproved := softSkills,
      confidenceJobPlacement := confidenceJob, recommendAsc := recommend,
      additionalCommentsEnding := commentsEnding))
  }

  /** The eight category ratings `Q3.12_1` to `Q3.12_8`. */
  function ReadRatings(row: Row, a: Answers): (r: Result<Answers, Cause>)
    ensures r.Ok? ==> KeepsNonEnding(r.value, a) && RatingsFrom(row, r.value)
  {
    var onboarding :- IntCell(row, "Q3.12_1");
    var initiation :- IntCell(row, "Q3.12_2");
    var mentorship :- IntCell(row, "Q3.12_3");
    var team :- IntCell(row, "Q3.12_4");
    var communications :- IntCell(row, "Q3.12_5");
    var expectations :- IntCell(row, "Q3.12_6");
    var sponsor :- IntCell(row, "Q3.12_7");
    var workload :- IntCell(row, "Q3.12_8");
    Ok(a.(ratingOnboarding := onboarding, ratingInitiation := initiation, ratingMentorship := mentorship,
      ratingTeam := team, ratingCommunications := communications, ratingExpectations := expectations,
      ratingSponsor := sponsor, ratingWorkload := workload))
  }

  /**
   * The columns of one row, read in the order the `response_data` literal
   * reads them, so the first cell that raises decides the row's error.
   * Every question column is read, whatever the survey type.
   */
  function UploadAnswers(row: Row): (r: Result<Answers, Cause>)
    ensures r.Ok? ==> IntCell(row, "Q1.1").Ok? && r.value.surveyType == IntCell(row, "Q1.1").value
  {
    var meta :- ReadMetadata(row);
    var starting :- ReadStartingQuestions(row, meta);
    ReadEndingQuestions(row, starting)
  }

  /**
   * One row through `update_or_create`: the new table and whether the row
   * was created, or the exception the row raised. Only the answer columns
   * are in `defaults`, so an update leaves `project_mentor` and `topic` as
   * they were. No row is skipped.
   */
  function UploadRow(store: Store, row: Row): RowResult {
    match UploadAnswers(row)
    case Err(c) => Failed(c)
    case Ok(a) =>
      match Upsert(store, Defaults(a, None, None, None))
      case Ok((s, created)) => Written(s, created)
      case Err(_) => Failed(IntegrityError)
  }

  /** The reply: the first ten errors, and the number of all of them. */
  function Summarize(p: Progress): (s: Summary)
    ensures |s.errors| <= ShownErrors && s.totalErrors == |p.errors|
    ensures |s.errors| <= |p.errors| && s.errors == p.errors[..|s.errors|]
    ensures |p.errors| <= ShownErrors ==> s.errors == p.errors
  {
    Summary(p.imported, if |p.errors| > ShownErrors then p.errors[..ShownErrors] else p.errors, |p.errors|)
  }

  /**
   * The upload: the data rows go through the shared row loop, and the reply
   * shows the first ten errors, or `[]` when there are none.
   */
  method ImportQualtricsCsv(store: Store, table: seq<Row>) returns (reply: Summary, result: Store)
    ensures result == Run(UploadRow, store, DataRows(table)).store
    ensures reply == Summarize(Run(UploadRow, store, DataRows(table)))
  {
    var p := ImportRows(UploadRow, store, DataRows(table));
    var errors := p.errors;
    reply := Summary(p.imported, if errors != [] then (if |errors| > ShownErrors then errors[..ShownErrors] else errors) else [], |errors|);
    result := p.store;
  }

  // ---------------------------------------------------------------------------
  // Properties of the upload
  // ---------------------------------------------------------------------------

  /**
   * A row fails exactly when reading its cells raises or a NOT NULL column
   * is NULL; a row that is read and written is created exactly when its
   * `response_id` is new, and the write adds at most that row.
   */
  lemma UploadRowOutcome(store: Store, row: Row)
    ensures UploadRow(store, row).Failed? <==>
      UploadAnswers(row).Err? || MissingRequired(UploadAnswers(row).value)
    ensures UploadRow(store, row).Written? ==>
      (UploadRow(store, row).created <==> UploadAnswers(row).value.responseId !in store)
    ensures WritesOneRow(store, UploadRow(store, row))
  {
    match UploadAnswers(row)
    case Err(_) =>
    case Ok(a) =>
      UpsertOutcome(store, Defaults(a, None, None, None));
      UpsertAddsOne(store, Defaults(a, None, None, None));
  }

  /**
   * The two rows under the header never reach the row loop, every later row
   * reaches it in file order, and a file of at most two rows imports nothing.
   */
  lemma DataRowsSkipHeader(table: seq<Row>)
    ensures |table| >= 2 ==> table == table[..2] + DataRows(table)
    ensures |table| <= 2 ==> DataRows(table) == []
  {
  }

  /** A row with no `Q1.1` column, or with an empty `Q1.1` cell, is never imported. */
  lemma NoSurveyTypeFails(store: Store, row: Row)
    requires "Q1.1" !in row || row["Q1.1"].None?
    ensures UploadRow(store, row).Failed?
  {
    UploadRowOutcome(store, row);
  }

  /**
   * `imported_count` is the number of response ids the upload added, no
   * stored response is removed, and imported rows plus errors never exceed
   * the data rows.
   */
  lemma UploadCountsCreations(store: Store, table: seq<Row>)
    ensures store.Keys <= Run(UploadRow, store, DataRows(table)).store.Keys
    ensures Summarize(Run(UploadRow, store, DataRows(table))).importedCount ==
      |Run(UploadRow, store, DataRows(table)).store.Keys - store.Keys|
    ensures Summarize(Run(UploadRow, store, DataRows(table))).importedCount +
      Summarize(Run(UploadRow, store, DataRows(table))).totalErrors <= |DataRows(table)|
  {
    forall s, row ensures WritesOneRow(s, UploadRow(s, row)) {
      UploadRowOutcome(s, row);
    }
    RunCountsCreations(UploadRow, store, DataRows(table));
  }
}
