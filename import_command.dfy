/**
 * The `import_survey_data` management command
 * (backend/surveys/management/commands/import_survey_data.py): rows of a
 * Qualtrics export are imported like the upload endpoint's, except that a
 * row with an empty `Q1.1` is skipped, the mentor and topic are read from
 * the survey's own questions, some text columns depend on the survey type,
 * and the display names and the normalised group are computed here and
 * passed in `defaults`.
 */
module ImportCommand {
  import opened Base
  import opened Text
  import opened Frame
  import opened Survey
  import opened Storage
  import opened Batch
  import CsvUpload
  import Scale

  // ---------------------------------------------------------------------------
  // Display names and normalisation
  // ---------------------------------------------------------------------------

  /**
   * `get_mentor_name`: choice 15 gives the typed name, or "Other" when it is
   * empty; a non-zero choice in the table gives the table's name; anything
   * else gives "". The command's table is the model's mentor table.
   */
  function GetMentorName(choice: Option<int>, text: string): (name: string)
    ensures choice == Some(OtherMentor) ==> name == (if text != "" then text else "Other")
    ensures choice.None? || choice == Some(0) ==> name == ""
  {
    if choice == Some(OtherMentor) then (if text != "" then text else "Other")
    else if choice.Some? && choice.value != 0 && choice.value in MentorNames then MentorNames[choice.value]
    else ""
  }

  /** `get_topic_name`: `topic_mapping.get(topic_value, '')`. */
  function GetTopicName(value: Option<int>): (name: string)
    ensures value.None? ==> name == ""
    ensures value.Some? && value.value in TopicNames ==> name == TopicNames[value.value]
  {
    if value.Some? && value.value in TopicNames then TopicNames[value.value] else ""
  }

  /** The command names a mentor exactly as `save()` would from the same choice and typed name. */
  lemma MentorNamesAgree(a: Answers)
    ensures GetMentorName(a.mentorChoice, a.mentorName) == MentorNameFromChoice(a)
  {
  }

  /** The command names a topic exactly as `save()` would from the same code. */
  lemma TopicNamesAgree(a: Answers)
    ensures GetTopicName(TopicCode(a)) == TopicNameFromValue(a)
  {
  }

  /**
   * `normalize_value` and `normalize_rating` of the command, on a raw cell:
   * NaN, an empty text and a text `float()` rejects give None; any other
   * text is read as a number and rescaled from lo..hi onto [-1, 1].
   */
  function NormalizeCell(cell: Option<string>, lo: int, hi: int): (r: Option<real>)
    requires lo < hi
    ensures r.None? <==> cell.None? || cell.value == "" || ParseDecimal(cell.value).None?
    ensures r.Some? ==> r.value == Scale.Rescale(ParseDecimal(cell.value).value, lo, hi)
  {
    match cell
    case None => None
    case Some(s) =>
      if s == "" then None
      else
        match ParseDecimal(s)
        case Some(x) => Some(Scale.Rescale(x, lo, hi))
        case None => None
  }

  /**
   * A cell the integer reader accepts normalises in the command as the
   * model's `normalize_value` and `normalize_rating` normalise its integer.
   */
  lemma NormalizeCellOfInt(row: Row, column: string)
    requires IntCell(row, column).Ok?
    ensures NormalizeCell(row[column], Scale.ValueMin, Scale.ValueMax) == Scale.NormalizeValue(IntCell(row, column).value)
    ensures NormalizeCell(row[column], Scale.RatingMin, Scale.RatingMax) == Scale.NormalizeRating(IntCell(row, column).value)
  {
    if row[column].Some? {
      var s := row[column].value;
      var n := ParseInt(s).value;
      ParseIntThenDecimal(s, n);
      assert s != "";
    }
  }

  /**
   * The cell of a column already read from the row. Every column passed here
   * was read earlier in the row, so a missing one has already raised.
   */
  function Lookup(row: Row, column: string): Option<string> {
    if column in row then row[column] else None
  }

  /** The eleven normalised columns the command computes from the raw cells. */
  function CommandNormalized(row: Row): Normalized {
    Normalized(
      NormalizeCell(Lookup(row, "Q3.9"), Scale.ValueMin, Scale.ValueMax),
      NormalizeCell(Lookup(row, "Q3.10"), Scale.ValueMin, Scale.ValueMax),
      NormalizeCell(Lookup(row, "Q3.11"), Scale.ValueMin, Scale.ValueMax),
      NormalizeCell(Lookup(row, "Q3.12_1"), Scale.RatingMin, Scale.RatingMax),
      NormalizeCell(Lookup(row, "Q3.12_2"), Scale.RatingMin, Scale.RatingMax),
      NormalizeCell(Lookup(row, "Q3.12_3"), Scale.RatingMin, Scale.RatingMax),
      NormalizeCell(Lookup(row, "Q3.12_4"), Scale.RatingMin, Scale.RatingMax),
      NormalizeCell(Lookup(row, "Q3.12_5"), Scale.RatingMin, Scale.RatingMax),
      NormalizeCell(Lookup(row, "Q3.12_6"), Scale.RatingMin, Scale.RatingMax),
      NormalizeCell(Lookup(row, "Q3.12_7"), Scale.RatingMin, Scale.RatingMax),
      NormalizeCell(Lookup(row, "Q3.12_8"), Scale.RatingMin, Scale.RatingMax))
  }

  /**
   * When the answers were read from the row, the normalised group the
   * command computes is the one `save()` derives from those answers.
   */
  lemma {:induction false} CommandNormalizedMatches(row: Row, a: Answers)
    requires CsvUpload.EndingScalesFrom(row, a)
    ensures NormalizedMatchesAnswers(a, CommandNormalized(row))
  {
    NormalizeCellOfInt(row, "Q3.9");
    NormalizeCellOfInt(row, "Q3.10");
    NormalizeCellOfInt(row, "Q3.11");
    NormalizeCellOfInt(row, "Q3.12_1");
    NormalizeCellOfInt(row, "Q3.12_2");
    NormalizeCellOfInt(row, "Q3.12_3");
    NormalizeCellOfInt(row, "Q3.12_4");
    NormalizeCellOfInt(row, "Q3.12_5");
    NormalizeCellOfInt(row, "Q3.12_6");
    NormalizeCellOfInt(row, "Q3.12_7");
    NormalizeCellOfInt(row, "Q3.12_8");
  }

  // ---------------------------------------------------------------------------
  // Reading a row
  // ---------------------------------------------------------------------------

  /** The mentor choice and typed mentor name, from `Q2.3`/`Q2.3.a` on a starting survey and `Q3.3`/`Q3.3.a` otherwise. */
  function ReadMentor(row: Row, surveyType: int): (r: Result<(Option<int>, string), Cause>)
    ensures r.Ok? ==> IntCell(row, if surveyType == Starting then "Q2.3" else "Q3.3") == Ok(r.value.0)
    ensures r.Ok? ==> TextCell(row, if surveyType == Starting then "Q2.3.a" else "Q3.3.a") == Ok(r.value.1)
  {
    var choice :- IntCell(row, if surveyType == Starting then "Q2.3" else "Q3.3");
    var name :- TextCell(row, if surveyType == Starting then "Q2.3.a" else "Q3.3.a");
    Ok((choice, name))
  }

  /** The topic code, from `Q2.6` on a starting survey and `Q3.8` otherwise. */
  function ReadTopic(row: Row, surveyType: int): Result<Option<int>, Cause> {
    IntCell(row, if surveyType == Starting then "Q2.6" else "Q3.8")
  }

  /**
   * `a_number` and `project_title`: the starting question's cell on a
   * starting survey, the ending question's on an ending survey, and "" for
   * any other type or an empty cell. Only the column of the survey's own
   * type is read.
   */
  function ChosenText(row: Row, surveyType: int, startingColumn: string, endingColumn: string): Result<string, Cause> {
    if surveyType == Starting then TextCell(row, startingColumn)
    else if surveyType == Ending then TextCell(row, endingColumn)
    else Ok("")
  }

  /** `mentor_other_text`: read from `Q2.3_20_TEXT` on a starting survey only; "" otherwise. */
  function StartingOnlyText(row: Row, surveyType: int, column: string): Result<string, Cause> {
    if surveyType == Starting then TextCell(row, column) else Ok("")
  }

  /** What a type-chosen reader returns when it does not raise. */
  lemma ChosenTextReads(row: Row, surveyType: int, startingColumn: string, endingColumn: string, text: string)
    requires ChosenText(row, surveyType, startingColumn, endingColumn) == Ok(text)
    ensures surveyType == Starting ==> text == row[startingColumn].GetOr("")
    ensures surveyType == Ending ==> text == row[endingColumn].GetOr("")
    ensures surveyType != Starting && surveyType != Ending ==> text == ""
  {
  }

  /**
   * The type-chosen readers raise only for a missing column of the row's own
   * survey type; the other type's column may be absent from the file.
   */
  lemma ChosenTextRaises(row: Row, surveyType: int, startingColumn: string, endingColumn: string, column: string)
    ensures ChosenText(row, surveyType, startingColumn, endingColumn).Err? <==>
      (surveyType == Starting && startingColumn !in row) || (surveyType == Ending && endingColumn !in row)
    ensures ChosenText(row, surveyType, startingColumn, endingColumn).Err? ==>
      ChosenText(row, surveyType, startingColumn, endingColumn).error ==
        KeyError(if surveyType == Starting then startingColumn else endingColumn)
    ensures StartingOnlyText(row, surveyType, column).Err? <==> surveyType == Starting && column !in row
  {
  }

  /** The starting answers `Q2.4` and `Q2.6` to `Q2.10`; the columns read before them are kept. */
  function ReadStartingAnswers(row: Row, a: Answers): (r: Result<Answers, Cause>)
    ensures r.Ok? ==> CsvUpload.KeepsNonEnding(r.value, a.(topicsWorkingOn := r.value.topicsWorkingOn))
    ensures r.Ok? ==> IntCell(row, "Q2.6") == Ok(r.value.topicsWorkingOn)
  {
    var isFirstProject :- BoolCell(row, "Q2.4", None);
    var topicsWorkingOn :- IntCell(row, "Q2.6");
    var confidenceTopics :- IntCell(row, "Q2.7");
    var enoughResources :- IntCell(row, "Q2.8");
    var hopeToGain :- TextCell(row, "Q2.9");
    var commentsStarting :- TextCell(row, "Q2.10");
    Ok(a.(isFirstProject := isFirstProject, topicsWorkingOn := topicsWorkingOn,
      confidenceTopics := confidenceTopics, enoughResources := enoughResources,
      hopeToGain := hopeToGain, additionalCommentsStarting := commentsStarting))
  }

  /**
   * The answer columns of `response_data`, read in the order of the literal
   * after the mentor and topic: the metadata, the type-dependent texts, the
   * starting answers, and the ending answers.
   */
  function CommandAnswers(row: Row, surveyType: int, mentor: (Option<int>, string)): (r: Result<Answers, Cause>)
    ensures r.Ok? ==> r.value.surveyType == Some(surveyType)
    ensures r.Ok? ==> r.value.mentorChoice == mentor.0 && r.value.mentorName == mentor.1
    ensures r.Ok? ==> ChosenText(row, surveyType, "Q2.1", "Q3.1") == Ok(r.value.aNumber)
    ensures r.Ok? ==> ChosenText(row, surveyType, "Q2.2", "Q3.2") == Ok(r.value.projectTitle)
    ensures r.Ok? ==> StartingOnlyText(row, surveyType, "Q2.3_20_TEXT") == Ok(r.value.mentorOtherText)
    ensures r.Ok? ==> IntCell(row, "Q2.6") == Ok(r.value.topicsWorkingOn)
    ensures r.Ok? ==> CsvUpload.EndingScalesFrom(row, r.value)
  {
    var meta :- CsvUpload.ReadMetadata(row);
    var aNumber :- ChosenText(row, surveyType, "Q2.1", "Q3.1");
    var projectTitle :- ChosenText(row, surveyType, "Q2.2", "Q3.2");
    var otherText :- StartingOnlyText(row, surveyType, "Q2.3_20_TEXT");
    var starting :- ReadStartingAnswers(row, meta.(
      surveyType := Some(surveyType), aNumber := aNumber, projectTitle := projectTitle,
      mentorChoice := mentor.0, mentorOtherText := otherText, mentorName := mentor.1));
    CsvUpload.ReadEndingQuestions(row, starting)
  }

  /** The `defaults` of one row: the answers, the display names and the normalised group. */
  function CommandDefaults(row: Row, surveyType: int): (r: Result<Defaults, Cause>)
    ensures r.Ok? ==> r.value.answers.surveyType == Some(surveyType)
    ensures r.Ok? ==> r.value.projectMentor == Some(MentorNameFromChoice(r.value.answers))
    ensures r.Ok? ==> r.value.topic == Some(TopicNameFromValue(r.value.answers))
    ensures r.Ok? ==> r.value.normalized.Some? && NormalizedMatchesAnswers(r.value.answers, r.value.normalized.value)
  {
    var mentor :- ReadMentor(row, surveyType);
    var topicValue :- ReadTopic(row, surveyType);
    var a :- CommandAnswers(row, surveyType, mentor);
    MentorNamesAgree(a);
    TopicNamesAgree(a);
    CommandNormalizedMatches(row, a);
    Ok(Defaults(a, Some(GetMentorName(mentor.0, mentor.1)), Some(GetTopicName(topicValue)), Some(CommandNormalized(row))))
  }

  /**
   * One iteration of the command's loop: a missing `Q1.1` column or a text
   * `int()` rejects fails the row, an empty `Q1.1` skips it, and otherwise
   * the row is read and upserted.
   */
  function CommandRow(store: Store, row: Row): RowResult {
    match IntCell(row, "Q1.1")
    case Err(c) => Failed(c)
    case Ok(None) => Skipped
    case Ok(Some(surveyType)) =>
      match CommandDefaults(row, surveyType)
      case Err(c) => Failed(c)
      case Ok(d) =>
        match Upsert(store, d)
        case Ok((s, created)) => Written(s, created)
        case Err(_) => Failed(IntegrityError)
  }

  /**
   * `Command.handle` after the file is read: the data rows go through the
   * shared row loop; the result is the number of created responses, the
   * failed rows with their labels, and the new table.
   */
  method Handle(store: Store, table: seq<Row>) returns (imported: nat, errors: seq<RowError>, result: Store)
    ensures Progress(result, imported, errors) == Run(CommandRow, store, CsvUpload.DataRows(table))
  {
    var p := ImportRows(CommandRow, store, CsvUpload.DataRows(table));
    imported, errors, result := p.imported, p.errors, p.store;
  }

  // ---------------------------------------------------------------------------
  // Properties of the command
  // ---------------------------------------------------------------------------

  /**
   * A row is skipped exactly when its `Q1.1` cell is empty; it fails exactly
   * when reading it raises or a NOT NULL column is NULL; a written row is
   * created exactly when its `response_id` is new, and adds at most itself.
   */
  lemma CommandRowOutcome(store: Store, row: Row)
    ensures CommandRow(store, row).Skipped? <==> "Q1.1" in row && row["Q1.1"].None?
    ensures CommandRow(store, row).Failed? <==>
      || IntCell(row, "Q1.1").Err?
      || (IntCell(row, "Q1.1").value.Some? &&
          (CommandDefaults(row, IntCell(row, "Q1.1").value.value).Err? ||
           MissingRequired(CommandDefaults(row, IntCell(row, "Q1.1").value.value).value.answers)))
    ensures WritesOneRow(store, CommandRow(store, row))
    ensures CommandRow(store, row).Written? ==>
      (CommandRow(store, row).created <==>
        CommandDefaults(row, IntCell(row, "Q1.1").value.value).value.answers.responseId !in store)
  {
    match IntCell(row, "Q1.1")
    case Err(_) =>
    case Ok(None) =>
    case Ok(Some(t)) =>
      match CommandDefaults(row, t)
      case Err(_) =>
      case Ok(d) =>
        UpsertOutcome(store, d);
        UpsertAddsOne(store, d);
  }

  /**
   * A written row holds display names that agree with its own answers and a
   * normalised group computed from them, whatever the survey type and
   * whether it was created or updated; every other row is kept.
   */
  lemma CommandStoredRow(store: Store, row: Row)
    requires CommandRow(store, row).Written?
    ensures
      var t := IntCell(row, "Q1.1").value.value;
      var a := CommandDefaults(row, t).value.answers;
      var s := CommandRow(store, row).store;
      && a.responseId in s
      && s[a.responseId].answers == a
      && s[a.responseId].projectMentor == MentorNameFromChoice(a)
      && s[a.responseId].topic == TopicNameFromValue(a)
      && NormalizedMatchesAnswers(a, s[a.responseId].normalized)
      && (forall k :: k in store && k != a.responseId ==> s[k] == store[k])
  {
    var t := IntCell(row, "Q1.1").value.value;
    var d := CommandDefaults(row, t).value;
    UpsertOutcome(store, d);
    DeriveNormalizedIdempotent(d.answers, d.normalized.value);
  }

  /**
   * The type-dependent columns: a starting survey takes `a_number` and
   * `project_title` from `Q2.1`/`Q2.2`, an ending survey from `Q3.1`/`Q3.2`,
   * any other type leaves them ""; `mentor_other_text` is "" unless the
   * survey is a starting one.
   */
  lemma CommandColumnsByType(row: Row, surveyType: int)
    requires CommandDefaults(row, surveyType).Ok?
    ensures
      var a := CommandDefaults(row, surveyType).value.answers;
      && (surveyType == Starting ==> a.aNumber == row["Q2.1"].GetOr("") && a.projectTitle == row["Q2.2"].GetOr(""))
      && (surveyType == Ending ==> a.aNumber == row["Q3.1"].GetOr("") && a.projectTitle == row["Q3.2"].GetOr(""))
      && (surveyType != Starting && surveyType != Ending ==> a.aNumber == "" && a.projectTitle == "")
      && (surveyType == Starting ==> a.mentorOtherText == row["Q2.3_20_TEXT"].GetOr(""))
      && (surveyType != Starting ==> a.mentorOtherText == "")
  {
    var mentor := ReadMentor(row, surveyType).value;
    var a := CommandAnswers(row, surveyType, mentor).value;
    ChosenTextReads(row, surveyType, "Q2.1", "Q3.1", a.aNumber);
    ChosenTextReads(row, surveyType, "Q2.2", "Q3.2", a.projectTitle);
  }

  /**
   * The success count is the number of response ids the command added, no
   * stored response is removed, and counted rows plus failed rows never
   * exceed the data rows.
   */
  lemma CommandCountsCreations(store: Store, table: seq<Row>)
    ensures store.Keys <= Run(CommandRow, store, CsvUpload.DataRows(table)).store.Keys
    ensures Run(CommandRow, store, CsvUpload.DataRows(table)).imported ==
      |Run(CommandRow, store, CsvUpload.DataRows(table)).store.Keys - store.Keys|
    ensures Run(CommandRow, store, CsvUpload.DataRows(table)).imported +
      |Run(CommandRow, store, CsvUpload.DataRows(table)).errors| <= |CsvUpload.DataRows(table)|
  {
    forall s, row ensures WritesOneRow(s, CommandRow(s, row)) {
      CommandRowOutcome(s, row);
    }
    RunCountsCreations(CommandRow, store, CsvUpload.DataRows(table));
  }

  /** A row with an empty `Q1.1` leaves the table, the count and the errors exactly as they were. */
  lemma BlankTypeRowIgnored(store: Store, rows: seq<Row>, row: Row)
    requires "Q1.1" in row && row["Q1.1"].None?
    ensures Run(CommandRow, store, rows + [row]) == Run(CommandRow, store, rows)
  {
    CommandRowOutcome(Run(CommandRow, store, rows).store, row);
    RunAfterSkip(CommandRow, store, rows, row);
  }
}
