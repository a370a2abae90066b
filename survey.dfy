/**
 * The stored survey response (`SurveyResponse` in backend/surveys/models.py):
 * its columns, the mentor and topic display-name tables, and the `save()`
 * hook that fills the derived columns before the row is written.
 */
module Survey {
  import opened Base
  import Scale

  /** A timestamp column, kept opaque: the text it was parsed from, or None for no time. */
  type Timestamp = Option<string>

  /** Survey type codes of the `survey_type` choices. */
  const Starting: int := 1
  const Ending: int := 2

  /** Mentor choice code whose display name is the free-text mentor name ("Other"). */
  const OtherMentor: int := 15

  /**
   * Every column a channel supplies from a submission. Timestamp, integer
   * and boolean columns are Option: None is SQL NULL. The three timestamps,
   * `finished`, `status`, `progress`, `duration_seconds` and `survey_type`
   * are NOT NULL in the table.
   */
  datatype Answers = Answers(
    // Qualtrics metadata
    startDate: Timestamp,
    endDate: Timestamp,
    status: Option<int>,
    progress: Option<int>,
    durationSeconds: Option<int>,
    finished: Option<bool>,
    recordedDate: Timestamp,
    responseId: string,
    distributionChannel: string,
    userLanguage: string,
    recaptchaScore: Option<real>,
    surveyType: Option<int>,
    // common to both survey types
    aNumber: string,
    projectTitle: string,
    mentorChoice: Option<int>,
    mentorOtherText: string,
    mentorName: string,
    // starting-project survey
    isFirstProject: Option<bool>,
    topicsWorkingOn: Option<int>,
    confidenceTopics: Option<int>,
    enoughResources: Option<int>,
    hopeToGain: string,
    additionalCommentsStarting: string,
    // ending-project survey
    gainedLearned: string,
    whatWentWell: string,
    whatCouldImprove: string,
    topicsWorkedOn: Option<int>,
    hardSkillsImproved: Option<int>,
    softSkillsImproved: Option<int>,
    confidenceJobPlacement: Option<int>,
    ratingOnboarding: Option<int>,
    ratingInitiation: Option<int>,
    ratingMentorship: Option<int>,
    ratingTeam: Option<int>,
    ratingCommunications: Option<int>,
    ratingExpectations: Option<int>,
    ratingSponsor: Option<int>,
    ratingWorkload: Option<int>,
    recommendAsc: Option<int>,
    additionalCommentsEnding: string)

  /** The eleven `normalized_*` columns, each NULL or a value on [-1, 1]. */
  datatype Normalized = Normalized(
    hardSkills: Option<real>,
    softSkills: Option<real>,
    confidence: Option<real>,
    onboarding: Option<real>,
    initiation: Option<real>,
    mentorship: Option<real>,
    team: Option<real>,
    communications: Option<real>,
    expectations: Option<real>,
    sponsor: Option<real>,
    workload: Option<real>)

  /** All normalised columns NULL, as on a newly created row. */
  const NoNormalized: Normalized :=
    Normalized(None, None, None, None, None, None, None, None, None, None, None)

  /** One row of the survey table. */
  datatype StoredResponse = StoredResponse(
    answers: Answers,
    projectMentor: string,
    topic: string,
    normalized: Normalized)

  /** The row Django builds before `save()` when only the answers are given. */
  function Blank(a: Answers): StoredResponse {
    StoredResponse(a, "", "", NoNormalized)
  }

  // ---------------------------------------------------------------------------
  // Display-name tables
  // ---------------------------------------------------------------------------

  /** The mentor table of `get_mentor_name_from_choice`. */
  const MentorNames: map<int, string> := map[
    1 := "Andy Brim",
    2 := "Tyler Brough",
    3 := "Polly Conrad",
    4 := "Chris Corcoran",
    5 := "Doug Derrick",
    6 := "Morgan Diederich",
    7 := "Marc Dotson",
    8 := "Kelly Fadel",
    9 := "Carly Fox",
    10 := "Chelsea Harding",
    11 := "Pedram Jahangiry",
    12 := "Sharad Jones",
    13 := "Toa Pita",
    14 := "Brinley Zabriskie",
    15 := "Other"]

  /** The topic table of `get_topic_name_from_value`. */
  const TopicNames: map<int, string> := map[
    1 := "Data Engineering and Visualization",
    2 := "Business Intelligence and Analytics",
    3 := "Machine Learning and AI",
    4 := "Predictive and Advanced Analytics",
    5 := "Software Development and Web Design"]

  /**
   * `get_mentor_name_from_choice`: choice 15 ("Other") shows the free-text
   * mentor name, or "Other" when that is empty; choices 1..14 show the table
   * name; NULL, 0 and any other code show nothing.
   */
  function MentorNameFromChoice(a: Answers): (name: string)
    ensures a.mentorChoice == Some(OtherMentor) ==>
              name == (if a.mentorName != "" then a.mentorName else "Other")
    ensures a.mentorChoice.Some? && 1 <= a.mentorChoice.value < OtherMentor ==>
              name == MentorNames[a.mentorChoice.value]
    ensures name == "" <==> (a.mentorChoice.None? || !(1 <= a.mentorChoice.value <= OtherMentor))
  {
    match a.mentorChoice
    case Some(c) =>
      if c == OtherMentor then (if a.mentorName != "" then a.mentorName else "Other")
      else if c != 0 && c in MentorNames then MentorNames[c]
      else ""
    case None => ""
  }

  /** The topic code the display name is read from: the starting or the ending question. */
  function TopicCode(a: Answers): Option<int> {
    if a.surveyType == Some(Starting) then a.topicsWorkingOn else a.topicsWorkedOn
  }

  /**
   * `get_topic_name_from_value`: the topic code of the survey's own question
   * (`topics_working_on` for a starting survey, `topics_worked_on` otherwise)
   * mapped through the table; anything outside 1..5 shows nothing.
   */
  function TopicNameFromValue(a: Answers): (name: string)
    ensures name != "" <==> TopicCode(a).Some? && 1 <= TopicCode(a).value <= 5
    ensures name != "" ==> name == TopicNames[TopicCode(a).value]
  {
    match TopicCode(a)
    case Some(c) => if c in TopicNames then TopicNames[c] else ""
    case None => ""
  }

  // ---------------------------------------------------------------------------
  // The save() hook
  // ---------------------------------------------------------------------------

  /** One normalised column after `save()`: recomputed when its source is present, else kept. */
  function RefreshValue(current: Option<real>, source: Option<int>): Option<real> {
    if source.Some? then Scale.NormalizeValue(source) else current
  }

  function RefreshRating(current: Option<real>, source: Option<int>): Option<real> {
    if source.Some? then Scale.NormalizeRating(source) else current
  }

  /** The normalised columns after `save()`; only ending surveys are touched. */
  function DeriveNormalized(a: Answers, n: Normalized): Normalized {
    if a.surveyType == Some(Ending) then
      Normalized(
        RefreshValue(n.hardSkills, a.hardSkillsImproved),
        RefreshValue(n.softSkills, a.softSkillsImproved),
        RefreshValue(n.confidence, a.confidenceJobPlacement),
        RefreshRating(n.onboarding, a.ratingOnboarding),
        RefreshRating(n.initiation, a.ratingInitiation),
        RefreshRating(n.mentorship, a.ratingMentorship),
        RefreshRating(n.team, a.ratingTeam),
        RefreshRating(n.communications, a.ratingCommunications),
        RefreshRating(n.expectations, a.ratingExpectations),
        RefreshRating(n.sponsor, a.ratingSponsor),
        RefreshRating(n.workload, a.ratingWorkload))
    else
      n
  }

  /**
   * What `save()` does to a row before writing it: an empty `project_mentor`
   * or `topic` is filled from the display-name tables, and on an ending survey
   * each normalised column whose answer is present is recomputed.
   */
  function Derive(r: StoredResponse): (d: StoredResponse)
    ensures d.answers == r.answers
    ensures r.projectMentor != "" ==> d.projectMentor == r.projectMentor
    ensures r.topic != "" ==> d.topic == r.topic
    ensures r.answers.surveyType != Some(Ending) ==> d.normalized == r.normalized
  {
    StoredResponse(
      r.answers,
      if r.projectMentor == "" then MentorNameFromChoice(r.answers) else r.projectMentor,
      if r.topic == "" then TopicNameFromValue(r.answers) else r.topic,
      DeriveNormalized(r.answers, r.normalized))
  }

  // ---------------------------------------------------------------------------
  // The `defaults` of update_or_create
  // ---------------------------------------------------------------------------

  /**
   * The `defaults` a channel passes to `update_or_create`: every answer
   * column, and, only from the channels that supply them, the display names
   * and the normalised group. A None here is a column left out of the dict.
   */
  datatype Defaults = Defaults(
    answers: Answers,
    projectMentor: Option<string>,
    topic: Option<string>,
    normalized: Option<Normalized>)

  /** The row after `setattr` of every key of `defaults`; columns not given keep their values. */
  function ApplyDefaults(r: StoredResponse, d: Defaults): StoredResponse {
    StoredResponse(d.answers, d.projectMentor.GetOr(r.projectMentor), d.topic.GetOr(r.topic),
      d.normalized.GetOr(r.normalized))
  }

  /** Assigning the same defaults twice is assigning them once. */
  lemma ApplyDefaultsIdempotent(r: StoredResponse, d: Defaults)
    ensures ApplyDefaults(ApplyDefaults(r, d), d) == ApplyDefaults(r, d)
  {
  }

  /**
   * Defaults that carry the display names and the normalised group overwrite
   * every column: the row they were assigned to no longer matters.
   */
  lemma FullDefaultsReplace(r: StoredResponse, r': StoredResponse, d: Defaults)
    requires d.projectMentor.Some? && d.topic.Some? && d.normalized.Some?
    ensures ApplyDefaults(r, d) == ApplyDefaults(r', d)
  {
  }

  /**
   * Defaults without the display names and the normalised group replace only
   * the answers: those three keep the values of the row they were assigned to.
   */
  lemma PartialDefaultsKeep(r: StoredResponse, d: Defaults)
    requires d.projectMentor.None? && d.topic.None? && d.normalized.None?
    ensures ApplyDefaults(r, d) == r.(answers := d.answers)
  {
  }

  /** A `SurveyResponse` model instance, whose `save()` assigns its derived fields in place. */
  class SurveyResponse {
    var answers: Answers
    var projectMentor: string
    var topic: string
    var normalizedHardSkills: Option<real>
    var normalizedSoftSkills: Option<real>
    var normalizedConfidence: Option<real>
    var normalizedOnboarding: Option<real>
    var normalizedInitiation: Option<real>
    var normalizedMentorship: Option<real>
    var normalizedTeam: Option<real>
    var normalizedCommunications: Option<real>
    var normalizedExpectations: Option<real>
    var normalizedSponsor: Option<real>
    var normalizedWorkload: Option<real>

    /** The eleven normalised columns of this instance. */
    function NormalizedRow(): Normalized
      reads this
    {
      Normalized(normalizedHardSkills, normalizedSoftSkills, normalizedConfidence,
        normalizedOnboarding, normalizedInitiation, normalizedMentorship, normalizedTeam,
        normalizedCommunications, normalizedExpectations, normalizedSponsor, normalizedWorkload)
    }

    /** The row this instance would be written as. */
    function Row(): StoredResponse
      reads this
    {
      StoredResponse(answers, projectMentor, topic, NormalizedRow())
    }

    /** An instance holding the given row's values. */
    constructor (r: StoredResponse)
      ensures Row() == r
    {
      answers := r.answers;
      projectMentor := r.projectMentor;
      topic := r.topic;
      normalizedHardSkills := r.normalized.hardSkills;
      normalizedSoftSkills := r.normalized.softSkills;
      normalizedConfidence := r.normalized.confidence;
      normalizedOnboarding := r.normalized.onboarding;
      normalizedInitiation := r.normalized.initiation;
      normalizedMentorship := r.normalized.mentorship;
      normalizedTeam := r.normalized.team;
      normalizedCommunications := r.normalized.communications;
      normalizedExpectations := r.normalized.expectations;
      normalizedSponsor := r.normalized.sponsor;
      normalizedWorkload := r.normalized.workload;
    }

    /**
     * `setattr(obj, key, value)` for every key of `defaults`, as
     * `update_or_create` does; a column that is not a key keeps its value.
     */
    method Assign(d: Defaults)
      modifies this
      ensures Row() == ApplyDefaults(old(Row()), d)
    {
      answers := d.answers;
      projectMentor := d.projectMentor.GetOr(projectMentor);
      topic := d.topic.GetOr(topic);
      SetNormalized(d.normalized.GetOr(NormalizedRow()));
    }

    /** Assigns the eleven normalised columns. */
    method SetNormalized(n: Normalized)
      modifies this`normalizedHardSkills, this`normalizedSoftSkills, this`normalizedConfidence, this`normalizedOnboarding,
        this`normalizedInitiation, this`normalizedMentorship, this`normalizedTeam, this`normalizedCommunications,
        this`normalizedExpectations, this`normalizedSponsor, this`normalizedWorkload
      ensures NormalizedRow() == n
    {
      normalizedHardSkills, normalizedSoftSkills, normalizedConfidence := n.hardSkills, n.softSkills, n.confidence;
      normalizedOnboarding, normalizedInitiation, normalizedMentorship := n.onboarding, n.initiation, n.mentorship;
      normalizedTeam, normalizedCommunications, normalizedExpectations := n.team, n.communications, n.expectations;
      normalizedSponsor, normalizedWorkload := n.sponsor, n.workload;
    }

    /**
     * `save()`: the derived fields are assigned in place, display names first,
     * then the normalised columns, before the row is written.
     */
    method Save()
      modifies this
      ensures Row() == Derive(old(Row()))
    {
      FillDisplayNames();
      NormalizeEnding();
    }

    /** An empty `project_mentor` or `topic` is filled from the display-name tables. */
    method FillDisplayNames()
      modifies this`projectMentor, this`topic
      ensures projectMentor == (if old(projectMentor) == "" then MentorNameFromChoice(answers) else old(projectMentor))
      ensures topic == (if old(topic) == "" then TopicNameFromValue(answers) else old(topic))
    {
      if projectMentor == "" {
        projectMentor := MentorNameFromChoice(answers);
      }
      if topic == "" {
        topic := TopicNameFromValue(answers);
      }
    }

    /** On an ending survey each normalised column whose answer is present is recomputed. */
    method NormalizeEnding()
      modifies this`normalizedHardSkills, this`normalizedSoftSkills, this`normalizedConfidence, this`normalizedOnboarding,
        this`normalizedInitiation, this`normalizedMentorship, this`normalizedTeam, this`normalizedCommunications,
        this`normalizedExpectations, this`normalizedSponsor, this`normalizedWorkload
      ensures NormalizedRow() == DeriveNormalized(answers, old(NormalizedRow()))
    {
      var a := answers;
      if a.surveyType == Some(Ending) {
        normalizedHardSkills := RefreshValue(normalizedHardSkills, a.hardSkillsImproved);
        normalizedSoftSkills := RefreshValue(normalizedSoftSkills, a.softSkillsImproved);
        normalizedConfidence := RefreshValue(normalizedConfidence, a.confidenceJobPlacement);
        // Ratings
        normalizedOnboarding := RefreshRating(normalizedOnboarding, a.ratingOnboarding);
        normalizedInitiation := RefreshRating(normalizedInitiation, a.ratingInitiation);
        normalizedMentorship := RefreshRating(normalizedMentorship, a.ratingMentorship);
        normalizedTeam := RefreshRating(normalizedTeam, a.ratingTeam);
        normalizedCommunications := RefreshRating(normalizedCommunications, a.ratingCommunications);
        normalizedExpectations := RefreshRating(normalizedExpectations, a.ratingExpectations);
        normalizedSponsor := RefreshRating(normalizedSponsor, a.ratingSponsor);
        normalizedWorkload := RefreshRating(normalizedWorkload, a.ratingWorkload);
      }
    }
  }

  // ---------------------------------------------------------------------------
  // Properties of the save() hook
  // ---------------------------------------------------------------------------

  /** Saving twice leaves every column as saving once did. */
  lemma DeriveIdempotent(r: StoredResponse)
    ensures Derive(Derive(r)) == Derive(r)
  {
  }

  /** Recomputing the normalised group a second time changes nothing. */
  lemma DeriveNormalizedIdempotent(a: Answers, n: Normalized)
    ensures DeriveNormalized(a, DeriveNormalized(a, n)) == DeriveNormalized(a, n)
  {
  }

  /**
   * One normalised column after `save()`: on an ending survey whose answer is
   * present it is that answer's rescale, and otherwise it keeps its value.
   */
  ghost predicate SetWhenAnswered(after: Option<real>, before: Option<real>, ending: bool, answer: Option<int>, rescaled: Option<real>) {
    after == (if ending && answer.Some? then rescaled else before)
  }

  /** `SetWhenAnswered` for each of the eleven normalised columns. */
  ghost predicate Refreshed(a: Answers, before: Normalized, after: Normalized) {
    var ending := a.surveyType == Some(Ending);
    && SetWhenAnswered(after.hardSkills, before.hardSkills, ending, a.hardSkillsImproved, Scale.NormalizeValue(a.hardSkillsImproved))
    && SetWhenAnswered(after.softSkills, before.softSkills, ending, a.softSkillsImproved, Scale.NormalizeValue(a.softSkillsImproved))
    && SetWhenAnswered(after.confidence, before.confidence, ending, a.confidenceJobPlacement, Scale.NormalizeValue(a.confidenceJobPlacement))
    && SetWhenAnswered(after.onboarding, before.onboarding, ending, a.ratingOnboarding, Scale.NormalizeRating(a.ratingOnboarding))
    && SetWhenAnswered(after.initiation, before.initiation, ending, a.ratingInitiation, Scale.NormalizeRating(a.ratingInitiation))
    && SetWhenAnswered(after.mentorship, before.mentorship, ending, a.ratingMentorship, Scale.NormalizeRating(a.ratingMentorship))
    && SetWhenAnswered(after.team, before.team, ending, a.ratingTeam, Scale.NormalizeRating(a.ratingTeam))
    && SetWhenAnswered(after.communications, before.communications, ending, a.ratingCommunications, Scale.NormalizeRating(a.ratingCommunications))
    && SetWhenAnswered(after.expectations, before.expectations, ending, a.ratingExpectations, Scale.NormalizeRating(a.ratingExpectations))
    && SetWhenAnswered(after.sponsor, before.sponsor, ending, a.ratingSponsor, Scale.NormalizeRating(a.ratingSponsor))
    && SetWhenAnswered(after.workload, before.workload, ending, a.ratingWorkload, Scale.NormalizeRating(a.ratingWorkload))
  }

  /**
   * `save()` never overwrites a non-empty `project_mentor` or `topic`, and
   * each of the eleven normalised columns is replaced by its answer's
   * rescale exactly when the survey is an ending one and that answer is
   * present; otherwise the column keeps its value.
   */
  lemma DeriveOnlyFills(r: StoredResponse)
    ensures Derive(r).projectMentor == (if r.projectMentor == "" then MentorNameFromChoice(r.answers) else r.projectMentor)
    ensures Derive(r).topic == (if r.topic == "" then TopicNameFromValue(r.answers) else r.topic)
    ensures Refreshed(r.answers, r.normalized, Derive(r).normalized)
  {
  }

  /** A new row gets its display names from the mentor and topic tables. */
  lemma CreatedDisplayNames(a: Answers)
    ensures Derive(Blank(a)).projectMentor == MentorNameFromChoice(a)
    ensures Derive(Blank(a)).topic == TopicNameFromValue(a)
  {
  }

  /** Every column of an ending survey's normalised group is present exactly when its answer is. */
  ghost predicate NormalizedMatchesAnswers(a: Answers, n: Normalized) {
    && n.hardSkills == Scale.NormalizeValue(a.hardSkillsImproved)
    && n.softSkills == Scale.NormalizeValue(a.softSkillsImproved)
    && n.confidence == Scale.NormalizeValue(a.confidenceJobPlacement)
    && n.onboarding == Scale.NormalizeRating(a.ratingOnboarding)
    && n.initiation == Scale.NormalizeRating(a.ratingInitiation)
    && n.mentorship == Scale.NormalizeRating(a.ratingMentorship)
    && n.team == Scale.NormalizeRating(a.ratingTeam)
    && n.communications == Scale.NormalizeRating(a.ratingCommunications)
    && n.expectations == Scale.NormalizeRating(a.ratingExpectations)
    && n.sponsor == Scale.NormalizeRating(a.ratingSponsor)
    && n.workload == Scale.NormalizeRating(a.ratingWorkload)
  }

  /**
   * On a newly created row, `save()` leaves the normalised group holding the
   * rescale of each answer for an ending survey (so a column is present iff
   * its answer is), and leaves it all NULL for any other survey type.
   */
  lemma CreatedNormalized(a: Answers)
    ensures a.surveyType == Some(Ending) ==> NormalizedMatchesAnswers(a, Derive(Blank(a)).normalized)
    ensures a.surveyType != Some(Ending) ==> Derive(Blank(a)).normalized == NoNormalized
  {
  }

  /** Every answer within its validator bounds (1..5 or 1..3), where present. */
  ghost predicate WithinValidators(a: Answers) {
    && InRange(a.hardSkillsImproved, Scale.ValueMin, Scale.ValueMax)
    && InRange(a.softSkillsImproved, Scale.ValueMin, Scale.ValueMax)
    && InRange(a.confidenceJobPlacement, Scale.ValueMin, Scale.ValueMax)
    && InRange(a.ratingOnboarding, Scale.RatingMin, Scale.RatingMax)
    && InRange(a.ratingInitiation, Scale.RatingMin, Scale.RatingMax)
    && InRange(a.ratingMentorship, Scale.RatingMin, Scale.RatingMax)
    && InRange(a.ratingTeam, Scale.RatingMin, Scale.RatingMax)
    && InRange(a.ratingCommunications, Scale.RatingMin, Scale.RatingMax)
    && InRange(a.ratingExpectations, Scale.RatingMin, Scale.RatingMax)
    && InRange(a.ratingSponsor, Scale.RatingMin, Scale.RatingMax)
    && InRange(a.ratingWorkload, Scale.RatingMin, Scale.RatingMax)
  }

  ghost predicate InRange(v: Option<int>, lo: int, hi: int) {
    v.Some? ==> lo <= v.value <= hi
  }

  ghost predicate OnAxis(x: Option<real>) {
    x.Some? ==> -1.0 <= x.value <= 1.0
  }

  ghost predicate AllOnAxis(n: Normalized) {
    && OnAxis(n.hardSkills) && OnAxis(n.softSkills) && OnAxis(n.confidence)
    && OnAxis(n.onboarding) && OnAxis(n.initiation) && OnAxis(n.mentorship) && OnAxis(n.team)
    && OnAxis(n.communications) && OnAxis(n.expectations) && OnAxis(n.sponsor) && OnAxis(n.workload)
  }

  lemma ValueOnAxis(v: Option<int>)
    requires InRange(v, Scale.ValueMin, Scale.ValueMax)
    ensures OnAxis(Scale.NormalizeValue(v))
  {
    if v.Some? { Scale.NormalizedWithinBounds(v.value); }
  }

  lemma RatingOnAxis(v: Option<int>)
    requires InRange(v, Scale.RatingMin, Scale.RatingMax)
    ensures OnAxis(Scale.NormalizeRating(v))
  {
    if v.Some? { Scale.NormalizedWithinBounds(v.value); }
  }

  /**
   * When every answer is within its validator bounds and the normalised
   * columns already lie on [-1, 1], they still do after `save()`.
   */
  lemma {:induction false} DeriveKeepsAxis(r: StoredResponse)
    requires WithinValidators(r.answers) && AllOnAxis(r.normalized)
    ensures AllOnAxis(Derive(r).normalized)
  {
    var a := r.answers;
    ValueOnAxis(a.hardSkillsImproved);
    ValueOnAxis(a.softSkillsImproved);
    ValueOnAxis(a.confidenceJobPlacement);
    RatingOnAxis(a.ratingOnboarding);
    RatingOnAxis(a.ratingInitiation);
    RatingOnAxis(a.ratingMentorship);
    RatingOnAxis(a.ratingTeam);
    RatingOnAxis(a.ratingCommunications);
    RatingOnAxis(a.ratingExpectations);
    RatingOnAxis(a.ratingSponsor);
    RatingOnAxis(a.ratingWorkload);
  }
}
