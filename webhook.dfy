/**
 * `qualtrics_webhook` (backend/surveys/views.py): a submission posted by
 * Qualtrics is decoded field by field, dropped unless it is an ending
 * survey, and otherwise upserted by `response_id`, with fallbacks for the
 * metadata Qualtrics may leave out.
 */
module Webhook {
  import opened Base
  import opened Text
  import opened Decoders
  import opened Survey
  import opened Storage
  import Scale

  /** The submission as a dictionary of payload values. */
  type Payload = map<string, FormValue>

  /** `data.get(key)`. */
  function Get(data: Payload, key: string): Option<FormValue> {
    if key in data then Some(data[key]) else None
  }

  /** `data.get(key, default)` for a text default. */
  function GetText(data: Payload, key: string, default: string): FormValue {
    if key in data then data[key] else Str(default)
  }

  /** The two lookups agree: a text default only shows where the key is missing. */
  lemma GetTextIsGetOrDefault(data: Payload, key: string, default: string)
    ensures GetText(data, key, default) == Get(data, key).GetOr(Str(default))
    ensures key in data ==> GetText(data, key, default) == GetText(data, key, "")
  {
  }

  // ---------------------------------------------------------------------------
  // Form data
  // ---------------------------------------------------------------------------

  /** A form field as the single-item rule leaves it: one value is unwrapped, others stay a list. */
  function Unwrapped(values: seq<string>): FormValue {
    if |values| == 1 then Str(values[0]) else List(values)
  }

  /** `dict(request.POST)` after every single-item list is replaced by its item. */
  function Collapsed(post: map<string, seq<string>>): (data: Payload)
    ensures data.Keys == post.Keys
  {
    map k | k in post :: Unwrapped(post[k])
  }

  /**
   * `data = dict(request.POST)`, then, key by key, a single-item list is
   * replaced in place by its only item.
   */
  method CollapseFormLists(post: map<string, seq<string>>) returns (data: Payload)
    ensures data == Collapsed(post)
  {
    data := map k | k in post :: List(post[k]);
    var pending := post.Keys;
    while pending != {}
      invariant pending <= post.Keys && data.Keys == post.Keys
      invariant forall k :: k in data ==> data[k] == (if k in pending then List(post[k]) else Unwrapped(post[k]))
      decreases pending
    {
      var key :| key in pending;
      if |post[key]| == 1 {
        data := data[key := Str(post[key][0])];
      }
      pending := pending - {key};
    }
  }

  /**
   * The dictionary the decoders read: the request body, or the collapsed
   * form data when the body is empty and the form is not.
   */
  function Received(body: Payload, post: map<string, seq<string>>): (data: Payload)
    ensures body != map[] ==> data == body
    ensures body == map[] && post != map[] ==> data.Keys == post.Keys && data == Collapsed(post)
    ensures post == map[] ==> data == body
  {
    if body == map[] && post != map[] then Collapsed(post) else body
  }

  /** `data = request.data`, replaced by the collapsed form data when it is empty and the form is not. */
  method ReceivedData(body: Payload, post: map<string, seq<string>>) returns (data: Payload)
    ensures data == Received(body, post)
  {
    data := body;
    if data == map[] && post != map[] {
      data := CollapseFormLists(post);
    }
  }

  /** A single-valued form field reads as its value, a repeated one as the list of its values. */
  lemma CollapsedValues(post: map<string, seq<string>>, key: string)
    requires key in post
    ensures |post[key]| == 1 ==> Collapsed(post)[key] == Str(post[key][0])
    ensures |post[key]| != 1 ==> Collapsed(post)[key] == List(post[key])
  {
  }

  // ---------------------------------------------------------------------------
  // The response columns
  // ---------------------------------------------------------------------------

  /** Python's `x or default` on an optional integer: NULL and 0 both give the default. */
  function OrDefault(x: Option<int>, default: int): (r: Option<int>)
    ensures r.Some?
    ensures r.value == 0 ==> default == 0
    ensures x.Some? && x.value != 0 ==> r == x
    ensures x.None? || x == Some(0) ==> r == Some(default)
  {
    if x.None? || x == Some(0) then Some(default) else x
  }

  /** `data.get('ResponseId') or data.get('ResponseID', '')`, as stored. */
  function ResponseIdOf(data: Payload): string {
    if Given(Get(data, "ResponseId")) then AsText(data["ResponseId"])
    else AsText(GetText(data, "ResponseID", ""))
  }

  /** `safe_datetime(data.get(key)) or current_time`. */
  function StampOf(data: Payload, key: string, now: string): Timestamp {
    Some(SafeDatetime(Get(data, key)).GetOr(now))
  }

  /**
   * The answer columns of `response_data` for an ending survey. `now` is the
   * request time; `mentors` and `topics` are the roster files' lines, None
   * when a file cannot be read.
   */
  function WebhookAnswers(data: Payload, now: string, mentors: Option<seq<string>>, topics: Option<seq<string>>): Answers {
    Answers(
      StampOf(data, "StartDate", now),
      StampOf(data, "EndDate", now),
      OrDefault(SafeInt(Get(data, "Status")), 1),
      OrDefault(SafeInt(Get(data, "Progress")), 100),
      OrDefault(SafeInt(Get(data, "Duration (in seconds)")), 0),
      if "Finished" in data then SafeBool(Get(data, "Finished")) else Some(true),
      StampOf(data, "RecordedDate", now),
      ResponseIdOf(data),
      AsText(GetText(data, "DistributionChannel", "qualtrics")),
      AsText(GetText(data, "UserLanguage", "EN")),
      SafeFloat(Get(data, "Q_RecaptchaScore")),
      Some(Ending),
      AsText(GetText(data, "Q3.1", "")),
      AsText(GetText(data, "Q3.2", "")),
      MapMentorToInt(GetText(data, "Q3.3", ""), mentors),
      AsText(GetText(data, "Q3.3_20_TEXT", "")),
      AsText(GetText(data, "Q3.3.a", "")),
      None, None, None, None, "", "",
      AsText(GetText(data, "Q3.5", "")),
      AsText(GetText(data, "Q3.6", "")),
      AsText(GetText(data, "Q3.7", "")),
      MapTopicToInt(GetText(data, "Q3.8", ""), topics),
      MapAgreementScale(Get(data, "Q3.9")),
      MapAgreementScale(Get(data, "Q3.10")),
      MapAgreementScale(Get(data, "Q3.11")),
      MapRatingScale(Get(data, "Q3.12.a")),
      MapRatingScale(Get(data, "Q3.12.b")),
      MapRatingScale(Get(data, "Q3.12.c")),
      MapRatingScale(Get(data, "Q3.12.d")),
      MapRatingScale(Get(data, "Q3.12.e")),
      MapRatingScale(Get(data, "Q3.12.f")),
      MapRatingScale(Get(data, "Q3.12.g")),
      MapRatingScale(Get(data, "Q3.12.h")),
      SafeInt(Get(data, "Q3.13")),
      AsText(GetText(data, "Q3.14", "")))
  }

  /**
   * A raw value passed as a display name, as the saved row ends up holding
   * it: `save()` treats a falsy value (missing, `''` or `[]`) as empty and
   * derives the name; any other value is stored as its `str()`.
   */
  function RawDisplay(v: Option<FormValue>): string {
    if Given(v) then AsText(v.value) else ""
  }

  /**
   * The `defaults` of the webhook: the answers, and the raw `Q3.3` and
   * `Q3.8` values as `project_mentor` and `topic`; no normalised column.
   */
  function WebhookDefaults(data: Payload, now: string, mentors: Option<seq<string>>, topics: Option<seq<string>>): Defaults {
    Defaults(
      WebhookAnswers(data, now, mentors, topics),
      Some(RawDisplay(Get(data, "Q3.3"))),
      Some(RawDisplay(Get(data, "Q3.8"))),
      None)
  }

  // ---------------------------------------------------------------------------
  // The endpoint
  // ---------------------------------------------------------------------------

  /** The reply of the endpoint. */
  datatype Reply =
    | Skipped(surveyType: Option<int>)                       // not an ending survey; nothing stored
    | Saved(responseId: string, savedType: int, created: bool)
    | Rejected                                               // the write raised

  /**
   * The reply and the table once the survey type is known: anything but an
   * ending survey is skipped; an ending survey is upserted with `d`.
   */
  function Respond(store: Store, surveyType: Option<int>, d: Defaults): (Reply, Store) {
    if surveyType != Some(Ending) then (Skipped(surveyType), store)
    else
      match Upsert(store, d)
      case Ok((s, created)) => (Saved(d.answers.responseId, Ending, created), s)
      case Err(_) => (Rejected, store)
  }

  /** The reply and the table after one submission. */
  function Webhook(store: Store, data: Payload, now: string, mentors: Option<seq<string>>, topics: Option<seq<string>>): (Reply, Store) {
    Respond(store, MapSurveyType(Get(data, "Q1.1")), WebhookDefaults(data, now, mentors, topics))
  }

  /**
   * The endpoint: the form data is collapsed when the body is empty, the
   * survey type is checked, and an ending survey is upserted.
   */
  method QualtricsWebhook(
    store: Store, body: Payload, post: map<string, seq<string>>, now: string,
    mentors: Option<seq<string>>, topics: Option<seq<string>>)
    returns (reply: Reply, result: Store)
    ensures (reply, result) == Webhook(store, Received(body, post), now, mentors, topics)
  {
    var data := ReceivedData(body, post);
    var surveyType := MapSurveyType(Get(data, "Q1.1"));
    if surveyType != Some(Ending) {
      return Skipped(surveyType), store;
    }
    var d := WebhookDefaults(data, now, mentors, topics);
    var written := UpdateOrCreate(store, d);
    match written {
      case Ok((s, created)) =>
        reply, result := Saved(d.answers.responseId, Ending, created), s;
      case Err(_) =>
        reply, result := Rejected, store;
    }
  }

  // ---------------------------------------------------------------------------
  // Properties of the endpoint
  // ---------------------------------------------------------------------------

  /**
   * Only ending surveys are stored: any other survey type is answered with
   * the type it has and leaves the table alone.
   */
  lemma RespondGate(store: Store, surveyType: Option<int>, d: Defaults)
    ensures Respond(store, surveyType, d).0.Skipped? <==> surveyType != Some(Ending)
    ensures Respond(store, surveyType, d).0.Skipped? ==>
      Respond(store, surveyType, d) == (Skipped(surveyType), store)
  {
  }

  /**
   * An ending survey is refused exactly when a NOT NULL column would be
   * NULL, and then leaves the table alone; otherwise it is stored under its
   * response id, created exactly when that id is new, as `save()` derives
   * it, with every other row kept.
   */
  lemma RespondOutcome(store: Store, d: Defaults)
    ensures Respond(store, Some(Ending), d).0.Rejected? <==> MissingRequired(d.answers)
    ensures Respond(store, Some(Ending), d).0.Rejected? ==> Respond(store, Some(Ending), d).1 == store
    ensures Respond(store, Some(Ending), d).0.Saved? ==>
      var (reply, s) := Respond(store, Some(Ending), d);
      var id := d.answers.responseId;
      && reply == Saved(id, Ending, id !in store)
      && s.Keys == store.Keys + {id}
      && s[id] == Derive(ApplyDefaults(Loaded(store, d.answers), d))
      && (forall k :: k in store && k != id ==> s[k] == store[k])
  {
    UpsertOutcome(store, d);
  }

  /** A starting-survey submission, labelled as Qualtrics labels it, is skipped with type 1. */
  lemma StartingSubmissionSkipped(store: Store, data: Payload, now: string, mentors: Option<seq<string>>, topics: Option<seq<string>>)
    requires "Q1.1" in data && data["Q1.1"] == Str("Starting Project")
    ensures Webhook(store, data, now, mentors, topics) == (Skipped(Some(Starting)), store)
  {
    StartingLabel();
  }

  /** An ending-survey submission, labelled as Qualtrics labels it, passes the gate. */
  lemma EndingSubmissionPasses(store: Store, data: Payload, now: string, mentors: Option<seq<string>>, topics: Option<seq<string>>)
    requires "Q1.1" in data && data["Q1.1"] == Str("Ending Project - Cohort 2")
    ensures !Webhook(store, data, now, mentors, topics).0.Skipped?
  {
    EndingLabel();
  }

  /**
   * The NOT NULL metadata always has a value: a missing, empty or zero
   * `Status` is 1, `Progress` 100 and duration 0, and a non-zero integer
   * sent as text is kept; a missing date is the request time.
   */
  lemma WebhookCounters(data: Payload, now: string, mentors: Option<seq<string>>, topics: Option<seq<string>>, n: int)
    ensures WebhookAnswers(data, now, mentors, topics).status.Some?
    ensures WebhookAnswers(data, now, mentors, topics).progress.Some?
    ensures WebhookAnswers(data, now, mentors, topics).durationSeconds.Some?
    ensures "Status" !in data ==> WebhookAnswers(data, now, mentors, topics).status == Some(1)
    ensures "Progress" !in data ==> WebhookAnswers(data, now, mentors, topics).progress == Some(100)
    ensures "Duration (in seconds)" !in data ==> WebhookAnswers(data, now, mentors, topics).durationSeconds == Some(0)
    ensures "Status" in data && data["Status"] == Str("") ==> WebhookAnswers(data, now, mentors, topics).status == Some(1)
    ensures "Progress" in data && data["Progress"] == Str("") ==> WebhookAnswers(data, now, mentors, topics).progress == Some(100)
    ensures "Duration (in seconds)" in data && data["Duration (in seconds)"] == Str("") ==>
      WebhookAnswers(data, now, mentors, topics).durationSeconds == Some(0)
    ensures "Status" in data && data["Status"] == Str(ShowInt(n)) ==>
      WebhookAnswers(data, now, mentors, topics).status == Some(if n == 0 then 1 else n)
    ensures "Progress" in data && data["Progress"] == Str(ShowInt(n)) ==>
      WebhookAnswers(data, now, mentors, topics).progress == Some(if n == 0 then 100 else n)
    ensures "Duration (in seconds)" in data && data["Duration (in seconds)"] == Str(ShowInt(n)) ==>
      WebhookAnswers(data, now, mentors, topics).durationSeconds == Some(n)
    ensures "StartDate" !in data ==> WebhookAnswers(data, now, mentors, topics).startDate == Some(now)
    ensures "EndDate" !in data ==> WebhookAnswers(data, now, mentors, topics).endDate == Some(now)
    ensures "RecordedDate" !in data ==> WebhookAnswers(data, now, mentors, topics).recordedDate == Some(now)
  {
    SafeIntShow(n);
  }

  /**
   * `finished` is True when Qualtrics sends no `Finished`, and otherwise
   * whether the integer it sends is non-zero.
   */
  lemma WebhookFinished(data: Payload, now: string, mentors: Option<seq<string>>, topics: Option<seq<string>>, n: int)
    ensures "Finished" !in data ==> WebhookAnswers(data, now, mentors, topics).finished == Some(true)
    ensures "Finished" in data && data["Finished"] == Str(ShowInt(n)) ==>
      WebhookAnswers(data, now, mentors, topics).finished == Some(n != 0)
  {
    SafeBoolShow(n);
  }

  /**
   * An ending survey is refused exactly when it sends a `Finished` that
   * `safe_bool` cannot read, which leaves the NOT NULL `finished` NULL;
   * every other NOT NULL column has a fallback.
   */
  lemma WebhookRejects(store: Store, data: Payload, now: string, mentors: Option<seq<string>>, topics: Option<seq<string>>)
    requires MapSurveyType(Get(data, "Q1.1")) == Some(Ending)
    ensures Webhook(store, data, now, mentors, topics).0.Rejected? <==>
      "Finished" in data && SafeBool(Get(data, "Finished")).None?
  {
    var d := WebhookDefaults(data, now, mentors, topics);
    RespondOutcome(store, d);
    assert MissingRequired(d.answers) <==> d.answers.finished.None?;
  }

  /**
   * A stored submission is keyed by its `ResponseId` (or `ResponseID`), holds
   * the decoded answers, and takes the raw `Q3.3` and `Q3.8` values as its
   * display names whenever they are truthy; a falsy one (missing, `''` or
   * `[]`) leaves the name to `save()`, which derives it from the codes. This
   * holds on an update as on a creation.
   */
  lemma WebhookSaved(store: Store, data: Payload, now: string, mentors: Option<seq<string>>, topics: Option<seq<string>>)
    requires Webhook(store, data, now, mentors, topics).0.Saved?
    ensures Webhook(store, data, now, mentors, topics).0.responseId == ResponseIdOf(data)
    ensures
      var s := Webhook(store, data, now, mentors, topics).1;
      var id := ResponseIdOf(data);
      && id in s
      && s[id].answers == WebhookAnswers(data, now, mentors, topics)
      && (Given(Get(data, "Q3.3")) ==> s[id].projectMentor == AsText(data["Q3.3"]))
      && (!Given(Get(data, "Q3.3")) ==> s[id].projectMentor == MentorNameFromChoice(s[id].answers))
      && (Given(Get(data, "Q3.8")) ==> s[id].topic == AsText(data["Q3.8"]))
      && (!Given(Get(data, "Q3.8")) ==> s[id].topic == TopicNameFromValue(s[id].answers))
  {
    RespondOutcome(store, WebhookDefaults(data, now, mentors, topics));
  }

  /**
   * An empty JSON list sent as `Q3.3` or `Q3.8` is falsy: it maps to no code,
   * so the stored display name is derived as `''`, not the text "[]".
   */
  lemma EmptyListDisplayName(store: Store, data: Payload, now: string, mentors: Option<seq<string>>, topics: Option<seq<string>>)
    requires Webhook(store, data, now, mentors, topics).0.Saved?
    ensures
      var s := Webhook(store, data, now, mentors, topics).1;
      var id := ResponseIdOf(data);
      && id in s
      && ("Q3.3" in data && data["Q3.3"] == List([]) ==> s[id].projectMentor == "")
      && ("Q3.8" in data && data["Q3.8"] == List([]) ==> s[id].topic == "")
  {
    WebhookSaved(store, data, now, mentors, topics);
  }

  /** `ResponseId` wins when it is non-empty; otherwise `ResponseID` is used, and "" when both are missing. */
  lemma ResponseIdFallback(data: Payload, id: string)
    ensures "ResponseId" in data && data["ResponseId"] == Str(id) && id != "" ==> ResponseIdOf(data) == id
    ensures ("ResponseId" !in data || data["ResponseId"] == Str("")) && "ResponseID" in data && data["ResponseID"] == Str(id) ==>
      ResponseIdOf(data) == id
    ensures "ResponseId" !in data && "ResponseID" !in data ==> ResponseIdOf(data) == ""
  {
  }

  /**
   * A newly stored ending survey has each normalised column computed from
   * its answer, so a column is present exactly when its answer is.
   */
  lemma RespondCreatedNormalized(store: Store, d: Defaults)
    requires d.normalized.None? && d.answers.surveyType == Some(Ending)
    requires Respond(store, Some(Ending), d).0.Saved? && Respond(store, Some(Ending), d).0.created
    ensures
      var s := Respond(store, Some(Ending), d).1;
      d.answers.responseId in s && NormalizedMatchesAnswers(d.answers, s[d.answers.responseId].normalized)
  {
    RespondOutcome(store, d);
    CreatedNormalized(d.answers);
  }

  /** On a newly stored submission, each normalised column is the rescale of its decoded answer. */
  lemma WebhookCreatedNormalized(store: Store, data: Payload, now: string, mentors: Option<seq<string>>, topics: Option<seq<string>>)
    requires Webhook(store, data, now, mentors, topics).0.Saved? && Webhook(store, data, now, mentors, topics).0.created
    ensures
      var s := Webhook(store, data, now, mentors, topics).1;
      var id := ResponseIdOf(data);
      id in s && NormalizedMatchesAnswers(WebhookAnswers(data, now, mentors, topics), s[id].normalized)
  {
    RespondCreatedNormalized(store, WebhookDefaults(data, now, mentors, topics));
  }

  /** The agreement answers of a submission are on 1..5, so their normalised columns lie on [-1, 1]. */
  lemma WebhookAgreementOnAxis(data: Payload, now: string, mentors: Option<seq<string>>, topics: Option<seq<string>>)
    ensures InRange(WebhookAnswers(data, now, mentors, topics).hardSkillsImproved, Scale.ValueMin, Scale.ValueMax)
    ensures InRange(WebhookAnswers(data, now, mentors, topics).softSkillsImproved, Scale.ValueMin, Scale.ValueMax)
    ensures InRange(WebhookAnswers(data, now, mentors, topics).confidenceJobPlacement, Scale.ValueMin, Scale.ValueMax)
    ensures OnAxis(Scale.NormalizeValue(WebhookAnswers(data, now, mentors, topics).hardSkillsImproved))
    ensures OnAxis(Scale.NormalizeValue(WebhookAnswers(data, now, mentors, topics).softSkillsImproved))
    ensures OnAxis(Scale.NormalizeValue(WebhookAnswers(data, now, mentors, topics).confidenceJobPlacement))
  {
    var a := WebhookAnswers(data, now, mentors, topics);
    ValueOnAxis(a.hardSkillsImproved);
    ValueOnAxis(a.softSkillsImproved);
    ValueOnAxis(a.confidenceJobPlacement);
  }

  /**
   * A rating sent as `"0"` is stored as 0, outside the 1..3 its validator
   * allows, because `save()` does not run the validators; its normalised
   * value is -2, off the [-1, 1] axis.
   */
  lemma WebhookZeroRating(data: Payload, now: string, mentors: Option<seq<string>>, topics: Option<seq<string>>)
    requires "Q3.12.a" in data && data["Q3.12.a"] == Str("0")
    ensures WebhookAnswers(data, now, mentors, topics).ratingOnboarding == Some(0)
    ensures !WithinValidators(WebhookAnswers(data, now, mentors, topics))
    ensures Scale.NormalizeRating(WebhookAnswers(data, now, mentors, topics).ratingOnboarding) == Some(-2.0)
  {
    ZeroRatingIsNotMissing();
  }

  /**
   * Delivering the same submission again (at the same request time) finds
   * the stored row, reports it as updated, and leaves the table as the
   * first delivery left it.
   */
  lemma WebhookRedelivery(store: Store, data: Payload, now: string, mentors: Option<seq<string>>, topics: Option<seq<string>>)
    requires Webhook(store, data, now, mentors, topics).0.Saved?
    ensures
      var s := Webhook(store, data, now, mentors, topics).1;
      Webhook(s, data, now, mentors, topics) == (Saved(ResponseIdOf(data), Ending, false), s)
  {
    UpsertIdempotent(store, WebhookDefaults(data, now, mentors, topics));
  }

  /** The Qualtrics rating label "1 (Poor)" reads as 1 and normalises to -1. */
  lemma PoorRatingLabel(text: string)
    requires text == "1 (Poor)"
    ensures MapRatingScale(Some(Str(text))) == Some(1)
    ensures Scale.NormalizeRating(MapRatingScale(Some(Str(text)))) == Some(-1.0)
  {
    assert ShowInt(1) == "1";
    assert text == ShowInt(1) + " (" + "Poor" + ")";
    RatingOfLabel(1, "Poor");
    Scale.NormalizeRatingClosedForm(1);
  }
}
