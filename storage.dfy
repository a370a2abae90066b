/**
 * `SurveyResponse.objects.update_or_create(response_id=..., defaults=...)`
 * over a table held as a map from `response_id` to row. An existing row has
 * every key of `defaults` assigned and is saved; otherwise a new instance is
 * built from the column defaults ('' for text, NULL elsewhere) and the
 * `defaults`, and saved. Either way `save()` runs before the write, and the
 * write fails on a NULL in a NOT NULL column.
 */
module Storage {
  import opened Base
  import opened Survey

  /** The survey table, keyed by the unique `response_id`. */
  type Store = map<string, StoredResponse>

  /** The write is refused: a NOT NULL column holds NULL. */
  datatype StoreError = NotNullViolation

  /**
   * `start_date`, `end_date`, `recorded_date`, `status`, `progress`,
   * `duration_seconds`, `finished` and `survey_type` are NOT NULL.
   */
  predicate MissingRequired(a: Answers) {
    || a.startDate.None? || a.endDate.None? || a.recordedDate.None?
    || a.status.None? || a.progress.None? || a.durationSeconds.None? || a.finished.None? || a.surveyType.None?
  }

  /** The row `update_or_create` starts from: the stored one, or a new instance. */
  function Loaded(store: Store, a: Answers): StoredResponse {
    if a.responseId in store then store[a.responseId] else Blank(a)
  }

  /**
   * The result of `update_or_create`: the new table and whether the row was
   * created, or the database error that aborted the write.
   */
  function Upsert(store: Store, d: Defaults): Result<(Store, bool), StoreError> {
    var id := d.answers.responseId;
    var saved := Derive(ApplyDefaults(Loaded(store, d.answers), d));
    if MissingRequired(saved.answers) then Err(NotNullViolation)
    else Ok((store[id := saved], id !in store))
  }

  /**
   * The upsert as the ORM performs it: an instance is loaded or built, the
   * defaults are assigned to it, `save()` derives its columns in place, and
   * the row is written under its `response_id`.
   */
  method UpdateOrCreate(store: Store, d: Defaults) returns (r: Result<(Store, bool), StoreError>)
    ensures r == Upsert(store, d)
  {
    var id := d.answers.responseId;
    var created := id !in store;
    var obj := new SurveyResponse(if created then Blank(d.answers) else store[id]);
    obj.Assign(d);
    obj.Save();
    var row := obj.Row();
    if MissingRequired(row.answers) {
      return Err(NotNullViolation);
    }
    return Ok((store[id := row], created));
  }

  // ---------------------------------------------------------------------------
  // Properties of the upsert
  // ---------------------------------------------------------------------------

  /**
   * The write fails exactly when a NOT NULL answer is NULL; otherwise the row
   * is created exactly when its `response_id` is new, it is stored under that
   * id as `save()` derived it, and every other row is left alone.
   */
  lemma UpsertOutcome(store: Store, d: Defaults)
    ensures Upsert(store, d).Err? <==> MissingRequired(d.answers)
    ensures Upsert(store, d).Ok? ==>
      var (s, created) := Upsert(store, d).value;
      && (created <==> d.answers.responseId !in store)
      && s.Keys == store.Keys + {d.answers.responseId}
      && s[d.answers.responseId] == Derive(ApplyDefaults(Loaded(store, d.answers), d))
      && s[d.answers.responseId].answers == d.answers
      && (forall k :: k in store && k != d.answers.responseId ==> s[k] == store[k])
  {
  }

  /** A write adds exactly one response id when it creates, and none when it updates. */
  lemma UpsertAddsOne(store: Store, d: Defaults)
    ensures Upsert(store, d).Ok? ==>
      && store.Keys <= Upsert(store, d).value.0.Keys
      && |Upsert(store, d).value.0.Keys - store.Keys| == (if Upsert(store, d).value.1 then 1 else 0)
  {
    UpsertOutcome(store, d);
    if Upsert(store, d).Ok? {
      var s := Upsert(store, d).value.0;
      if d.answers.responseId in store {
        assert s.Keys - store.Keys == {};
      } else {
        assert s.Keys - store.Keys == {d.answers.responseId};
      }
    }
  }

  /** Assigning the same defaults to a saved row and saving it again changes nothing. */
  lemma ApplyDerived(r: StoredResponse, d: Defaults)
    ensures Derive(ApplyDefaults(Derive(ApplyDefaults(r, d)), d)) == Derive(ApplyDefaults(r, d))
  {
    var first := ApplyDefaults(r, d);
    var once := Derive(first);
    var again := ApplyDefaults(once, d);
    if d.projectMentor.None? && d.topic.None? && d.normalized.None? {
      assert again == once;
      DeriveIdempotent(first);
    } else {
      DeriveNormalizedIdempotent(d.answers, first.normalized);
    }
  }

  /**
   * Delivering the same submission twice is harmless: the second upsert
   * finds the row, reports it as not created, and leaves the table as the
   * first one left it.
   */
  lemma {:induction false} UpsertIdempotent(store: Store, d: Defaults)
    requires Upsert(store, d).Ok?
    ensures Upsert(Upsert(store, d).value.0, d) == Ok((Upsert(store, d).value.0, false))
  {
    var s := Upsert(store, d).value.0;
    var id := d.answers.responseId;
    ApplyDerived(Loaded(store, d.answers), d);
    assert Loaded(s, d.answers) == s[id];
    assert s[id := s[id]] == s;
  }

  /**
   * A channel that leaves `project_mentor` and `topic` out of its defaults
   * never corrects them on an update: a non-empty stored display name stays,
   * whatever the new answers say.
   */
  lemma UpdateKeepsDisplayNames(store: Store, a: Answers)
    requires a.responseId in store && !MissingRequired(a)
    requires store[a.responseId].projectMentor != "" && store[a.responseId].topic != ""
    ensures Upsert(store, Defaults(a, None, None, None)).Ok?
    ensures Upsert(store, Defaults(a, None, None, None)).value.0[a.responseId].projectMentor == store[a.responseId].projectMentor
    ensures Upsert(store, Defaults(a, None, None, None)).value.0[a.responseId].topic == store[a.responseId].topic
  {
  }
}
