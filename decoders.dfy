/**
 * The field decoders of the Qualtrics webhook (`qualtrics_webhook` in
 * backend/surveys/views.py): each turns one payload value, which may be
 * missing, into a typed column value, and never raises.
 */
module Decoders {
  import opened Base
  import opened Text

  /**
   * One value of the payload: a text, or a list of texts (a form field sent
   * more than once, which the form-data path leaves as a list).
   */
  datatype FormValue = Str(s: string) | List(items: seq<string>)

  /** Python truthiness of a payload value: a non-empty text or list. */
  predicate Truthy(v: FormValue) {
    match v
    case Str(s) => s != ""
    case List(items) => items != []
  }

  /** `data.get(key)` returned a truthy value. */
  predicate Given(v: Option<FormValue>) {
    v.Some? && Truthy(v.value)
  }

  /** The items of a list as `str(list)` shows them: `'a', 'b'`. */
  function Quoted(items: seq<string>): string {
    if items == [] then ""
    else if |items| == 1 then "'" + items[0] + "'"
    else "'" + items[0] + "', " + Quoted(items[1..])
  }

  /** `str(value)`: a text is itself, a list is shown in brackets. */
  function AsText(v: FormValue): (t: string)
    ensures v.Str? ==> t == v.s
    ensures v.List? ==> |t| >= 2 && t[0] == '[' && t[|t| - 1] == ']'
  {
    match v
    case Str(s) => s
    case List(items) => "[" + Quoted(items) + "]"
  }

  /** `str(value).lower().strip()`, the text the label matchers search. */
  function Folded(v: FormValue): string {
    Strip(Lower(AsText(v)))
  }

  // ---------------------------------------------------------------------------
  // safe_int, safe_float, safe_bool, safe_datetime
  // ---------------------------------------------------------------------------

  /**
   * `safe_int`: a missing value, `''`, the literal `'0'`, a list and any text
   * `int()` rejects all give None; any other text gives its integer value.
   */
  function SafeInt(v: Option<FormValue>): (r: Option<int>)
    ensures v.None? || v == Some(Str("")) || v == Some(Str("0")) || v.value.List? ==> r.None?
    ensures r.Some? ==> v.Some? && v.value.Str? && ParseInt(v.value.s) == r
    ensures v.Some? && v.value.Str? && v.value.s != "0" ==> r == ParseInt(v.value.s)
  {
    match v
    case None => None
    case Some(Str(s)) => if s == "" || s == "0" then None else ParseInt(s)
    case Some(List(_)) => None
  }

  /**
   * `safe_int(str(n))` gives n back, except for 0, which it treats as
   * missing; only the exact text `'0'` is missing, so `'0 '` reads as 0.
   */
  lemma SafeIntShow(n: int)
    ensures SafeInt(Some(Str(ShowInt(n)))) == (if n == 0 then None else Some(n))
    ensures SafeInt(Some(Str(ShowInt(n) + " "))) == Some(n)
  {
    ParseShowInt(n);
    ParseShowIntBlank(n);
    if n == 0 {
      assert ShowInt(0) == "0";
    }
  }

  /** `safe_float`: as `safe_int`, with `float()` reading decimal numerals. */
  function SafeFloat(v: Option<FormValue>): (r: Option<real>)
    ensures v.None? || v == Some(Str("")) || v == Some(Str("0")) || v.value.List? ==> r.None?
    ensures r.Some? ==> v.Some? && v.value.Str? && ParseDecimal(v.value.s) == r
    ensures v.Some? && v.value.Str? && v.value.s != "" && v.value.s != "0" ==> r == ParseDecimal(v.value.s)
  {
    match v
    case None => None
    case Some(Str(s)) => if s == "" || s == "0" then None else ParseDecimal(s)
    case Some(List(_)) => None
  }

  /** A value `safe_int` reads as n is read by `safe_float` as the same number. */
  lemma SafeFloatOfInt(v: Option<FormValue>, n: int)
    requires SafeInt(v) == Some(n)
    ensures SafeFloat(v) == Some(n as real)
  {
    ParseIntThenDecimal(v.value.s, n);
  }

  /**
   * `safe_bool`: `bool(int(value))` for a text `int()` accepts, so `'0'` is
   * False and every other integer True; None for anything else.
   */
  function SafeBool(v: Option<FormValue>): (r: Option<bool>)
    ensures r.Some? <==> v.Some? && v.value.Str? && ParseInt(v.value.s).Some?
    ensures r.Some? ==> r.value == (ParseInt(v.value.s).value != 0)
  {
    match v
    case None => None
    case Some(Str(s)) =>
      if s == "" then None
      else (match ParseInt(s) case Some(n) => Some(n != 0) case None => None)
    case Some(List(_)) => None
  }

  /** `safe_bool(str(n))` is `n != 0`: `'0'` is False, `'1'` and `'2'` are True. */
  lemma SafeBoolShow(n: int)
    ensures SafeBool(Some(Str(ShowInt(n)))) == Some(n != 0)
  {
    ParseShowInt(n);
  }

  /**
   * `safe_datetime`: a missing or empty value gives None; a non-empty text is
   * kept as the timestamp it denotes.
   */
  function SafeDatetime(v: Option<FormValue>): (r: Option<string>)
    ensures r.Some? <==> v.Some? && v.value.Str? && v.value.s != ""
    ensures r.Some? ==> r.value == v.value.s
  {
    match v
    case Some(Str(s)) => if s == "" then None else Some(s)
    case _ => None
  }

  // ---------------------------------------------------------------------------
  // map_survey_type
  // ---------------------------------------------------------------------------

  /**
   * `map_survey_type`: a text containing "starting" is a starting survey (1);
   * otherwise one containing "ending" is an ending survey (2); anything else,
   * and a missing or empty value, has no type.
   */
  function MapSurveyType(v: Option<FormValue>): (r: Option<int>)
    ensures r == Some(1) <==> Given(v) && Contains(Folded(v.value), "starting")
    ensures r == Some(2) <==> Given(v) && !Contains(Folded(v.value), "starting") && Contains(Folded(v.value), "ending")
    ensures r.None? <==> !Given(v) || (!Contains(Folded(v.value), "starting") && !Contains(Folded(v.value), "ending"))
  {
    if !Given(v) then None
    else
      var t := Folded(v.value);
      if Contains(t, "starting") then Some(1)
      else if Contains(t, "ending") then Some(2)
      else None
  }

  /** A label whose lower-case form has no surrounding blanks folds to that form. */
  lemma FoldLabel(x: string, t: string)
    requires Lower(x) == t && |t| > 0 && !IsSpace(t[0]) && !IsSpace(t[|t| - 1])
    ensures Folded(Str(x)) == t
  {
    StripKeeps(t);
  }

  lemma StartingLabelFolds()
    ensures Folded(Str("Starting Project")) == "starting project"
  {
    FoldLabel("Starting Project", "starting project");
  }

  lemma EndingLabelFolds()
    ensures Folded(Str("Ending Project - Cohort 2")) == "ending project - cohort 2"
  {
    FoldLabel("Ending Project - Cohort 2", "ending project - cohort 2");
  }

  /** The Qualtrics label "Starting Project" is type 1. */
  lemma StartingLabel()
    ensures MapSurveyType(Some(Str("Starting Project"))) == Some(1)
  {
    StartingLabelFolds();
    Found("starting project", "starting", 0);
  }

  /** The Qualtrics label "Ending Project - Cohort 2" is type 2. */
  lemma EndingLabel()
    ensures MapSurveyType(Some(Str("Ending Project - Cohort 2"))) == Some(2)
  {
    EndingLabelFolds();
    EndingLabelScans("ending project - cohort 2");
  }

  lemma EndingLabelScans(t: string)
    requires t == "ending project - cohort 2"
    ensures !Contains(t, "starting")
    ensures Contains(t, "ending")
  {
    assert !Contains(t, "starting") by {
      MissingChar(t, "starting", 0);
    }
    assert Contains(t, "ending") by {
      Found(t, "ending", 0);
    }
  }

  // ---------------------------------------------------------------------------
  // map_agreement_scale
  // ---------------------------------------------------------------------------

  /** The longer wording of the middle answer also contains "neither". */
  lemma NeitherSubsumed(t: string)
    requires Contains(t, "neither agree nor disagree")
    ensures Contains(t, "neither")
  {
    Found("neither agree nor disagree", "neither", 0);
    ContainsTransitive(t, "neither agree nor disagree", "neither");
  }

  /**
   * `map_agreement_scale`: the code of the first phrase of the scale that
   * occurs in the folded text, or None; the result is always on 1..5.
   */
  function MapAgreementScale(v: Option<FormValue>): (r: Option<int>)
    ensures r.Some? ==> Given(v) && 1 <= r.value <= 5
  {
    if !Given(v) then None else ScaleCode(Folded(v.value))
  }

  /** The phrase scan of `map_agreement_scale` on the folded text. */
  function ScaleCode(t: string): (r: Option<int>)
    ensures r.Some? ==> 1 <= r.value <= 5
  {
    if Contains(t, "strongly disagree") then Some(1)
    else if Contains(t, "somewhat disagree") then Some(2)
    else if Contains(t, "neither agree nor disagree") || Contains(t, "neither") then Some(3)
    else if Contains(t, "somewhat agree") then Some(4)
    else if Contains(t, "strongly agree") then Some(5)
    else None
  }

  /** The folded value is given and contains phrase `p`. */
  predicate Mentions(v: Option<FormValue>, p: string) {
    Given(v) && Contains(Folded(v.value), p)
  }

  /** The scan's code for each outcome, with "neither agree nor disagree" counted as a mention of "neither". */
  lemma ScaleCodeFirstMatch(t: string)
    ensures ScaleCode(t) == Some(1) <==> Contains(t, "strongly disagree")
    ensures ScaleCode(t) == Some(2) <==> !Contains(t, "strongly disagree") && Contains(t, "somewhat disagree")
    ensures ScaleCode(t) == Some(3) <==> !Contains(t, "strongly disagree") && !Contains(t, "somewhat disagree") && Contains(t, "neither")
    ensures ScaleCode(t) == Some(4) <==> !Contains(t, "strongly disagree") && !Contains(t, "somewhat disagree") && !Contains(t, "neither") && Contains(t, "somewhat agree")
    ensures ScaleCode(t) == Some(5) <==> !Contains(t, "strongly disagree") && !Contains(t, "somewhat disagree") && !Contains(t, "neither") && !Contains(t, "somewhat agree") && Contains(t, "strongly agree")
    ensures ScaleCode(t).None? <==> !Contains(t, "strongly disagree") && !Contains(t, "somewhat disagree") && !Contains(t, "neither") && !Contains(t, "somewhat agree") && !Contains(t, "strongly agree")
  {
    if Contains(t, "neither agree nor disagree") {
      NeitherSubsumed(t);
    }
  }

  /**
   * Order decides: the code is that of the first scale phrase the text
   * mentions, in the order strongly disagree, somewhat disagree, neither,
   * somewhat agree, strongly agree ("neither agree nor disagree" contains
   * "neither"), so a text holding both "strongly disagree" and "strongly
   * agree" reads as 1; a text mentioning none of them gives None.
   */
  lemma AgreementFirstMatch(v: Option<FormValue>)
    ensures MapAgreementScale(v) == Some(1) <==> Mentions(v, "strongly disagree")
    ensures MapAgreementScale(v) == Some(2) <==> !Mentions(v, "strongly disagree") && Mentions(v, "somewhat disagree")
    ensures MapAgreementScale(v) == Some(3) <==> !Mentions(v, "strongly disagree") && !Mentions(v, "somewhat disagree") && Mentions(v, "neither")
    ensures MapAgreementScale(v) == Some(4) <==> !Mentions(v, "strongly disagree") && !Mentions(v, "somewhat disagree") && !Mentions(v, "neither") && Mentions(v, "somewhat agree")
    ensures MapAgreementScale(v) == Some(5) <==> !Mentions(v, "strongly disagree") && !Mentions(v, "somewhat disagree") && !Mentions(v, "neither") && !Mentions(v, "somewhat agree") && Mentions(v, "strongly agree")
    ensures MapAgreementScale(v).None? <==> !Mentions(v, "strongly disagree") && !Mentions(v, "somewhat disagree") && !Mentions(v, "neither") && !Mentions(v, "somewhat agree") && !Mentions(v, "strongly agree")
  {
    if Given(v) {
      ScaleCodeFirstMatch(Folded(v.value));
    }
  }

  lemma StronglyDisagreeLabelFolds()
    ensures Folded(Str("Strongly Disagree")) == "strongly disagree"
  {
    FoldLabel("Strongly Disagree", "strongly disagree");
  }

  lemma StronglyDisagreeLabelScans(t: string)
    requires t == "strongly disagree"
    ensures Contains(t, "strongly disagree")
  {
    assert Contains(t, "strongly disagree") by {
      Found(t, "strongly disagree", 0);
    }
  }

  /** The scale label "Strongly Disagree" reads as 1. */
  lemma StronglyDisagreeLabel()
    ensures MapAgreementScale(Some(Str("Strongly Disagree"))) == Some(1)
  {
    StronglyDisagreeLabelFolds();
    StronglyDisagreeLabelScans("strongly disagree");
    AgreementFirstMatch(Some(Str("Strongly Disagree")));
  }

  lemma SomewhatDisagreeLabelFolds()
    ensures Folded(Str("Somewhat Disagree")) == "somewhat disagree"
  {
    FoldLabel("Somewhat Disagree", "somewhat disagree");
  }

  lemma SomewhatDisagreeLabelScans(t: string)
    requires t == "somewhat disagree"
    ensures !Contains(t, "strongly disagree")
    ensures Contains(t, "somewhat disagree")
  {
    assert !Contains(t, "strongly disagree") by {
      MissingChar(t, "strongly disagree", 4);
    }
    assert Contains(t, "somewhat disagree") by {
      Found(t, "somewhat disagree", 0);
    }
  }

  /** The scale label "Somewhat Disagree" reads as 2. */
  lemma SomewhatDisagreeLabel()
    ensures MapAgreementScale(Some(Str("Somewhat Disagree"))) == Some(2)
  {
    SomewhatDisagreeLabelFolds();
    SomewhatDisagreeLabelScans("somewhat disagree");
    AgreementFirstMatch(Some(Str("Somewhat Disagree")));
  }

  lemma NeitherLabelFolds()
    ensures Folded(Str("Neither Agree nor Disagree")) == "neither agree nor disagree"
  {
    FoldLabel("Neither Agree nor Disagree", "neither agree nor disagree");
  }

  lemma NeitherLabelScans(t: string)
    requires t == "neither agree nor disagree"
    ensures !Contains(t, "strongly disagree")
    ensures !Contains(t, "somewhat disagree")
    ensures Contains(t, "neither")
  {
    assert !Contains(t, "strongly disagree") by {
      MissingChar(t, "strongly disagree", 6);
    }
    assert !Contains(t, "somewhat disagree") by {
      MissingChar(t, "somewhat disagree", 2);
    }
    assert Contains(t, "neither") by {
      Found(t, "neither", 0);
    }
  }

  /** The scale label "Neither Agree nor Disagree" reads as 3. */
  lemma NeitherLabel()
    ensures MapAgreementScale(Some(Str("Neither Agree nor Disagree"))) == Some(3)
  {
    NeitherLabelFolds();
    NeitherLabelScans("neither agree nor disagree");
    AgreementFirstMatch(Some(Str("Neither Agree nor Disagree")));
  }

  lemma SomewhatAgreeLabelFolds()
    ensures Folded(Str("Somewhat Agree")) == "somewhat agree"
  {
    FoldLabel("Somewhat Agree", "somewhat agree");
  }

  lemma SomewhatAgreeLabelScans(t: string)
    requires t == "somewhat agree"
    ensures !Contains(t, "strongly disagree")
    ensures !Contains(t, "somewhat disagree")
    ensures !Contains(t, "neither")
    ensures Contains(t, "somewhat agree")
  {
    assert !Contains(t, "strongly disagree") by {
      MissingChar(t, "strongly disagree", 4);
    }
    assert !Contains(t, "somewhat disagree") by {
      MissingChar(t, "somewhat disagree", 9);
    }
    assert !Contains(t, "neither") by {
      MissingChar(t, "neither", 0);
    }
    assert Contains(t, "somewhat agree") by {
      Found(t, "somewhat agree", 0);
    }
  }

  /** The scale label "Somewhat Agree" reads as 4. */
  lemma SomewhatAgreeLabel()
    ensures MapAgreementScale(Some(Str("Somewhat Agree"))) == Some(4)
  {
    SomewhatAgreeLabelFolds();
    SomewhatAgreeLabelScans("somewhat agree");
    AgreementFirstMatch(Some(Str("Somewhat Agree")));
  }

  lemma StronglyAgreeLabelFolds()
    ensures Folded(Str("Strongly Agree")) == "strongly agree"
  {
    FoldLabel("Strongly Agree", "strongly agree");
  }

  lemma StronglyAgreeLabelScans(t: string)
    requires t == "strongly agree"
    ensures !Contains(t, "strongly disagree")
    ensures !Contains(t, "somewhat disagree")
    ensures !Contains(t, "neither")
    ensures !Contains(t, "somewhat agree")
    ensures Contains(t, "strongly agree")
  {
    assert !Contains(t, "strongly disagree") by {
      MissingChar(t, "strongly disagree", 9);
    }
    assert !Contains(t, "somewhat disagree") by {
      MissingChar(t, "somewhat disagree", 2);
    }
    assert !Contains(t, "neither") by {
      MissingChar(t, "neither", 2);
    }
    assert !Contains(t, "somewhat agree") by {
      MissingChar(t, "somewhat agree", 2);
    }
    assert Contains(t, "strongly agree") by {
      Found(t, "strongly agree", 0);
    }
  }

  /** The scale label "Strongly Agree" reads as 5. */
  lemma StronglyAgreeLabel()
    ensures MapAgreementScale(Some(Str("Strongly Agree"))) == Some(5)
  {
    StronglyAgreeLabelFolds();
    StronglyAgreeLabelScans("strongly agree");
    AgreementFirstMatch(Some(Str("Strongly Agree")));
  }

  // ---------------------------------------------------------------------------
  // map_rating_scale
  // ---------------------------------------------------------------------------

  /**
   * `map_rating_scale`: the integer before the first `(` of the stripped
   * text, or of the whole stripped text when it has none; None for a missing
   * value, `''`, or text `int()` rejects.
   */
  function MapRatingScale(v: Option<FormValue>): (r: Option<int>)
    ensures v.None? || v == Some(Str("")) ==> r.None?
  {
    match v
    case None => None
    case Some(x) =>
      if x == Str("") then None
      else
        var t := Strip(AsText(x));
        if '(' in t then ParseInt(Strip(BeforeFirst(t, '('))) else ParseInt(t)
  }

  /** A text whose stripped form has a `(` reads as the number before its first `(`. */
  lemma RatingBeforeParen(s: string, head: string, rest: string)
    requires Strip(s) == head + ['('] + rest && '(' !in head
    ensures MapRatingScale(Some(Str(s))) == ParseInt(Strip(head))
  {
    var t := Strip(s);
    BeforeFirstJoin(head, '(', rest);
    assert t[|head|] == '(';
  }

  /** A text without `(` reads as `int()` of the whole text, blanks around it included. */
  lemma RatingWithoutParen(s: string)
    requires s != "" && '(' !in s
    ensures MapRatingScale(Some(Str(s))) == ParseInt(s)
  {
    var t := Strip(s);
    assert MapRatingScale(Some(Str(s))) == ParseInt(t) by {
      var u := TrimStart(s);
      assert t == u[..|t|] && u == s[|s| - |u|..];
      forall k | 0 <= k < |t| ensures t[k] != '(' {
        assert t[k] == s[|s| - |u| + k];
      }
    }
    ParseIntOfStripped(s);
  }

  /** A Qualtrics rating label `"n (Caption)"` reads as n. */
  lemma RatingOfLabel(n: int, caption: string)
    ensures MapRatingScale(Some(Str(ShowInt(n) + " (" + caption + ")"))) == Some(n)
  {
    var shown := ShowInt(n);
    var s := shown + " (" + caption + ")";
    assert s == (shown + " ") + ['('] + (caption + ")");
    assert s[0] == shown[0] && s[|s| - 1] == ')';
    StripKeeps(s);
    RatingBeforeParen(s, shown + " ", caption + ")");
    StripTrailingBlank(shown);
    ParseShowInt(n);
  }

  /** A bare rating `"n"` reads as n too, so `"0"` reads as 0. */
  lemma RatingOfNumber(n: int)
    ensures MapRatingScale(Some(Str(ShowInt(n)))) == Some(n)
  {
    StripKeeps(ShowInt(n));
    ParseShowInt(n);
  }

  /** `'0'` is a rating of 0 but no value for `safe_int`. */
  lemma ZeroRatingIsNotMissing()
    ensures MapRatingScale(Some(Str("0"))) == Some(0)
    ensures SafeInt(Some(Str("0"))) == None
  {
    RatingOfNumber(0);
    assert ShowInt(0) == "0";
  }

  /** A list value is shown with a leading `[`, which `int()` rejects. */
  lemma RatingOfList(items: seq<string>)
    ensures MapRatingScale(Some(List(items))) == None
  {
    var shown := AsText(List(items));
    StripFirst(shown);
    var t := Strip(shown);
    if '(' in t {
      var before := BeforeFirst(t, '(');
      assert before[0] == '[';
      StripFirst(before);
      ParseIntLead(before);
    } else {
      StripKeeps(t);
      ParseIntLead(t);
    }
  }

  // ---------------------------------------------------------------------------
  // map_mentor_to_int and map_topic_to_int
  // ---------------------------------------------------------------------------

  /** The roster file's lines, stripped, with the blank ones dropped. */
  function CleanRoster(lines: seq<string>): (names: seq<string>)
    ensures |names| <= |lines|
    ensures forall k :: 0 <= k < |names| ==> names[k] != ""
  {
    if lines == [] then []
    else if Strip(lines[0]) != "" then [Strip(lines[0])] + CleanRoster(lines[1..])
    else CleanRoster(lines[1..])
  }

  /** One line contributes its stripped text, unless that is blank. */
  lemma CleanRosterLine(line: string)
    ensures CleanRoster([line]) == if Strip(line) == "" then [] else [Strip(line)]
  {
  }

  /** The roster of two files one after the other is the two rosters one after the other. */
  lemma {:induction false} CleanRosterAppend(a: seq<string>, b: seq<string>)
    ensures CleanRoster(a + b) == CleanRoster(a) + CleanRoster(b)
  {
    if a == [] {
      assert a + b == b;
    } else {
      var ab := a + b;
      assert ab[0] == a[0] && ab[1..] == a[1..] + b;
      CleanRosterAppend(a[1..], b);
    }
  }

  /** Some line of the file strips to `name`. */
  ghost predicate SomeLineStripsTo(lines: seq<string>, name: string) {
    exists k :: 0 <= k < |lines| && Strip(lines[k]) == name
  }

  /** A name is in the roster exactly when some line strips to it and it is not blank. */
  lemma {:induction false} CleanRosterMembers(lines: seq<string>, name: string)
    ensures name in CleanRoster(lines) <==> name != "" && SomeLineStripsTo(lines, name)
  {
    if lines != [] {
      var rest := lines[1..];
      CleanRosterMembers(rest, name);
      assert SomeLineStripsTo(lines, name) <==> Strip(lines[0]) == name || SomeLineStripsTo(rest, name) by {
        if SomeLineStripsTo(rest, name) {
          var k :| 0 <= k < |rest| && Strip(rest[k]) == name;
          assert Strip(lines[k + 1]) == name;
        }
        if SomeLineStripsTo(lines, name) {
          var k :| 0 <= k < |lines| && Strip(lines[k]) == name;
          if k > 0 {
            assert Strip(rest[k - 1]) == name;
          }
        }
      }
    }
  }

  /** `{name: idx + 1 for idx, name in enumerate(names)}`: a repeated name keeps its later position. */
  function RosterIndex(names: seq<string>): map<string, int>
  {
    if names == [] then map[] else RosterIndex(names[..|names| - 1])[names[|names| - 1] := |names|]
  }

  /** The last position of `name` in `names`, if any. */
  function LastPosition(names: seq<string>, name: string): (r: Option<nat>)
    ensures r.Some? ==> r.value < |names| && names[r.value] == name
    ensures r.Some? ==> forall k :: r.value < k < |names| ==> names[k] != name
    ensures r.None? <==> name !in names
  {
    if names == [] then None
    else if names[|names| - 1] == name then Some(|names| - 1)
    else LastPosition(names[..|names| - 1], name)
  }

  /** The roster dictionary holds exactly the roster's names, each at its last 1-based position. */
  lemma {:induction false} RosterIndexLast(names: seq<string>, name: string)
    ensures name in RosterIndex(names) <==> name in names
    ensures name in names ==> RosterIndex(names)[name] == LastPosition(names, name).value + 1
  {
    if names != [] {
      var init := names[..|names| - 1];
      RosterIndexLast(init, name);
      assert names == init + [names[|names| - 1]];
    }
  }

  /**
   * `map_mentor_to_int`: a non-empty mentor name's 1-based position in the
   * roster, or the roster's length (its last entry, "Other") for a name not
   * on it. None for a missing or empty name, for a roster that could not be
   * read, and for a list value (which cannot be a dictionary key).
   */
  function MapMentorToInt(v: FormValue, roster: Option<seq<string>>): (r: Option<int>)
    ensures r.Some? ==> roster.Some? && 0 <= r.value <= |CleanRoster(roster.value)|
    ensures r.Some? && r.value == 0 ==> CleanRoster(roster.value) == []
  {
    if !Truthy(v) then None
    else if roster.None? then None
    else if v.List? then None
    else
      var names := CleanRoster(roster.value);
      var index := RosterIndex(names);
      RosterIndexLast(names, v.s);
      Some(if v.s in index then index[v.s] else |names|)
  }

  /**
   * The mentor code is the name's last 1-based position on the cleaned
   * roster, or the roster's length for an unknown name; it is None exactly
   * for an empty name, an unreadable roster or a list value.
   */
  lemma MentorLookup(v: FormValue, roster: Option<seq<string>>)
    ensures MapMentorToInt(v, roster).Some? <==> Truthy(v) && roster.Some? && v.Str?
    ensures MapMentorToInt(v, roster).Some? && v.s in CleanRoster(roster.value) ==>
              MapMentorToInt(v, roster).value == LastPosition(CleanRoster(roster.value), v.s).value + 1
    ensures MapMentorToInt(v, roster).Some? && v.s !in CleanRoster(roster.value) ==>
              MapMentorToInt(v, roster).value == |CleanRoster(roster.value)|
  {
    if v.Str? && roster.Some? {
      RosterIndexLast(CleanRoster(roster.value), v.s);
    }
  }

  /**
   * `map_topic_to_int`: a non-empty topic name's 1-based position in the
   * topic roster, or 1 for a name not on it; None as for the mentor lookup.
   */
  function MapTopicToInt(v: FormValue, roster: Option<seq<string>>): (r: Option<int>)
    ensures r.Some? ==> roster.Some? && 1 <= r.value && (r.value == 1 || r.value <= |CleanRoster(roster.value)|)
  {
    if !Truthy(v) then None
    else if roster.None? then None
    else if v.List? then None
    else
      var index := RosterIndex(CleanRoster(roster.value));
      RosterIndexLast(CleanRoster(roster.value), v.s);
      Some(if v.s in index then index[v.s] else 1)
  }

  /** The topic code is the name's last 1-based position, or 1 for a name not on the roster. */
  lemma TopicLookup(v: FormValue, roster: Option<seq<string>>)
    ensures MapTopicToInt(v, roster).Some? <==> Truthy(v) && roster.Some? && v.Str?
    ensures MapTopicToInt(v, roster).Some? && v.s in CleanRoster(roster.value) ==>
              MapTopicToInt(v, roster).value == LastPosition(CleanRoster(roster.value), v.s).value + 1
    ensures MapTopicToInt(v, roster).Some? && v.s !in CleanRoster(roster.value) ==>
              MapTopicToInt(v, roster).value == 1
  {
    if v.Str? && roster.Some? {
      RosterIndexLast(CleanRoster(roster.value), v.s);
    }
  }

  /** On a roster without repeated names, the k-th name (from 0) has code k + 1. */
  lemma {:induction false} DistinctRosterPosition(names: seq<string>, k: nat)
    requires k < |names|
    requires forall i, j :: 0 <= i < j < |names| ==> names[i] != names[j]
    ensures names[k] in RosterIndex(names) && RosterIndex(names)[names[k]] == k + 1
  {
    RosterIndexLast(names, names[k]);
  }
}
