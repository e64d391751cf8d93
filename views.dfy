/** The request handling of the analyst home page and the per-user scoping
    of the API viewsets (healthlog/core/views.py). */
module Views {
  import opened Wrappers
  import Dates
  import Seqs
  import opened HealthlogModels
  import opened HealthlogForms
  import opened Reports

  /** The `form_name` each report helper answers to. */
  function ReportName(f: ReportForm): (s: string) {
    match f
    case TopFoodChoice => "top_food"
    case TopTemporaryAilment => "top_ailment"
    case TopChronicCondition => "top_condition"
  }

  /** A posted `form_name` selects at most one report. */
  lemma ReportNamesDistinct(f: ReportForm, g: ReportForm)
    ensures ReportName(f) == ReportName(g) <==> f == g
  {
  }

  // ---------------------------------------------------------------------
  // Form data kept in the session

  /** A JSON-serialisable value as the session stores it. */
  datatype SessionValue = SNone | SInt(n: int) | SText(text: string)

  type FormData = map<string, SessionValue>

  function IntValue(v: Option<int>): SessionValue {
    if v.None? then SNone else SInt(v.value)
  }

  /** A date is stored as `str(date)`. */
  function DateValue(v: Option<Dates.Date>): SessionValue
    requires v.Some? ==> Dates.Valid(v.value)
  {
    if v.None? then SNone else SText(Dates.IsoFormat(v.value))
  }

  /** The fields each report form declares. */
  function FieldNames(f: ReportForm): set<string> {
    match f
    case TopFoodChoice => {"min_age", "max_age", "condition", "ailment", "min_date", "max_date", "limit"}
    case TopTemporaryAilment => {"min_age", "max_age", "condition", "food", "min_date", "max_date", "limit"}
    case TopChronicCondition => {"min_age", "max_age", "ailment", "food", "limit"}
  }

  /** The cleaned data of a valid form as written to the session: numbers as
      they are, a chosen record by its primary key, a date by its string
      form, and a blank field as `None`. Exactly the form's own fields
      appear. */
  function Encode(f: ReportForm, d: ReportInput): (m: FormData)
    requires FieldsValid(d)
    ensures m.Keys == FieldNames(f)
    ensures m["min_age"] == IntValue(d.minAge) && m["max_age"] == IntValue(d.maxAge)
    ensures m["limit"] == IntValue(d.limit)
  {
    match f
    case TopFoodChoice =>
      map["min_age" := IntValue(d.minAge), "max_age" := IntValue(d.maxAge),
          "condition" := IntValue(d.condition), "ailment" := IntValue(d.ailment),
          "min_date" := DateValue(d.minDate), "max_date" := DateValue(d.maxDate),
          "limit" := IntValue(d.limit)]
    case TopTemporaryAilment =>
      map["min_age" := IntValue(d.minAge), "max_age" := IntValue(d.maxAge),
          "condition" := IntValue(d.condition), "food" := IntValue(d.food),
          "min_date" := DateValue(d.minDate), "max_date" := DateValue(d.maxDate),
          "limit" := IntValue(d.limit)]
    case TopChronicCondition =>
      map["min_age" := IntValue(d.minAge), "max_age" := IntValue(d.maxAge),
          "ailment" := IntValue(d.ailment), "food" := IntValue(d.food),
          "limit" := IntValue(d.limit)]
  }

  function ReadInt(m: FormData, key: string): Option<int> {
    if key in m && m[key].SInt? then Some(m[key].n) else None
  }

  function ReadDate(m: FormData, key: string): Option<Dates.Date> {
    if key in m && m[key].SText? then Dates.ParseIso(m[key].text) else None
  }

  /** The values a form rebuilt from session data shows. */
  function Decode(f: ReportForm, m: FormData): ReportInput {
    Bind(f, ReportInput(ReadInt(m, "min_age"), ReadInt(m, "max_age"),
                        ReadInt(m, "condition"), ReadInt(m, "ailment"), ReadInt(m, "food"),
                        ReadDate(m, "min_date"), ReadDate(m, "max_date"), ReadInt(m, "limit")))
  }

  /** A form rebuilt from what a valid submission stored shows that
      submission again. */
  lemma DecodeEncode(f: ReportForm, d: ReportInput)
    requires FieldsValid(d)
    ensures Decode(f, Encode(f, d)) == Bind(f, d)
  {
    var m := Encode(f, d);
    if d.minDate.Some? { Dates.ParseIsoFormat(d.minDate.value); }
    if d.maxDate.Some? { Dates.ParseIsoFormat(d.maxDate.value); }
    match f
    case TopFoodChoice =>
      assert ReadInt(m, "condition") == d.condition && ReadInt(m, "ailment") == d.ailment;
      assert ReadDate(m, "min_date") == d.minDate && ReadDate(m, "max_date") == d.maxDate;
    case TopTemporaryAilment =>
      assert ReadInt(m, "condition") == d.condition && ReadInt(m, "food") == d.food;
      assert ReadDate(m, "min_date") == d.minDate && ReadDate(m, "max_date") == d.maxDate;
    case TopChronicCondition =>
      assert ReadInt(m, "ailment") == d.ailment && ReadInt(m, "food") == d.food;
  }

  /** An empty session rebuilds a blank form. */
  lemma DecodeNothing(f: ReportForm)
    ensures Decode(f, map[]) == ReportInput(None, None, None, None, None, None, None, None)
  {
  }

  // ---------------------------------------------------------------------
  // The home view

  /** The POST data of a request: the `form_name` field and the report
      fields. A request without POST data, or with an empty one, has none. */
  datatype Posted = Posted(formName: Option<string>, input: ReportInput)
  datatype Request = Request(post: Option<Posted>)

  /** `self.request.POST.get('form_name', '') if self.request.POST else ''`. */
  function FormName(request: Request): (s: string)
    ensures request.post.None? ==> s == ""
    ensures request.post.Some? && request.post.value.formName.None? ==> s == ""
    ensures request.post.Some? && request.post.value.formName.Some? ==> s == request.post.value.formName.value
  {
    match request.post
    case None => ""
    case Some(p) => if p.formName.None? then "" else p.formName.value
  }

  /** What a helper puts in the context as the results: a list of rows, or
      the empty dict shown after an invalid submission. */
  datatype Shown = Rows(rows: seq<Row>) | EmptyDict

  /** The form a helper puts in the context: rebuilt from the session's
      previous data, or bound to the submitted data. */
  datatype ShownForm = Previous(data: FormData) | Submitted(input: ReportInput)

  /** What the home view reads and writes: `session['top_*_results']`,
      `session['top_*_form']` and the matching context entries. */
  datatype PageState = PageState(
    sessionResults: map<ReportForm, seq<Row>>, sessionForms: map<ReportForm, FormData>,
    contextResults: map<ReportForm, Shown>, contextForms: map<ReportForm, ShownForm>)

  /** `session.get('top_*_results', [])`. */
  function PreviousResults(s: PageState, f: ReportForm): seq<Row> {
    if f in s.sessionResults then s.sessionResults[f] else []
  }

  /** `session.get('top_*_form', {})`. */
  function PreviousForm(s: PageState, f: ReportForm): FormData {
    if f in s.sessionForms then s.sessionForms[f] else map[]
  }

  /** Whether a helper reuses what the session holds instead of running its
      query. */
  predicate Reuses(f: ReportForm, request: Request, formName: string) {
    request.post.None? || formName != ReportName(f)
  }

  /** The submitted data as the helper's form sees it. */
  function Bound(f: ReportForm, request: Request): ReportInput
    requires request.post.Some?
  {
    Bind(f, request.post.value.input)
  }

  /** The row limit a report helper slices with: the one the code reads
      (`AsWritten`, `None` for a blank field) or the one it evidently means
      (`Intended`, 10 for a blank field). */
  datatype LimitRule = AsWritten | Intended

  function RowLimit(rule: LimitRule, d: ReportInput): Option<nat>
    requires d.limit.Some? ==> d.limit.value >= 0
  {
    if rule.AsWritten? then LimitAsWritten(d) else Some(Limit(d))
  }

  /** One `_get_top_*_context` helper as a step on the page state, with the
      error it raises, if any, as written. */
  function TopStep(f: ReportForm, request: Request, formName: string, db: Snapshot, today: Dates.Date, s: PageState)
    : (PageState, Outcome<OverflowError>)
    requires Dates.Valid(today) && WellFormed(db)
  {
    ReportStep(AsWritten, f, request, formName, db, today, s)
  }

  /** The helper as evidently intended: a blank limit shows ten rows. */
  function IntendedTopStep(f: ReportForm, request: Request, formName: string, db: Snapshot, today: Dates.Date, s: PageState)
    : (PageState, Outcome<OverflowError>)
    requires Dates.Valid(today) && WellFormed(db)
  {
    ReportStep(Intended, f, request, formName, db, today, s)
  }

  /** The helper under either limit rule. */
  function ReportStep(rule: LimitRule, f: ReportForm, request: Request, formName: string, db: Snapshot,
                      today: Dates.Date, s: PageState)
    : (PageState, Outcome<OverflowError>)
    requires Dates.Valid(today) && WellFormed(db)
  {
    if Reuses(f, request, formName) then
      (s.(contextResults := s.contextResults[f := Rows(PreviousResults(s, f))],
          contextForms := s.contextForms[f := Previous(PreviousForm(s, f))]), Pass)
    else
      var d := Bound(f, request);
      if !IsValid(f, d, ChoicesOf(db)) then
        (s.(contextResults := s.contextResults[f := EmptyDict],
            contextForms := s.contextForms[f := Submitted(d)]), Pass)
      else match ActiveFilters(d, today)
        case Err(e) => (s, Fail(e))
        case Ok(filters) =>
          var rows := TopRows(FactsFor(f, db), filters, RowLimit(rule, d));
          (PageState(s.sessionResults[f := rows], s.sessionForms[f := Encode(f, d)],
                     s.contextResults[f := Rows(rows)], s.contextForms[f := Submitted(d)]), Pass)
  }

  /** The helper's step, branch by branch. */
  lemma TopStepCases(f: ReportForm, request: Request, formName: string, db: Snapshot, today: Dates.Date, s: PageState)
    requires Dates.Valid(today) && WellFormed(db)
    ensures Reuses(f, request, formName) ==>
      TopStep(f, request, formName, db, today, s)
        == (s.(contextResults := s.contextResults[f := Rows(PreviousResults(s, f))],
               contextForms := s.contextForms[f := Previous(PreviousForm(s, f))]), Pass)
    ensures !Reuses(f, request, formName) && !IsValid(f, Bound(f, request), ChoicesOf(db)) ==>
      TopStep(f, request, formName, db, today, s)
        == (s.(contextResults := s.contextResults[f := EmptyDict],
               contextForms := s.contextForms[f := Submitted(Bound(f, request))]), Pass)
    ensures !Reuses(f, request, formName) && IsValid(f, Bound(f, request), ChoicesOf(db)) && ActiveFilters(Bound(f, request), today).Err? ==>
      TopStep(f, request, formName, db, today, s) == (s, Fail(OverflowError))
    ensures !Reuses(f, request, formName) && IsValid(f, Bound(f, request), ChoicesOf(db)) && ActiveFilters(Bound(f, request), today).Ok? ==>
      var d := Bound(f, request);
      var rows := TopRows(FactsFor(f, db), ActiveFilters(d, today).value, LimitAsWritten(d));
      TopStep(f, request, formName, db, today, s)
        == (PageState(s.sessionResults[f := rows], s.sessionForms[f := Encode(f, d)],
                      s.contextResults[f := Rows(rows)], s.contextForms[f := Submitted(d)]), Pass)
  {
  }

  /** Without POST data for this report, the session's previous results and
      form are shown and the session is not written. */
  lemma ReuseShowsSession(f: ReportForm, request: Request, formName: string, db: Snapshot, today: Dates.Date, s: PageState)
    requires Dates.Valid(today) && WellFormed(db) && Reuses(f, request, formName)
    ensures var (t, r) := TopStep(f, request, formName, db, today, s);
      && r.Pass?
      && t.sessionResults == s.sessionResults && t.sessionForms == s.sessionForms
      && t.contextResults[f] == Rows(PreviousResults(s, f))
      && t.contextForms[f] == Previous(PreviousForm(s, f))
  {
  }

  /** An invalid submission shows the bound form and empty results, and the
      session is not written. */
  lemma InvalidShowsNothing(f: ReportForm, request: Request, db: Snapshot, today: Dates.Date, s: PageState)
    requires Dates.Valid(today) && WellFormed(db) && request.post.Some?
    requires !IsValid(f, Bound(f, request), ChoicesOf(db))
    ensures var (t, r) := TopStep(f, request, ReportName(f), db, today, s);
      && r.Pass?
      && t.sessionResults == s.sessionResults && t.sessionForms == s.sessionForms
      && t.contextResults[f] == EmptyDict
      && t.contextForms[f] == Submitted(Bound(f, request))
  {
  }

  /** A submission that chooses a condition, ailment or food with no record
      of that key is invalid: the bound form and empty results are shown,
      and the session is not written. */
  lemma UnknownChoiceShowsNothing(f: ReportForm, request: Request, db: Snapshot, today: Dates.Date, s: PageState)
    requires Dates.Valid(today) && WellFormed(db) && request.post.Some?
    requires var d := Bound(f, request);
      || (d.condition.Some? && forall x :: x in db.conditions ==> x.pk != d.condition.value)
      || (d.ailment.Some? && forall x :: x in db.ailments ==> x.pk != d.ailment.value)
      || (d.food.Some? && forall x :: x in db.foods ==> x.pk != d.food.value)
    ensures TopStep(f, request, ReportName(f), db, today, s)
         == (s.(contextResults := s.contextResults[f := EmptyDict],
                contextForms := s.contextForms[f := Submitted(Bound(f, request))]), Pass)
  {
    assert !ChoicesExist(Bound(f, request), ChoicesOf(db));
  }

  /** A valid submission shows the report, stores the same rows in the
      session, and stores form data that rebuilds the submitted form; an
      out-of-calendar age threshold stops it before anything is written.
      The report holds at most `limit` rows when one is given, and every
      group of the filtered rows when the field is blank. */
  lemma ValidRunsReport(f: ReportForm, request: Request, db: Snapshot, today: Dates.Date, s: PageState)
    requires Dates.Valid(today) && WellFormed(db) && request.post.Some?
    requires IsValid(f, Bound(f, request), ChoicesOf(db))
    ensures var (t, r) := TopStep(f, request, ReportName(f), db, today, s);
      var d := Bound(f, request);
      && (r.Fail? <==> !AgesInRange(d, today))
      && (r.Fail? ==> t == s)
      && (r.Pass? ==>
            var rows := TopRows(FactsFor(f, db), ActiveFilters(d, today).value, LimitAsWritten(d));
            var groups := Group(KeepAll(FactsFor(f, db), ActiveFilters(d, today).value));
            && t.contextResults[f] == Rows(rows) && t.sessionResults[f] == rows
            && (d.limit.Some? ==> |rows| <= d.limit.value)
            && (d.limit.None? ==> multiset(rows) == multiset(groups))
            && SortedByTotal(rows)
            && t.contextForms[f] == Submitted(d)
            && Decode(f, t.sessionForms[f]) == d)
  {
    var d := Bound(f, request);
    if AgesInRange(d, today) {
      var filters := ActiveFilters(d, today).value;
      var rows := TopRows(FactsFor(f, db), filters, LimitAsWritten(d));
      var t := TopStep(f, request, ReportName(f), db, today, s).0;
      assert t == PageState(s.sessionResults[f := rows], s.sessionForms[f := Encode(f, d)],
                            s.contextResults[f := Rows(rows)], s.contextForms[f := Submitted(d)]);
      TopRowsSpec(FactsFor(f, db), filters, LimitAsWritten(d));
      assert Bind(f, d) == d;
      DecodeEncode(f, d);
    }
  }

  /** As written, a valid submission with a blank limit shows and stores
      every group of its filtered report, so more than ten rows whenever the
      query yields more than ten groups. */
  lemma BlankLimitShowsAllGroups(f: ReportForm, request: Request, db: Snapshot, today: Dates.Date, s: PageState)
    requires Dates.Valid(today) && WellFormed(db) && request.post.Some?
    requires IsValid(f, Bound(f, request), ChoicesOf(db)) && Bound(f, request).limit.None?
    requires AgesInRange(Bound(f, request), today)
    ensures var (t, r) := TopStep(f, request, ReportName(f), db, today, s);
      var d := Bound(f, request);
      var groups := Group(KeepAll(FactsFor(f, db), ActiveFilters(d, today).value));
      && r.Pass?
      && multiset(t.contextResults[f].rows) == multiset(groups)
      && t.sessionResults[f] == t.contextResults[f].rows
      && (|groups| > DefaultLimit ==> |t.sessionResults[f]| > DefaultLimit)
  {
    var d := Bound(f, request);
    ValidRunsReport(f, request, db, today, s);
    BlankLimitShowsEveryRow(FactsFor(f, db), ActiveFilters(d, today).value, d);
  }

  /** As intended, a valid submission with a blank limit shows and stores
      at most ten rows, and every group when there are no more than ten. */
  lemma IntendedBlankLimitCapsAtTen(f: ReportForm, request: Request, db: Snapshot, today: Dates.Date, s: PageState)
    requires Dates.Valid(today) && WellFormed(db) && request.post.Some?
    requires IsValid(f, Bound(f, request), ChoicesOf(db)) && Bound(f, request).limit.None?
    requires AgesInRange(Bound(f, request), today)
    ensures var (t, r) := IntendedTopStep(f, request, ReportName(f), db, today, s);
      var d := Bound(f, request);
      var groups := Group(KeepAll(FactsFor(f, db), ActiveFilters(d, today).value));
      && r.Pass?
      && t.sessionResults[f] == t.contextResults[f].rows
      && |t.sessionResults[f]| <= DefaultLimit
      && (|groups| <= DefaultLimit ==> multiset(t.sessionResults[f]) == multiset(groups))
  {
    var d := Bound(f, request);
    BlankLimitCapsAtTen(FactsFor(f, db), ActiveFilters(d, today).value, d);
  }

  /** Only the helper of the posted report writes the session, and only
      its own entries. */
  lemma TopStepFrame(f: ReportForm, g: ReportForm, request: Request, formName: string, db: Snapshot, today: Dates.Date, s: PageState)
    requires Dates.Valid(today) && WellFormed(db)
    requires f != g || Reuses(f, request, formName)
    ensures var t := TopStep(f, request, formName, db, today, s).0;
      PreviousResults(t, g) == PreviousResults(s, g) && PreviousForm(t, g) == PreviousForm(s, g)
  {
    ReportStepKeepsResults(AsWritten, f, g, request, formName, db, today, s);
    ReportStepKeepsForms(AsWritten, f, g, request, formName, db, today, s);
  }

  /** The same frame under either limit rule, for the stored results... */
  lemma ReportStepKeepsResults(rule: LimitRule, f: ReportForm, g: ReportForm, request: Request, formName: string,
                               db: Snapshot, today: Dates.Date, s: PageState)
    requires Dates.Valid(today) && WellFormed(db)
    requires f != g || Reuses(f, request, formName)
    ensures PreviousResults(ReportStep(rule, f, request, formName, db, today, s).0, g) == PreviousResults(s, g)
  {
    if !Reuses(f, request, formName) && IsValid(f, Bound(f, request), ChoicesOf(db)) && AgesInRange(Bound(f, request), today) {
      var t := ReportStep(rule, f, request, formName, db, today, s).0;
      assert t.sessionResults == s.sessionResults[f := t.sessionResults[f]];
    }
  }

  /** ... and for the stored forms. */
  lemma ReportStepKeepsForms(rule: LimitRule, f: ReportForm, g: ReportForm, request: Request, formName: string,
                             db: Snapshot, today: Dates.Date, s: PageState)
    requires Dates.Valid(today) && WellFormed(db)
    requires f != g || Reuses(f, request, formName)
    ensures PreviousForm(ReportStep(rule, f, request, formName, db, today, s).0, g) == PreviousForm(s, g)
  {
    ReportStepForms(rule, f, request, formName, db, today, s);
  }

  /** A helper's step either keeps the stored forms or, when it runs its
      report, stores the submitted form under its own key. */
  lemma ReportStepForms(rule: LimitRule, f: ReportForm, request: Request, formName: string,
                        db: Snapshot, today: Dates.Date, s: PageState)
    requires Dates.Valid(today) && WellFormed(db)
    ensures var t := ReportStep(rule, f, request, formName, db, today, s).0;
      || t.sessionForms == s.sessionForms
      || (!Reuses(f, request, formName) && t.sessionForms == s.sessionForms[f := Encode(f, Bound(f, request))])
  {
  }

  /** `get_context_data`: the three helpers in turn, with the posted
      `form_name`; an error from one of them stops the request. */
  function ContextStep(request: Request, db: Snapshot, today: Dates.Date, s: PageState): (PageState, Outcome<OverflowError>)
    requires Dates.Valid(today) && WellFormed(db)
  {
    var formName := FormName(request);
    var (s1, r1) := TopStep(TopFoodChoice, request, formName, db, today, s);
    if r1.Fail? then (s1, r1) else
    var (s2, r2) := TopStep(TopTemporaryAilment, request, formName, db, today, s1);
    if r2.Fail? then (s2, r2) else
    TopStep(TopChronicCondition, request, formName, db, today, s2)
  }

  /** A request without POST data recomputes nothing: every report shows the
      session's previous results, and the session is left as it was. */
  lemma GetShowsSession(request: Request, db: Snapshot, today: Dates.Date, s: PageState)
    requires Dates.Valid(today) && WellFormed(db) && request.post.None?
    ensures var (t, r) := ContextStep(request, db, today, s);
      && r.Pass? && t.sessionResults == s.sessionResults && t.sessionForms == s.sessionForms
      && (forall g :: g in t.contextResults && t.contextResults[g] == Rows(PreviousResults(s, g)))
      && (forall g :: g in t.contextForms && t.contextForms[g] == Previous(PreviousForm(s, g)))
  {
    var s1 := TopStep(TopFoodChoice, request, "", db, today, s).0;
    var s2 := TopStep(TopTemporaryAilment, request, "", db, today, s1).0;
    var t := TopStep(TopChronicCondition, request, "", db, today, s2).0;
    forall g ensures g in t.contextResults && t.contextResults[g] == Rows(PreviousResults(s, g))
                  && g in t.contextForms && t.contextForms[g] == Previous(PreviousForm(s, g))
    {
      match g
      case TopFoodChoice =>
      case TopTemporaryAilment =>
      case TopChronicCondition =>
    }
  }

  /** Only the report whose form was posted can change the session. */
  lemma PostChangesOneReport(request: Request, db: Snapshot, today: Dates.Date, s: PageState, g: ReportForm)
    requires Dates.Valid(today) && WellFormed(db) && ReportName(g) != FormName(request)
    ensures var t := ContextStep(request, db, today, s).0;
      PreviousResults(t, g) == PreviousResults(s, g) && PreviousForm(t, g) == PreviousForm(s, g)
  {
    var formName := FormName(request);
    var s1 := TopStep(TopFoodChoice, request, formName, db, today, s).0;
    var s2 := TopStep(TopTemporaryAilment, request, formName, db, today, s1).0;
    TopStepFrame(TopFoodChoice, g, request, formName, db, today, s);
    TopStepFrame(TopTemporaryAilment, g, request, formName, db, today, s1);
    TopStepFrame(TopChronicCondition, g, request, formName, db, today, s2);
  }

  class HomeView {
    var sessionResults: map<ReportForm, seq<Row>>
    var sessionForms: map<ReportForm, FormData>
    var contextResults: map<ReportForm, Shown>
    var contextForms: map<ReportForm, ShownForm>

    /** A view on a request whose session holds the given entries, with an
        empty context. */
    constructor (sessionResults: map<ReportForm, seq<Row>>, sessionForms: map<ReportForm, FormData>)
      ensures State() == PageState(sessionResults, sessionForms, map[], map[])
    {
      this.sessionResults, this.sessionForms := sessionResults, sessionForms;
      contextResults, contextForms := map[], map[];
    }

    function State(): PageState
      reads this
    {
      PageState(sessionResults, sessionForms, contextResults, contextForms)
    }

    /** `_get_top_food_context`, `_get_top_ailment_context` and
        `_get_top_condition_context`: reuse the session's results unless
        this report's form was posted; show empty results for an invalid
        submission; otherwise narrow the queryset filter by filter, count,
        order and truncate it, show it, and store both the results and the
        encoded form data in the session. */
    method TopContext(f: ReportForm, request: Request, formName: string, db: Snapshot, today: Dates.Date)
      returns (r: Outcome<OverflowError>)
      requires Dates.Valid(today) && WellFormed(db)
      modifies this
      ensures (State(), r) == TopStep(f, request, formName, db, today, old(State()))
    {
      var results := PreviousResults(State(), f);
      var previous := PreviousForm(State(), f);
      TopStepCases(f, request, formName, db, today, State());
      if Reuses(f, request, formName) {
        contextForms := contextForms[f := Previous(previous)];
        contextResults := contextResults[f := Rows(results)];
        return Pass;
      }
      var d := Bound(f, request);
      if !IsValid(f, d, ChoicesOf(db)) {
        contextForms := contextForms[f := Submitted(d)];
        contextResults := contextResults[f := EmptyDict];
        return Pass;
      }
      var report := RunReport(f, d, db, today);
      if report.Err? {
        return Fail(OverflowError);
      }
      var rows := report.value;
      contextResults := contextResults[f := Rows(rows)];
      contextForms := contextForms[f := Submitted(d)];
      sessionResults := sessionResults[f := rows];
      sessionForms := sessionForms[f := Encode(f, d)];
      return Pass;
    }

    /** `get_context_data`. */
    method ContextData(request: Request, db: Snapshot, today: Dates.Date) returns (r: Outcome<OverflowError>)
      requires Dates.Valid(today) && WellFormed(db)
      modifies this
      ensures (State(), r) == ContextStep(request, db, today, old(State()))
    {
      var formName := FormName(request);
      r := TopContext(TopFoodChoice, request, formName, db, today);
      if r.Fail? {
        return;
      }
      r := TopContext(TopTemporaryAilment, request, formName, db, today);
      if r.Fail? {
        return;
      }
      r := TopContext(TopChronicCondition, request, formName, db, today);
    }
  }

  /** The valid branch of `get_top_context`: filter the report's queryset,
      group it, order it by total and slice it with the submitted limit. */
  method RunReport(f: ReportForm, d: ReportInput, db: Snapshot, today: Dates.Date)
    returns (r: Result<seq<Row>, OverflowError>)
    requires Dates.Valid(today) && WellFormed(db) && IsValid(f, d, ChoicesOf(db))
    ensures r.Err? <==> ActiveFilters(d, today).Err?
    ensures r.Ok? ==> r.value == TopRows(FactsFor(f, db), ActiveFilters(d, today).value, LimitAsWritten(d))
  {
    var filtered := FilteredQueryset(FactsFor(f, db), d, today);
    if filtered.Err? {
      return Err(filtered.error);
    }
    var limit := LimitAsWritten(d);
    return Ok(Slice(SortByTotal(Group(filtered.value)), limit));
  }

  /** The queryset of one report, narrowed step by step by each filter
      whose field is not blank; an age threshold outside the calendar
      raises `OverflowError`. */
  method FilteredQueryset(all: seq<Fact>, d: ReportInput, today: Dates.Date)
    returns (r: Result<seq<Fact>, OverflowError>)
    requires Dates.Valid(today)
    ensures r.Err? <==> ActiveFilters(d, today).Err?
    ensures r.Ok? ==> r.value == KeepAll(all, ActiveFilters(d, today).value)
  {
    var aged := AgeFiltered(all, d, today);
    if aged.Err? {
      return Err(aged.error);
    }
    var queryset := FieldFiltered(aged.value, all, MinAgeFilter(d, today) + MaxAgeFilter(d, today), d);
    return Ok(queryset);
  }

  /** The minimum- and maximum-age steps. */
  method AgeFiltered(all: seq<Fact>, d: ReportInput, today: Dates.Date)
    returns (r: Result<seq<Fact>, OverflowError>)
    requires Dates.Valid(today)
    ensures r.Err? <==> !AgesInRange(d, today)
    ensures r.Ok? ==> r.value == KeepAll(all, MinAgeFilter(d, today) + MaxAgeFilter(d, today))
  {
    var queryset := all;
    ghost var applied: seq<Filter> := [];
    KeepAllNone(all);
    if d.minAge.Some? {
      var threshold := Threshold(today, d.minAge.value);
      if threshold.Err? {
        return Err(threshold.error);
      }
      NarrowKeepAll(all, applied, BornBy(threshold.value));
      queryset := Narrow(queryset, BornBy(threshold.value));
      applied := applied + [BornBy(threshold.value)];
    }
    if d.maxAge.Some? {
      var threshold := Threshold(today, d.maxAge.value);
      if threshold.Err? {
        return Err(threshold.error);
      }
      NarrowKeepAll(all, applied, BornSince(threshold.value));
      queryset := Narrow(queryset, BornSince(threshold.value));
      applied := applied + [BornSince(threshold.value)];
    }
    assert applied == MinAgeFilter(d, today) + MaxAgeFilter(d, today);
    return Ok(queryset);
  }

  /** The condition, ailment, food and date steps, on a queryset already
      narrowed by `ages`. */
  method FieldFiltered(queryset: seq<Fact>, ghost all: seq<Fact>, ghost ages: seq<Filter>, d: ReportInput)
    returns (q: seq<Fact>)
    requires queryset == KeepAll(all, ages)
    ensures q == KeepAll(all, ages + ConditionFilter(d) + AilmentFilter(d) + FoodFilter(d)
                                  + MinDateFilter(d) + MaxDateFilter(d))
  {
    q := queryset;
    ghost var applied := ages;
    if d.condition.Some? {
      NarrowKeepAll(all, applied, WithCondition(d.condition.value));
      q := Narrow(q, WithCondition(d.condition.value));
      applied := applied + [WithCondition(d.condition.value)];
    }
    assert applied == ages + ConditionFilter(d);
    if d.ailment.Some? {
      NarrowKeepAll(all, applied, WithAilment(d.ailment.value));
      q := Narrow(q, WithAilment(d.ailment.value));
      applied := applied + [WithAilment(d.ailment.value)];
    }
    assert applied == ages + ConditionFilter(d) + AilmentFilter(d);
    if d.food.Some? {
      NarrowKeepAll(all, applied, WithFood(d.food.value));
      q := Narrow(q, WithFood(d.food.value));
      applied := applied + [WithFood(d.food.value)];
    }
    assert applied == ages + ConditionFilter(d) + AilmentFilter(d) + FoodFilter(d);
    if d.minDate.Some? {
      NarrowKeepAll(all, applied, OnOrAfter(d.minDate.value));
      q := Narrow(q, OnOrAfter(d.minDate.value));
      applied := applied + [OnOrAfter(d.minDate.value)];
    }
    assert applied == ages + ConditionFilter(d) + AilmentFilter(d) + FoodFilter(d) + MinDateFilter(d);
    if d.maxDate.Some? {
      NarrowKeepAll(all, applied, OnOrBefore(d.maxDate.value));
      q := Narrow(q, OnOrBefore(d.maxDate.value));
      applied := applied + [OnOrBefore(d.maxDate.value)];
    }
    assert applied == ages + ConditionFilter(d) + AilmentFilter(d) + FoodFilter(d) + MinDateFilter(d)
      + MaxDateFilter(d);
  }

  // ---------------------------------------------------------------------
  // Viewsets

  /** The serializers `LogViewSet.get_serializer_class` chooses between. */
  datatype LogSerializerClass = LogUpdateSerializer | LogDetailSerializer | LogSerializer

  function SerializerClass(action: string): (c: LogSerializerClass)
    ensures c == LogUpdateSerializer <==> action == "update"
    ensures c == LogDetailSerializer <==> action == "retrieve"
    ensures c == LogSerializer <==> action != "update" && action != "retrieve"
  {
    if action == "update" then LogUpdateSerializer
    else if action == "retrieve" then LogDetailSerializer
    else LogSerializer
  }

  /** `LogViewSet.get_queryset`: the requester's own logs, in order. */
  function LogsOf(logs: seq<Log>, requester: int): (r: seq<Log>)
    ensures forall l :: l in r <==> l in logs && l.user == requester
  {
    Seqs.WhereSpec(logs, (l: Log) => l.user == requester);
    Seqs.Where(logs, (l: Log) => l.user == requester)
  }

  /** Whether a meal's log belongs to the requester (`log__user=...`). */
  predicate OwnMeal(logs: seq<Log>, requester: int, m: Meal) {
    exists l :: l in logs && l.pk == m.log && l.user == requester
  }

  /** `MealViewSet.get_queryset`: the meals of the requester's logs. */
  function MealsOf(meals: seq<Meal>, logs: seq<Log>, requester: int): (r: seq<Meal>)
    ensures forall m :: m in r <==> m in meals && OwnMeal(logs, requester, m)
  {
    Seqs.WhereSpec(meals, (m: Meal) => OwnMeal(logs, requester, m));
    Seqs.Where(meals, (m: Meal) => OwnMeal(logs, requester, m))
  }

  /** `TicketViewSet.get_queryset`: the tickets the requester filed. */
  function TicketsOf(tickets: seq<Ticket>, requester: int): (r: seq<Ticket>)
    ensures forall t :: t in r <==> t in tickets && t.user == Some(requester)
  {
    Seqs.WhereSpec(tickets, (t: Ticket) => t.user == Some(requester));
    Seqs.Where(tickets, (t: Ticket) => t.user == Some(requester))
  }

  /** A meal is listed exactly when its log is one of the requester's
      listed logs. */
  lemma MealScopeFollowsLogScope(meals: seq<Meal>, logs: seq<Log>, requester: int, m: Meal)
    requires m in meals
    ensures m in MealsOf(meals, logs, requester) <==>
      exists l :: l in LogsOf(logs, requester) && l.pk == m.log
  {
  }

  /** No two requesters are shown the same log or ticket. */
  lemma ScopesDisjoint(logs: seq<Log>, tickets: seq<Ticket>, u: int, v: int)
    requires u != v
    ensures forall l :: l in LogsOf(logs, u) ==> l !in LogsOf(logs, v)
    ensures forall t :: t in TicketsOf(tickets, u) ==> t !in TicketsOf(tickets, v)
  {
  }

  /** `LogViewSet.perform_create`: the new log is stamped with the
      requester, whatever the submitted data said about its owner. */
  function PerformCreate(pk: int, date: Dates.Date, ailments: set<int>, requester: int): (l: Log)
    ensures l.user == requester && l.pk == pk && l.date == date && l.ailments == ailments
  {
    Log(pk, requester, date, ailments)
  }

  /** A created log is listed for its creator and for nobody else. */
  lemma CreatedLogScope(logs: seq<Log>, pk: int, date: Dates.Date, ailments: set<int>, requester: int, u: int)
    ensures PerformCreate(pk, date, ailments, requester) in LogsOf(logs + [PerformCreate(pk, date, ailments, requester)], u)
      <==> u == requester
  {
  }
}
