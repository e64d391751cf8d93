# Health log: a verified model of its sequential core

This project is a Dafny model of the parts of a diet and health-log web
application that hold logic of their own. The rest of the application is
declarative configuration for its web framework. The modelled parts are:

- the **static-file collector** (`healthlog/core/collector.py`). It copies
  or symlinks every file the finders list into the destination storage.
  The first file found for a destination path wins. A target that is not
  older than its source, at whole-second precision, is skipped. The
  collector keeps the copied, linked and unmodified lists and writes a
  pluralised summary line.
- the **migration navigator** (`server/core/navigator.py`). For each
  database that is not a dummy, it plans the unapplied migrations of every
  leaf's forwards plan, each once and in first-visit order. It migrates
  every database unless one reports conflicting leaves, and it closes and
  reopens connections.
- the **analyst report page** (`HomeView` in `healthlog/core/views.py`). It
  decides when to reuse the session's previous results and when to run a
  report. A report narrows the query with each non-blank filter, turns an
  age into a birth-date threshold of `365 * age` days before today, groups
  and counts, orders by count and truncates. The submitted form is stored
  in the session, with dates as text and choices by primary key. The same
  file holds the viewsets' per-user scoping and the choice of serializer.
- the **serializers** (`healthlog/core/serializers.py`): token credentials,
  field updates, the daily nutrient totals, ailment lookup, and
  registration.
- the **forms** of both apps (`healthlog/core/forms.py`,
  `server/core/forms.py`): password-match rules and the age and date range
  rules of the report forms.
- the **user records** of both apps (`models.py`) and the **access checks**
  (`permissions.py`, `mixins.py`).

Storage is a map from path to entry. The finders' listings, the migration
graph and the post-processing results are given sequences. The database is
an in-memory snapshot of records. Objects that the source updates in place
are classes: `Collector`, `Navigator`, `HomeView`, `User` and `Info`. The
methods of `Collector`, `Navigator` and `HomeView` are proved equal to
functions on values, and the properties the source promises are proved
about those functions as lemmas. The record-updating methods
(`SaveFields`, `ApplyUserFields`, `UpdateUser`, `CreateUser`,
`CreateSuperuser`, `CreateRegistration` and `SetPassword`) state their new
state field by field instead.

Two operations are modelled as the code is written, which is not what it
evidently means (see "## Findings"): a blank report limit shows every row,
and `collect` never fills its post-processed list. The evidently intended
variants (`Views.IntendedTopStep`, `Collector.IntendedCollectStep`) are
defined beside them, and their lemmas are labelled "intended".

Modules: `Wrappers` (Option, Result, Outcome), `Text` (decimal text,
joining), `Dates` (Python's `datetime.date`: order, day numbers, ISO
text), `Seqs` (order-keeping filters, first occurrences), `HealthlogModels`,
`ServerModels`, `HealthlogForms`, `ServerForms`, `Permissions`, `Mixins`,
`Serializers`, `Reports` (the query pipeline), `Views`, `Collector` and
`Navigator`.

## Model

| member | source | states |
|---|---|---|
| `Collector.Destination` | healthlog/core/collector.py:63-67 | the destination key is `prefix/path` when the source storage has a non-empty prefix, and the bare path otherwise |
| `Collector.OlderBySecond` | healthlog/core/collector.py:229-233 | times are compared at whole-second precision, so a target a full second older than its source is never taken as unmodified |
| `Collector.SameSecond` | healthlog/core/collector.py:229-238 | a target written within the same second as its source, with link-ness suiting the mode, is skipped: the storage is unchanged and the path is listed as unmodified |
| `Collector.DeleteStepSpec` | healthlog/core/collector.py:191-245 | `delete_file` skips exactly when the target exists, both times are known, the target is not older at second precision, and the link-ness matches on a local storage; on a skip the key joins the unmodified list at most once; otherwise the target is deleted exactly when it exists and this is not a dry run; no other path changes |
| `Collector.AlreadyHandledSkipped` | healthlog/core/collector.py:251-253 | a key already copied (or linked) is skipped before any deletion or write |
| `Collector.DryRunKeepsStorage` | healthlog/core/collector.py:260-306 | in a dry run, copying or linking one file never writes the storage |
| `Collector.FirstFoundWins` | healthlog/core/collector.py:60-79 | `found_files` holds exactly the listed destination paths, each with the first file listed for it |
| `Collector.EveryFoundKeyAccounted` | healthlog/core/collector.py:247-306 | starting from empty lists, every destination path found ends up exactly once, either in the copied (or linked) list or in the unmodified list; no list has duplicates; the other mode's list stays empty |
| `Collector.ScanResult` | healthlog/core/collector.py:60-79 | outside a dry run, every handled key holds a fresh copy (or link) of the first file found for it, every skipped key keeps its old entry, and unlisted paths are untouched |
| `Collector.DryRunScan` | healthlog/core/collector.py:240-244 | a dry run scan leaves the storage as it was, whatever is listed |
| `Collector.Cleared` | healthlog/core/collector.py:163-189 | after `clear_dir(path)` every file under `path` is gone, unless this is a dry run; every other file keeps its entry |
| `Collector.FirstFailure` | healthlog/core/collector.py:86-91 | post-processing stops at the first result that is an exception |
| `Collector.PostProcessedFiles` | healthlog/core/collector.py:92-96 | the intended post-processed list holds the original path of every processed result and nothing else |
| `Collector.ProcessedNeverCounted` | healthlog/core/collector.py:86-98 | as written, `collect` leaves the post-processed list as it was for every input, where the intended `collect` lengthens it whenever a result is processed and none fails |
| `Collector.Summary` | healthlog/core/collector.py:136-157 | the summary starts with the modified count, which reads back from its digits, then "static file", followed by "s" exactly when the count is not one; it ends with a full stop (the rest of the text is fixed by `SummaryPlain` and `SummaryClauses`) |
| `Collector.SummaryPlain` | healthlog/core/collector.py:136-157 | with nothing skipped or post-processed, the summary is exactly the count, `static file` plural unless the count is one, "symlinked" or "copied" by mode, ` to '<location>'` when a location is given, and a full stop |
| `Collector.SummaryClauses` | healthlog/core/collector.py:136-157 | for every input, the summary is the plain summary with `, <n> unmodified` and then `, <n> post-processed` inserted before the full stop, each clause present exactly when its count is not zero |
| `Collector.SummaryEndsUnmodified` | healthlog/core/collector.py:148-151 | with files skipped and nothing post-processed, the summary ends with `, <n> unmodified.` |
| `Collector.SummaryEndsPostProcessed` | healthlog/core/collector.py:152-156 | with files post-processed, the summary ends with `, <n> post-processed.` |
| `Collector.SummaryDeterminesCount` | healthlog/core/collector.py:136-142 | different modified counts give different summaries |
| `Collector.RemoteSymlinkRefused` | healthlog/core/collector.py:49-50 | symlinking into a storage without real paths raises `CollectorError` before anything is touched |
| `Collector.CollectAccounts` | healthlog/core/collector.py:44-104 | a fresh `collect` reports every listed destination path exactly once, as modified or unmodified, and nothing else |
| `Collector.CollectWrites` | healthlog/core/collector.py:52-79 | outside a dry run, `collect` leaves every modified path holding a fresh copy (or link) of the first file listed for it, and every other path as clearing left it |
| `Collector.CollectDryRun` | healthlog/core/collector.py:52-79 | a dry run `collect`, with or without clearing, leaves the storage as it was |
| `Collector.CollectPostProcessing` | healthlog/core/collector.py:81-104 | with post-processing on and a storage that defines it, `collect` fails exactly when some result is an exception, and reports the first one; otherwise it returns the modified and unmodified lists; either way the post-processed list is left as it was |
| `Collector.IntendedPostProcessing` | healthlog/core/collector.py:81-104 | intended: the same failure rule, and without a failure the post-processed list gains exactly the processed original paths |
| `Collector.AsWrittenNeverReportsPostProcessing` | healthlog/core/collector.py:100-104 | as written, for every input a fresh collector's successful summary carries a post-processed count of zero, so never the post-processed clause |
| `Collector.IntendedCollectsProcessed` | healthlog/core/collector.py:81-104 | intended: with a processed result and no failure, a fresh collector's post-processed list is exactly the processed original paths, not empty, and the collection succeeds with it |
| `Collector.IntendedReportsPostProcessing` | healthlog/core/collector.py:100-104 | intended: with a processed result and no failure, a fresh collector's summary ends with `, n post-processed.` for the number of processed paths |
| `Collector.CollectWithoutPostProcessing` | healthlog/core/collector.py:81-104 | with post-processing off, or a storage without it, the post-processed list is unchanged and `collect` returns the modified, unmodified and post-processed lists |
| `Collector.Collector.constructor` | healthlog/core/collector.py:21-34 | a new collector has its switches set and all four lists empty |
| `Collector.Collector.DeleteFile` | healthlog/core/collector.py:191-245 | `delete_file` on the collector's state is the value-level `DeleteStep` |
| `Collector.Collector.CopyFile` | healthlog/core/collector.py:287-306 | `copy_file` on the collector's state is the value-level `CopyStep` |
| `Collector.Collector.LinkFile` | healthlog/core/collector.py:247-285 | `link_file` on the collector's state is the value-level `LinkStep` |
| `Collector.Collector.ClearDir` | healthlog/core/collector.py:163-189 | deletes the files under `path` one at a time, leaving the storage as `Cleared` describes and the lists unchanged |
| `Collector.Collector.CollectFile` | healthlog/core/collector.py:64-79 | one turn of the inner loop: a new destination is recorded and handed to `link_file` in symlink mode or `copy_file` otherwise; a repeated one is passed over |
| `Collector.Collector.CollectListing` | healthlog/core/collector.py:62-79 | the inner loop over one finder's listing extends the value-level scan by that listing |
| `Collector.Collector.CollectFinders` | healthlog/core/collector.py:60-79 | the loop over the finders is the value-level scan of their concatenated listings |
| `Collector.Collector.PostProcessAll` | healthlog/core/collector.py:81-98 | the post-processing loop finds the first failure, if any, and changes nothing |
| `Collector.Collector.Collect` | healthlog/core/collector.py:44-104 | `collect` changes the state and returns what the as-written `CollectStep` describes |
| `Collector.Collector.Handle` | healthlog/core/collector.py:106-158 | `handle` collects as written and reports the summary for the local destination path, if there is one |
| `Navigator.PlanContents` | server/core/navigator.py:115-128 | a database's plan names each migration once, names no applied migration, and names exactly the unapplied migrations of its leaves' forwards plans |
| `Navigator.PlanOrder` | server/core/navigator.py:121-128 | the plan keeps the order in which the walk over leaves and forwards plans first reaches each migration |
| `Navigator.UnappliedEntries` | server/core/navigator.py:107-134 | every entry of the result is the non-empty plan of a non-dummy database with that alias |
| `Navigator.UnappliedComplete` | server/core/navigator.py:110-132 | every non-dummy database with something to apply appears in the result |
| `Navigator.UnappliedEmpty` | server/core/navigator.py:107-134 | the result is empty exactly when every database is a dummy or has nothing to apply |
| `Navigator.NothingToApply` | server/core/navigator.py:143-144 | with nothing to apply, `migrate` prepares and migrates no connection |
| `Navigator.ConflictStopsMigration` | server/core/navigator.py:143-173 | with something to apply, the first database that reports conflicts is prepared, then `migrate` fails with `NavigatorError` carrying that database's conflicts, whose `Message()` is the text `migrate` raises; only the databases before it are migrated |
| `Navigator.MigratesEverything` | server/core/navigator.py:146-174 | with no conflicts, every database is prepared and migrated to its leaves |
| `Navigator.MigrateAllClean` | server/core/navigator.py:146-174 | without conflicts, the loop of `migrate` prepares and migrates each database in turn and succeeds |
| `Navigator.MigrateAllConflict` | server/core/navigator.py:146-170 | the loop migrates every database before the first one with conflicts, prepares that one, and stops with an error carrying its conflicts |
| `Navigator.DoneMigrates` | server/core/navigator.py:146-174 | migrating in turn migrates exactly the given databases, each to its own leaves, each prepared first |
| `Navigator.DoneMigratesExactly` | server/core/navigator.py:146-174 | a `Migrated` action is in the trace exactly when some given database has that alias and those leaves, with the given `fake` flag |
| `Navigator.DonePreparesEach` | server/core/navigator.py:146-151 | every given database is prepared, and each adds exactly two actions to the trace |
| `Navigator.CloseAll` | server/core/navigator.py:61-65 | closing closes every connection once, in order |
| `Navigator.Navigator.constructor` | server/core/navigator.py:44-49 | a new navigator holds every configured connection |
| `Navigator.Navigator.Connections` | server/core/navigator.py:51-59 | the `connections` property keeps open connections and repopulates them from the settings only when there are none |
| `Navigator.Navigator.Close` | server/core/navigator.py:61-65 | `close` closes every connection and leaves `_connections` empty |
| `Navigator.Navigator.UnappliedMigrations` | server/core/navigator.py:99-134 | `get_unapplied_migrations` returns the value-level `Unapplied` of the open connections |
| `Navigator.Navigator.Migrate` | server/core/navigator.py:136-174 | `migrate` performs the actions and returns the outcome `MigrateStep` describes |
| `Navigator.MigrateTrace` | server/core/navigator.py:146-174 | the loop of `migrate`, one database at a time, records exactly the trace and returns exactly the outcome of `MigrateAll` |
| `Navigator.Navigator.MigrateEach` | server/core/navigator.py:146-174 | the loop of `migrate` appends the trace of `MigrateAll` to the actions already recorded and returns its outcome |
| `Navigator.MigrationPlan` | server/core/navigator.py:115-128 | walking every leaf's forwards plan with a visited set yields the plan of `Plan` |
| `Navigator.VisitForwards` | server/core/navigator.py:122-128 | the inner loop adds a migration exactly when it was not visited before and is not applied, and marks it visited either way |
| `Navigator.PlanStep` | server/core/navigator.py:123-128 | one more walked migration joins the plan exactly when it is new and unapplied |
| `Reports.Threshold` | healthlog/core/views.py:73-84 | the birth-date threshold is today minus `365 * age` days, and is an error outside the calendar |
| `Reports.AgeFilterMeaning` | healthlog/core/views.py:73-84 | `min_age` keeps owners born at least `365 * age` days ago; `max_age` keeps those born at most that many days ago |
| `Reports.ThresholdAsDate` | healthlog/core/views.py:76-84 | comparing day numbers agrees with comparing the dates themselves (`birth_date__lte` and `__gte`) |
| `Reports.OlderKeepsFewer` | healthlog/core/views.py:73-78 | a larger minimum age keeps fewer rows |
| `Reports.ActiveFilters` | healthlog/core/views.py:72-96 | one filter per non-blank field, in the source's order; an error exactly when an age threshold is out of range |
| `Reports.BlankFiltersKeepAll` | healthlog/core/views.py:85-96 | blank filter fields leave the queryset unchanged |
| `Reports.NarrowKeepAll` | healthlog/core/views.py:85-96 | narrowing step by step is keeping the rows all applied filters accept |
| `Reports.EveryFoodHasAFact` | healthlog/core/views.py:72-100 | unfiltered, every food is reported under its own name |
| `Reports.GroupSpec` | healthlog/core/views.py:98-100 | grouping by name gives one group per distinct name, each with the count of its matched rows |
| `Reports.SortByTotal` | healthlog/core/views.py:98-100 | ordering by `total` gives an ascending permutation of the groups |
| `Reports.Take` | healthlog/core/views.py:101 | `[:limit]` keeps the first `limit` rows, or all when fewer |
| `Reports.TopRowsSpec` | healthlog/core/views.py:97-101 | a report shows at most `limit` groups when a limit is given, ascending by total, each a group of the filtered rows with the count of its matched rows, and every group when the limit is `None` or they all fit |
| `Reports.BlankLimitShowsEveryRow` | healthlog/core/views.py:97-101 | as written, a blank limit shows a permutation of every group of the filtered rows, so more than ten whenever there are more than ten groups |
| `Reports.Limit` | healthlog/core/views.py:97 | intended: the submitted limit, or 10 when blank |
| `Reports.BlankLimitCapsAtTen` | healthlog/core/views.py:97-101 | intended: a blank field shows at most ten rows, and every group when there are no more than ten |
| `Views.ReportNamesDistinct` | healthlog/core/views.py:60-63 | a posted `form_name` selects at most one report |
| `Views.Encode` | healthlog/core/views.py:104-114 | the session copy of the form holds exactly the fields that form declares, with the ages and the limit as numbers or `None`; `Views.DecodeEncode` shows the rest reads back |
| `Views.DecodeEncode` | healthlog/core/views.py:58-64 | a form rebuilt from the stored data shows the submission again |
| `Views.DecodeNothing` | healthlog/core/views.py:59 | an empty session rebuilds a blank form |
| `Views.FormName` | healthlog/core/views.py:233-236 | `form_name` is `''` unless the request has POST data, and then the posted value or `''` |
| `Views.ReuseShowsSession` | healthlog/core/views.py:58-66 | without POST data for this report, the context shows the session's previous results and form, and the session is not written |
| `Views.InvalidShowsNothing` | healthlog/core/views.py:67-71 | an invalid submission (a field out of range, a choice naming no record, or a failed range rule) shows the bound form and `{}`, and leaves the session untouched |
| `Views.UnknownChoiceShowsNothing` | healthlog/core/views.py:67-71 | a submission whose condition, ailment or food key names no record shows the bound form and `{}`, and writes nothing to the session |
| `Views.ValidRunsReport` | healthlog/core/views.py:72-114 | a valid submission (every choice naming an existing record) fails exactly when an age threshold falls outside the calendar, and then nothing is written; otherwise it shows rows ordered by total, at most `limit` of them when a limit is given and every group of the filtered rows when the field is blank, stores the same rows, and stores a form copy that rebuilds the submission |
| `Views.BlankLimitShowsAllGroups` | healthlog/core/views.py:97-101 | as written, a valid submission with a blank limit shows and stores every group of its filtered report, more than ten rows whenever there are more than ten groups |
| `Views.IntendedBlankLimitCapsAtTen` | healthlog/core/views.py:97-101 | intended: a valid submission with a blank limit shows and stores at most ten rows, and every group when there are no more than ten |
| `Views.ReportStepKeepsResults` | healthlog/core/views.py:57-114 | under either limit rule, a helper's step leaves another report's stored results as they were, and its own when it reuses them |
| `Views.RunReport` | healthlog/core/views.py:72-101 | a valid form's report fails exactly when an age threshold overflows, and otherwise yields the filtered groups ordered by total and sliced by the submitted limit |
| `Views.TopStepFrame` | healthlog/core/views.py:57-114 | a helper writes only its own session entries, and only when its form was posted |
| `Views.GetShowsSession` | healthlog/core/views.py:231-240 | a request without POST data recomputes nothing: every report shows the session's previous results and the session is unchanged |
| `Views.PostChangesOneReport` | healthlog/core/views.py:231-240 | only the report whose form was posted can change the session |
| `Views.HomeView.constructor` | healthlog/core/views.py:54-55 | a view starts with the request's session and an empty context |
| `Views.HomeView.TopContext` | healthlog/core/views.py:57-229 | each `_get_top_*_context` helper leaves exactly the page state and outcome of `TopStep`, where a form is valid only when its chosen records exist and the rows are sliced by the submitted limit as written |
| `Views.HomeView.ContextData` | healthlog/core/views.py:231-240 | `get_context_data` runs the three helpers in turn with the posted `form_name` |
| `Views.FilteredQueryset` | healthlog/core/views.py:72-96 | the queryset narrowed filter by filter is the rows every active filter accepts |
| `Views.AgeFiltered` | healthlog/core/views.py:73-84 | the minimum- and maximum-age steps, failing exactly when a threshold is out of range |
| `Views.FieldFiltered` | healthlog/core/views.py:85-96 | the condition, ailment, food and date steps, each only for a non-blank field |
| `Views.SerializerClass` | healthlog/core/views.py:364-369 | `LogUpdateSerializer` exactly for `update`, `LogDetailSerializer` exactly for `retrieve`, `LogSerializer` otherwise |
| `Views.LogsOf` | healthlog/core/views.py:339-345 | the log queryset holds exactly the requester's logs |
| `Views.MealsOf` | healthlog/core/views.py:306-312 | the meal queryset holds exactly the meals of the requester's logs |
| `Views.TicketsOf` | healthlog/core/views.py:318-319 | the ticket queryset holds exactly the requester's tickets |
| `Views.MealScopeFollowsLogScope` | healthlog/core/views.py:306-345 | a meal is listed exactly when its log is one of the requester's listed logs |
| `Views.ScopesDisjoint` | healthlog/core/views.py:318-345 | no two requesters are shown the same log or ticket |
| `Views.PerformCreate` | healthlog/core/views.py:347-349 | a new log is stamped with the requester |
| `Views.CreatedLogScope` | healthlog/core/views.py:339-349 | a created log is listed for its creator and for nobody else |
| `Serializers.ValidateToken` | healthlog/core/serializers.py:18-34 | rejects unless both e-mail and password are present; rejects credentials `authenticate` does not accept; on success returns the attrs with only `user` added |
| `Serializers.SaveFields` | healthlog/core/serializers.py:51-53 | every key in the data is set on the instance and every other attribute keeps its value |
| `Serializers.ApplyUserFields` | healthlog/core/serializers.py:71 | the generic update sets each given user attribute and leaves the others unchanged |
| `Serializers.UpdateUser` | healthlog/core/serializers.py:66-72 | the info record is changed only when the info dict is non-empty, and then takes its values; a user without info then fails with an `AttributeError` naming the dict's first key, before being touched; otherwise the user fields are updated and the password and info link are kept |
| `Serializers.ValidateAilment` | healthlog/core/serializers.py:104-111 | an existing id maps to its ailment; an unknown id is rejected |
| `Serializers.NutrientTotal` | healthlog/core/serializers.py:161-183 | each total loop computes the sum of the food's amount of that nutrient over the log's meals, and 0 for a log without meals |
| `Serializers.TotalSumsMeals` | healthlog/core/serializers.py:161-183 | the total is the sum over single meals, each meal counted once |
| `Serializers.TotalIgnoresCount` | healthlog/core/serializers.py:161-183 | a meal's `count` plays no part in the totals |
| `Serializers.TotalCoversMeal` | healthlog/core/serializers.py:161-183 | every meal's amount is part of the total |
| `Serializers.ValidateEmail` | healthlog/core/serializers.py:226-231 | an e-mail already held by a user is rejected; any other is returned unchanged |
| `Serializers.CreateRegistration` | healthlog/core/serializers.py:233-248 | creates an info with exactly the given birth date, weight and height, and an active, non-admin, non-analyst consumer pointing at it with the given e-mail, names and hashed password; a negative weight or height creates nothing |
| `HealthlogForms.CleanPasswordRepeated` | healthlog/core/forms.py:20-25 | errors exactly when the two passwords differ; otherwise returns the repeated one |
| `HealthlogForms.SaveRegistration` | healthlog/core/forms.py:32-38 | the saved user has the form's e-mail and names and the hashed password, and is always an analyst |
| `HealthlogForms.Bind` | healthlog/core/forms.py:41-106 | each report form sees only the fields it declares |
| `HealthlogForms.CheckAgeRange` | healthlog/core/forms.py:55-60 | the age rule fails exactly when both ages are present and `min_age > max_age`; equal ages pass |
| `HealthlogForms.CheckDateRange` | healthlog/core/forms.py:61-66 | the date rule fails exactly when both dates are present and `min_date > max_date` |
| `HealthlogForms.ValidExactly` | healthlog/core/forms.py:41-114 | `is_valid()` holds exactly when the fields validate, every chosen condition, ailment or food names an accepted record, and neither the age rule nor (on forms with dates) the date rule fails |
| `Reports.ChoicesOf` | healthlog/core/forms.py:44-49 | a model choice field accepts exactly the primary keys of the records in its table |
| `HealthlogForms.Clean` | healthlog/core/forms.py:54-114 | the age rule first, then the date rule except on the condition form, which has no date fields |
| `HealthlogForms.BlankBoundAccepted` | healthlog/core/forms.py:57-63 | a missing bound never causes a range error |
| `HealthlogForms.FoodAndAilmentRulesAgree` | healthlog/core/forms.py:54-94 | the food and ailment forms apply the same rules |
| `HealthlogForms.ConditionRuleIgnoresDates` | healthlog/core/forms.py:108-114 | the condition form's verdict does not depend on any date |
| `HealthlogForms.CleanPasswordTwo` | healthlog/core/forms.py:133-139 | a mismatch only when both passwords are non-empty and differ; otherwise `password_two` is returned |
| `HealthlogForms.SaveCreation` | healthlog/core/forms.py:141-147 | the saved user has the form's fields and a password hashed from `password_one` |
| `HealthlogForms.CleanPassword` | healthlog/core/forms.py:165-169 | returns the initial password, and fails when there is none |
| `HealthlogForms.CleanPasswordIgnoresSubmission` | healthlog/core/forms.py:165-169 | what is submitted never changes the result |
| `ServerForms.CleanPasswordTwo` | server/core/forms.py:23-29 | a mismatch only when both passwords are non-empty and differ; otherwise `password_two` is returned |
| `ServerForms.SaveCreation` | server/core/forms.py:31-37 | the saved user's password is hashed from `password_one` |
| `ServerForms.CleanPassword` | server/core/forms.py:55-59 | returns the initial password, whatever was submitted |
| `ServerForms.CleanPasswordTwoAgrees` | server/core/forms.py:23-29 | both apps reject exactly the same password pairs |
| `ServerForms.CleanPasswordAgrees` | server/core/forms.py:55-59 | both apps' change forms return the same password |
| `HealthlogModels.PasswordFrom` | healthlog/core/models.py:23 | a given password is hashed; no password leaves it unusable |
| `HealthlogModels.CreateUser` | healthlog/core/models.py:8-25 | raises `ValueError` exactly when the e-mail is empty; otherwise a fresh active, non-admin, non-analyst user with the normalised e-mail and the given password |
| `HealthlogModels.CreateSuperuser` | healthlog/core/models.py:27-43 | as `create_user`, and the user is an admin and therefore staff |
| `HealthlogModels.User.constructor` | healthlog/core/models.py:93-105 | a new user is active, not admin, not analyst, and has no info |
| `HealthlogModels.User.FullName` | healthlog/core/models.py:117-124 | the first name, one space, the last name |
| `HealthlogModels.User.Label` | healthlog/core/models.py:109-115 | `str(user)` is the full name, so the first and last names read back from it |
| `HealthlogModels.User.IsStaff` | healthlog/core/models.py:126-133 | staff status is exactly admin status |
| `HealthlogModels.User.IsConsumer` | healthlog/core/models.py:135-142 | a consumer exactly when `info_id` is not `None` |
| `HealthlogModels.User.HasPerm` | healthlog/core/models.py:144-147 | every user holds every permission |
| `HealthlogModels.User.HasModulePerms` | healthlog/core/models.py:149-152 | every user may see every app |
| `HealthlogModels.User.SetPassword` | healthlog/core/models.py:23 | only the password changes |
| `HealthlogModels.Info.constructor` | healthlog/core/models.py:54-56 | an info holds the given birth date, weight and height |
| `HealthlogModels.Info.Label` | healthlog/core/models.py:58-59 | `str(info)` is the ISO birth date, a space, the weight's digits, `lb `, the height's digits and `in`, with both numbers reading back from their digits |
| `HealthlogModels.NewMeal` | healthlog/core/models.py:223 | a meal's count defaults to one |
| `HealthlogModels.MealTimeValue` | healthlog/core/models.py:210-219 | the stored meal time is one of the four choices |
| `HealthlogModels.LogLabel` | healthlog/core/models.py:198-199 | `str(log)` is the owner's full name, `: ` and the ISO date |
| `HealthlogModels.MealLabel` | healthlog/core/models.py:228-229 | `str(meal)` is the log's label, ` - `, the stored meal-time value, a space and the food's name |
| `ServerModels.CreateUser` | server/core/models.py:7-15 | raises `ValueError` exactly when the e-mail is empty; otherwise a fresh user with the normalised e-mail and the given password |
| `ServerModels.CreateSuperuser` | server/core/models.py:17-21 | as `create_user`, and the user is an admin |
| `ServerModels.User.constructor` | server/core/models.py:41-50 | a new user is active, not admin, not analyst, and has no info |
| `ServerModels.User.Label` | server/core/models.py:54-55 | `str(user)` is the e-mail, ` (`, the full name and `)`, and both parts read back from it |
| `ServerModels.User.FullName` | server/core/models.py:57-59 | the first name, one space, the last name |
| `ServerModels.User.IsStaff` | server/core/models.py:61-63 | staff status is exactly admin status |
| `ServerModels.User.IsConsumer` | server/core/models.py:65-67 | a consumer exactly when `info_id` is not `None` |
| `ServerModels.User.HasPerm` | server/core/models.py:69-72 | every user holds every permission |
| `ServerModels.User.HasModulePerms` | server/core/models.py:74-77 | every user may see every app |
| `ServerModels.User.SetPassword` | server/core/models.py:13 | only the password changes |
| `Permissions.IsAPIUser` | healthlog/core/permissions.py:9-10 | access exactly when a user is present and `info_id` is truthy; no user is denied; the anonymous user raises on `info_id` |
| `Permissions.APIUserIsConsumer` | healthlog/core/permissions.py:9-10 | an admitted user is a consumer, and a user without info is denied |
| `Permissions.IsUnauthenticated` | healthlog/core/permissions.py:14-15 | access exactly when a user object is present and not authenticated |
| `Permissions.SignedInIsNotUnauthenticated` | healthlog/core/permissions.py:14-15 | every signed-in user is denied |
| `Mixins.Dispatch` | healthlog/core/mixins.py:7-13 | only a signed-in analyst reaches the wrapped dispatch; anyone else is redirected to log in, with the request's full path as the return target; a missing user raises |
| `Mixins.AnonymousRedirected` | healthlog/core/mixins.py:7-13 | the anonymous user is always redirected |

## Left out

- Real file-system effects of the collector are not modelled: `os.symlink`, `os.unlink`, `os.makedirs`, and the storage's `save`, `open` and `delete`. A write is an entry in the storage map, stamped with the time `now`. Broken-symlink handling in `clear_dir` is a plain delete.
- `get_finders()` and the finders' ignore patterns are inputs. The listings are a sequence of sequences of source files.
- `storage.post_process` is foreign code. Its results are an input sequence. Only the rule of re-raising the first exception it yields is modelled.
- The collector's symlink errors (`AttributeError`, `NotImplementedError`, `OSError` from `os.symlink`) come from the platform, so they are not modelled.
- Django's migration machinery is given as data: `MigrationLoader`, the graph's `leaf_nodes` and `forwards_plan`, `MigrationExecutor`, `check_consistent_history` and `prepare_database`. A migration run is recorded as an action. The order of the leaves is taken as given.
- A dummy connection is prepared and migrated like any other when `migrate` reaches it. In Django the dummy backend's cursor raises `ImproperlyConfigured` inside `MigrationExecutor`, and that error is not modelled.
- `log_migration_progress` is not modelled. It measures elapsed time with a monotonic clock and formats it as floating point for logging.
- ORM query semantics in `HomeView` are simplified. Multi-valued filters are modelled as an in-memory join, with one row per related record. Chained filters are a conjunction on the same joined row. `Count` counts the matched rows of each name. Ties in the ordering by `total` keep the grouping order, where the database leaves them unspecified.
- `date.today()` is the `today` parameter.
- Session storage, templates, `print`, logging and HTTP responses are not modelled.
- Password hashing is a `Hashed(raw)` marker. `authenticate`, `normalize_email` and `validate_password` are parameters or left out. `Token.objects.create` is not modelled. `transaction.atomic` is modelled as all-or-nothing creation.
- `AnalystRegistrationView`, `UserView`, the `meals` action and `TicketViewSet.create` are framework wiring around serializers and are not part of this model.
- `clear_dir` lists a directory and recurses into its sub-directories. The model deletes every key under the path at once, so the storage's directory listing is not modelled.
- A storage that cannot report a modification time (`OSError`, `NotImplementedError` or `AttributeError` from `get_modified_time`) is modelled as a time of `None`.
- `RegistrationForm.clean_password` is left out, because it only passes the password to `validate_password`, which is foreign code.
- The viewsets' `order_by` clauses are left out. Per-user scoping is stated on which records are listed, not on their order. `MealViewSet` orders by `'-log.time'` (healthlog/core/views.py:302). Under the Django 2.2 the project pins, a dotted ordering name goes into the SQL as the raw column `"log".time`. No table of the meal query is called `log`, so evidently listing meals fails at the database (not executed). `Views.MealsOf` states which meals a requester can reach, as a lookup by primary key does: `get()` clears the ordering.
- `str()` of `Condition`, `Ailment` and `Food` is the name field, and `str()` of `Ticket` formats a `datetime`. None of these is modelled.
- In the server app (`server/core/models.py`), `str()` of `Condition` and `Food` is the name field, `str()` of `Log` is the owner's full name and the date, and `str()` of `Meal` is the log, the nullable meal time and the food. None of these is modelled. The health-log app's `Log` and `Meal` formats are modelled (`HealthlogModels.LogLabel`, `HealthlogModels.MealLabel`); the server app's `Meal` differs in printing a nullable time of day instead of a meal-time choice.
- Field lists, admin screens, URL routes, filters, migrations, the command-line entry points and packaging are declarative or I/O.
- Serializers.UpdateUser: its contract states the update of the e-mail and the weight only. The other fields follow from `Serializers.ApplyUserFields` and `Serializers.SaveFields`, which it calls and whose contracts state every field.

## Findings

| source | as written | input that shows it | evidently intended | confidence | as-written member | corrected member |
|---|---|---|---|---|---|---|
| healthlog/core/views.py:97 | `form.cleaned_data.get('limit', 10)`: a bound form's cleaned data always holds `limit`, which is `None` when blank, so the default 10 is never taken and `queryset[:None]` shows every row (same at lines 159 and 215) | a valid submission with a blank `limit` whose query yields eleven rows: all eleven are shown | a blank limit shows at most 10 rows | high (not executed) | `Views.BlankLimitShowsAllGroups` | `Views.IntendedBlankLimitCapsAtTen` |
| healthlog/core/collector.py:86-98 | the post-processing loop only logs and never appends to `post_processed_files`, so the count is always 0 and the summary never has the post-processed clause | `post_process` yields one processed file, `('css/site.css', 'css/site.55e7cbb9ba48.css', True)`: the summary has no post-processed clause | each processed original path is added to `post_processed_files` and counted in the summary | medium (not executed) | `Collector.AsWrittenNeverReportsPostProcessing` | `Collector.IntendedReportsPostProcessing` |
