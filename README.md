# PKP library core: a verified Dafny model

This project models the decision logic and bookkeeping of the PKP web
library (the shared core of Open Journal Systems and its siblings), in five
areas:

- **Form-field validation** (`FormValidation`): a `FormValidator` checks one
  field of a form. The field is required or optional, may have a delegate
  validator, and its value is normalised first (`null` and scalars are cast
  to string and trimmed; arrays are left alone). `FormValidatorInSet` adds a
  test that the value is one of a list of accepted values. Constructing a
  validator also writes the field's client-side validation hint.
- **Sessions** (`Sessions`): the `SessionManager` is PHP's session save
  handler. It is backed by a table of session records, modelled as a map from
  session id to record. On construction it resumes the client's session when
  the IP/user-agent fingerprint matches, and replaces it otherwise. It
  extends remembered sessions and moves the cookie to a parent domain when
  the stored domain allows it. It also serves the `read`, `write`, `destroy`
  and `gc` callbacks and rotates the session id. Every `setcookie` call is
  recorded in a log.
- **Application registry** (`Application`, `Roles`): the workflow-stage
  name and colour tables, role names, DAO-name lookup, the statistics
  dispatch of a report request over the report plugins, the default metric
  type, and the per-context cache of enabled products.
- **User interests** (`Interests`): reading a user's interests through a
  memoising cache of interest entries, joining them into one string, and
  normalising the input of an update.
- **Query discussions** (`Queries`): the queries grid's role-to-operation
  table, its title per stage, and what leaving, opening, closing, reordering
  and deleting a query do.

`Wrappers` holds `Option`/`Result`. `Php` models the PHP built-ins the core
relies on: `trim`, `strtolower` (ASCII), `substr` with a negative start,
`explode`/`implode`, `array_intersect`/`array_diff` and string truthiness
(`empty`).

Inputs from outside the core are parameters of the model:

- the clock (`now`);
- configuration values (`session_check_ip`, `session_lifetime`);
- the outcome of `session_regenerate_id()`;
- report plugins, the version DAO's product lookup and the interest-entry lookup (as functions);
- the access helper of the queries grid (as uninterpreted predicates);
- CSRF validity.

Two details of session replacement:

- A replaced session keeps the id `session_start()` chose
  (`classes/session/SessionManager.inc.php:67`, `:89`); no new id is issued.
- A new record holds the full user agent (`:91`). The session table keeps its
  first 255 characters when the row is written (see the assumed `SessionDAO`
  behaviour below), and the fingerprint test (`:81`) compares with the same
  prefix, so a client with a longer agent resumes its session on the next
  request.

Some files the core calls into are not part of this model. Their behaviour is
assumed as follows:

- `SessionDAO::deleteByLastUsed($a, $b)` deletes non-remembered rows last used
  before `$a`, and, when `$b` is not `0`, remembered rows last used before `$b`.
  It reports whether it deleted anything.
- `SessionDAO::insertObject` writes the record's row under its id, and
  `SessionDAO::updateObject` rewrites an existing row and nothing else. Both
  store only the first 255 characters of the user agent, the width of the
  table's `user_agent` column.
- `SessionDAO::deleteById` removes the row with that id, if any.
- `QueryDAO::getParticipantIds` returns the stored participant list of the
  query, and `[]` for an unknown query.
- `QueryDAO::removeParticipant` deletes every participant row of the user
  for that query.
- `QueryDAO::getById($id, $assocType, $assocId)` returns the query only when
  it belongs to that assoc type and id, and `null` otherwise.
- `QueryDAO::updateObject` rewrites that query's row only, and
  `QueryDAO::deleteObject` removes that query's row only.
- `InterestDAO::getUserInterestIds` returns the user's interest entry ids in
  order. `InterestEntryDAO::getById` returns the entry or `null`; it is the
  lookup function of the model. `InterestDAO::setUserInterests` is recorded
  with its arguments.
- `PKPHandler::addRoleAssignment` appends the operations to each listed role.
- The `ROLE_ID_*` values come from the role class (Manager `0x10`, Sub-editor `0x11`,
  Assistant `0x1001`, Reviewer `0x1000`, Author `0x10000`, Reader `0x100000`,
  Site admin `0x1`).
- `STATISTICS_DIMENSION_METRIC_TYPE` is `'metric_type'`.

## Model

| member | source | states |
|---|---|---|
| FormValidation.Normalise | classes/form/validation/FormValidator.inc.php:154-162 | `null` becomes `''`, a scalar its trimmed string form, an array stays as it is |
| FormValidation.BlankScalarIsEmpty | classes/form/validation/FormValidator.inc.php:158-160 | a non-array value normalises to empty exactly when it is `null` or only trim characters |
| FormValidation.FormValidator.constructor | classes/form/validation/FormValidator.inc.php:49-61 | the field's CSS hint list becomes exactly `['required']` for a required field and `[]` otherwise; other fields' hints and the form data are untouched |
| FormValidation.FormValidator.GetFieldValue | classes/form/validation/FormValidator.inc.php:154-162 | an array field comes back as that array, a missing field or `null` as `''`, a scalar as its trimmed text |
| FormValidation.NormaliseTrimmed | classes/form/validation/FormValidator.inc.php:158-160 | a normalised string value is a fixed point of `trim` |
| FormValidation.FormValidator.IsEmptyAndOptional | classes/form/validation/FormValidator.inc.php:169-181 | true exactly when the type is `'optional'` and the normalised value is `''` or `[]` |
| FormValidation.FormValidator.IsValid | classes/form/validation/FormValidator.inc.php:127-146 | an empty optional field is valid whatever the delegate says; without a delegate, valid iff the normalised value is non-empty; with one, the delegate's verdict on the normalised value |
| FormValidation.RequiredRejectsBlank | classes/form/validation/FormValidator.inc.php:133-141 | a required field holding `null` or only whitespace fails |
| FormValidation.RequiredAcceptsText | classes/form/validation/FormValidator.inc.php:133-141 | a required field holding `'x'` passes |
| FormValidation.FormValidatorInSet.constructor | classes/form/validation/FormValidatorInSet.inc.php:32-36 | the base check has no delegate and sets the CSS hint as the base constructor does |
| FormValidation.FormValidatorInSet.IsValid | classes/form/validation/FormValidatorInSet.inc.php:49-52 | valid iff the field is optional and empty, or its normalised value is among the accepted values |
| FormValidation.RequiredEmptyInSet | classes/form/validation/FormValidatorInSet.inc.php:51 | a required empty field passes iff `''` is itself accepted |
| FormValidation.InSetMonotone | classes/form/validation/FormValidatorInSet.inc.php:51 | enlarging the accepted list never turns a pass into a failure |
| FormValidation.InSetAcceptsPadded | classes/form/validation/FormValidatorInSet.inc.php:51 | with `'a'`,`'b'` accepted, `' a '` passes because it is trimmed first |
| FormValidation.InSetRejectsOther | classes/form/validation/FormValidatorInSet.inc.php:51 | with `'a'`,`'b'` accepted, `'c'` fails |
| Php.TrimEmptyIffBlank | classes/form/validation/FormValidator.inc.php:159 | `trim` yields `''` exactly for strings made only of trim characters |
| Php.TrimPadded | classes/form/validation/FormValidator.inc.php:159 | `trim` removes any trim-character padding around a core that neither starts nor ends with one |
| Php.TrimIdempotent | classes/form/validation/FormValidator.inc.php:159 | trimming twice is trimming once |
| Php.JoinSplit | classes/user/InterestManager.inc.php:103 | `implode` after `explode` on the same separator gives back the string |
| Php.SplitJoin | classes/user/InterestManager.inc.php:103 | `explode` after `implode` of separator-free pieces gives back the pieces |
| Sessions.WidensIffSubdomain | classes/session/SessionManager.inc.php:74-79 | the `substr`/`strtolower` test is: stored domain truthy, different from the host, and the lower-cased host ends in `'.'` plus the lower-cased domain |
| Sessions.EffectiveCookieDomain | classes/session/SessionManager.inc.php:49-79 | the cookie domain is the host unless a loaded session's stored domain passes the parent-domain rule, in which case it is that domain |
| Sessions.NeedsNewSession | classes/session/SessionManager.inc.php:81 | a new record is always needed when none was loaded, and whenever the stored user agent is longer than 255 characters |
| Sessions.ResumeIffFingerprintMatches | classes/session/SessionManager.inc.php:81 | a loaded session is kept exactly when IP checking is off or the IP matches, and the stored user agent equals the first 255 characters of the current one |
| Sessions.NewSession | classes/session/SessionManager.inc.php:88-95 | a new record has the current id, the request's IP and user agent, created = last used = now, the cookie domain, empty data, not remembered |
| Sessions.StoredRow | classes/session/SessionManager.inc.php:97 | the stored row keeps the first 255 characters of the user agent and every other field as it is; a short agent is stored unchanged |
| Sessions.InsertRow | classes/session/SessionManager.inc.php:97 | the row under the record's id becomes its stored form; other rows are untouched |
| Sessions.UpdateRow | classes/session/SessionManager.inc.php:206 | an existing row becomes the record's stored form; no row is added and other rows are untouched |
| Sessions.NewSessionResumes | classes/session/SessionManager.inc.php:81-97 | the row written for a new session passes the fingerprint test of the next request from the same client, whatever the length of its user agent |
| Sessions.Resumed | classes/session/SessionManager.inc.php:99-110 | a resumed record keeps its id and data, is last used now, and stays remembered only with a positive lifetime |
| Sessions.RememberCookies | classes/session/SessionManager.inc.php:99-107 | a remembered session's cookie expires `lifetime` days from now, or at browser close without a positive lifetime; a non-remembered one sets no cookie |
| Sessions.CookieEffects | classes/session/SessionManager.inc.php:245-265 | a domain without `'.'` counts as none; with a domain, a domain-less cookie is cleared before the session cookie is set on the domain |
| Sessions.SessionManager.constructor | classes/session/SessionManager.inc.php:38-119 | replacement: the new record's stored form is written under the current id, overwriting the old row; resumption: the store is unchanged, the record is the resumed one, the remember cookies are sent |
| Sessions.SessionManager.ReplaceSession | classes/session/SessionManager.inc.php:82-97 | the loaded record's row, if any, is deleted and the new record's stored form is inserted under the current id |
| Sessions.SessionManager.ResumeSession | classes/session/SessionManager.inc.php:98-110 | the record becomes the resumed one and exactly the remember cookies are sent |
| Sessions.SessionManager.Read | classes/session/SessionManager.inc.php:183-192 | loads the record only when none is loaded and returns its data; `''` when one is already loaded or none is found |
| Sessions.SessionManager.Write | classes/session/SessionManager.inc.php:202-209 | with a loaded record, records the data and rewrites its row; otherwise nothing changes; always true |
| Sessions.SessionManager.Destroy | classes/session/SessionManager.inc.php:218-222 | deletes the row by id, always true |
| Sessions.Collected | classes/session/SessionManager.inc.php:234 | collection only removes rows; every remaining row is unchanged |
| Sessions.DeleteByLastUsed | classes/session/SessionManager.inc.php:234 | exactly the rows that are not expired under the two cutoffs survive, unchanged |
| Sessions.GcRememberCutoff | classes/session/SessionManager.inc.php:234 | the remember cutoff is `0` without a positive lifetime, else `lifetime` days before now |
| Sessions.SessionManager.Gc | classes/session/SessionManager.inc.php:232-235 | the store becomes the collected store, and the result says whether anything was deleted |
| Sessions.GcKeepsRecent | classes/session/SessionManager.inc.php:234 | no row used in the last 24 hours is collected, whatever the lifetime |
| Sessions.GcDropsStale | classes/session/SessionManager.inc.php:234 | a non-remembered row unused for over 24 hours is collected |
| Sessions.GcRemembered | classes/session/SessionManager.inc.php:234 | remembered rows are never collected without a positive lifetime, and otherwise exactly when unused past the lifetime |
| Sessions.SessionManager.UpdateSessionCookie | classes/session/SessionManager.inc.php:245-265 | appends the cookie calls for the given id, or the current id when none is given |
| Sessions.SessionManager.UpdateSessionLifetime | classes/session/SessionManager.inc.php:299-302 | resends the current id's cookie with the new expiry |
| Sessions.SessionManager.RegenerateSessionId | classes/session/SessionManager.inc.php:275-290 | succeeds iff regeneration succeeded and a session is loaded; then the old row is gone, the record lives under the new id and the cookie is resent; otherwise store, record and cookies are unchanged |
| Sessions.RotationMovesRow | classes/session/SessionManager.inc.php:282-284 | after rotation the old id has no row unless reissued, the new id holds the record's stored form, and other rows keep their ids and contents |
| Application.WorkflowStageName | classes/core/PKPApplication.inc.php:857-868 | defined exactly for stages 1..5; any other id is the unrecognized-stage error |
| Application.WorkflowStageColor | classes/core/PKPApplication.inc.php:877-888 | defined exactly for stages 1..5, each `'#'` and six lower-case hex digits; any other id is the error |
| Application.StageTablesInjective | classes/core/PKPApplication.inc.php:857-888 | distinct stages have distinct names and distinct colours |
| Application.RoleNames | classes/core/PKPApplication.inc.php:818-835 | `contextOnly` drops the site-admin entry; a non-empty id list keeps exactly the listed roles; names come from the two tables |
| Application.RoleNamesAreRoles | classes/core/PKPApplication.inc.php:818-835 | every key is a role id; the context-only table holds exactly the six context roles, the full one adds the site admin |
| Application.DaoMap | classes/core/PKPApplication.inc.php:463-536 | the DAO map has exactly the listed DAO names as keys |
| Application.DaoPathsEndInName | classes/core/PKPApplication.inc.php:463-536 | every qualified path ends in `'.'` followed by its DAO name |
| Application.QualifiedDaoName | classes/core/PKPApplication.inc.php:546-553 | the mapped path for a known DAO name, nothing for an unknown one |
| Application.AllMetricTypes | classes/core/PKPApplication.inc.php:573-584 | the merged metric types are exactly the types some plugin offers |
| Application.GetMetricTypes | classes/core/PKPApplication.inc.php:564-587 | the loop computes the merged metric types of the plugins |
| Application.DisplayNamesLastWins | classes/core/PKPApplication.inc.php:574-580 | the display map covers exactly the offered types, each named by the last plugin offering it |
| Application.GetMetricDisplayNames | classes/core/PKPApplication.inc.php:564-587 | the nested loop computes the display map of the plugins, whose keys are the offered types |
| Application.DefaultMetricType | classes/core/PKPApplication.inc.php:597-621 | without a site, nothing; a configured default is returned only if available; with none configured, the sole available type when there is exactly one; the result is always available |
| Application.CanonicalColumns | classes/core/PKPApplication.inc.php:662-679 | a scalar becomes a list; with several metric types the metric-type column is present, appended once only if absent |
| Application.DispatchCorrect | classes/core/PKPApplication.inc.php:690-711 | the types left pending are exactly the unoffered requested types; each request is non-empty, offered and served; no type is requested from two plugins |
| Application.MetricsReport | classes/core/PKPApplication.inc.php:640-720 | a report exists iff filter and order are arrays, the metric-type list is a non-empty array, there are plugins, and every requested type is offered; it is the merged partial reports in plugin order |
| Application.GetMetrics | classes/core/PKPApplication.inc.php:640-720 | the dispatch loop computes `MetricsReport` |
| Application.ResolvedContextId | classes/core/PKPApplication.inc.php:403-414 | the given context id, else the router's main context, else the site |
| Application.SettingContext | classes/core/PKPApplication.inc.php:417-423 | the context names paired with the main id followed by zeros |
| Application.View | classes/core/PKPApplication.inc.php:428-436 | all categories without a category, the category's products when present, `[]` otherwise |
| Application.ProductRegistry.GetEnabledProducts | classes/core/PKPApplication.inc.php:400-437 | products are fetched only on a cache miss, once per context id (the registry invariant), and the answer is read from the cache |
| Interests.GetAllInterests | classes/user/InterestManager.inc.php:37-48 | one interest per entry, in order |
| Interests.Resolve | classes/user/InterestManager.inc.php:66-72 | a cached entry is used as it is; otherwise the lookup's answer |
| Interests.CollectAppend | classes/user/InterestManager.inc.php:65-75 | the interests of concatenated id lists are the concatenated interests |
| Interests.CollectEntries | classes/user/InterestManager.inc.php:65-75 | when every id has an entry the interests correspond one for one; ids without entries contribute nothing |
| Interests.InterestManager.Fetch | classes/user/InterestManager.inc.php:66-71 | one id's cache step: the entry is the cached one or the lookup's answer; the lookup and the cache update happen only when nothing was cached; other entries keep their meaning |
| Interests.InterestManager.GetInterestsForUser | classes/user/InterestManager.inc.php:57-78 | the result follows the cache on entry; cached entries survive; only uncached ids are looked up, each at least once; a found entry is never looked up again (invariant) |
| Interests.InterestManager.GetInterestsString | classes/user/InterestManager.inc.php:87-92 | the `", "`-join of the user's interests |
| Interests.NormaliseInterests | classes/user/InterestManager.inc.php:103 | an array passes through, an empty input becomes `null`, a string is split on `','` into comma-free pieces that join back to it |
| Interests.InterestsStringRoundTrip | classes/user/InterestManager.inc.php:91-103 | feeding the interests string back gives every interest after the first a leading space, and drops a single empty one |
| Interests.InterestManager.SetInterestsForUser | classes/user/InterestManager.inc.php:100-105 | hands the normalised interests to the DAO |
| Queries.WithAssignment | controllers/grid/queries/QueriesGridHandler.inc.php:41-52 | granting extends exactly the listed roles' operations |
| Queries.QueriesRoleTableValue | controllers/grid/queries/QueriesGridHandler.inc.php:38-53 | the table built by the constructor, written out per role |
| Queries.QueriesRoleTableGrants | controllers/grid/queries/QueriesGridHandler.inc.php:41-52 | `leaveQuery` only for managers; open/close/saveSequence/fetchTemplateBody only for managers, sub-editors and assistants; reviewers and authors get exactly the first group; other roles nothing |
| Queries.QueriesGridHandler.constructor | controllers/grid/queries/QueriesGridHandler.inc.php:38-53 | the handler's role table is the three grants |
| Queries.QueriesGridHandler.Authorize | controllers/grid/queries/QueriesGridHandler.inc.php:132-147 | records the stage id and picks the query policy iff a truthy query id is requested |
| Queries.QueriesGridTitle | controllers/grid/queries/QueriesGridHandler.inc.php:159-168 | a title exactly for stages 1..5 |
| Queries.QueriesGridTitlesShared | controllers/grid/queries/QueriesGridHandler.inc.php:159-168 | the two review stages share a title, the others are distinct |
| Queries.QueriesGridHandler.Initialize | controllers/grid/queries/QueriesGridHandler.inc.php:159-168 | sets the stage's title for stages 1..5 and leaves the title as it was for any other stage |
| Queries.QueriesGridHandler.LoadData | controllers/grid/queries/QueriesGridHandler.inc.php:315-324 | queries of this submission and stage, filtered by the user's id unless list-all is permitted |
| Queries.CanLeave | controllers/grid/queries/QueriesGridHandler.inc.php:670-683 | a user allowed to leave is a participant, so leaving removes at least one row and the user is gone afterwards |
| Queries.RemoveParticipant | controllers/grid/queries/QueriesGridHandler.inc.php:654 | every occurrence of the user is removed and every other participant keeps its number of occurrences (multiset equality) |
| Queries.LeavingKeepsDiscussion | controllers/grid/queries/QueriesGridHandler.inc.php:670-683 | a manager allowed to leave leaves at least two participants behind and is no longer one |
| Queries.QueriesGridHandler.LeaveQuery | controllers/grid/queries/QueriesGridHandler.inc.php:648-683 | succeeds iff a user is logged in, is a manager, the query has at least three participants and the user is one; then exactly that user is removed; otherwise nothing changes |
| Queries.SetClosedIdempotent | controllers/grid/queries/QueriesGridHandler.inc.php:413-435 | opening or closing changes only the closed flag, and repeating it changes nothing |
| Queries.QueriesGridHandler.OpenQuery | controllers/grid/queries/QueriesGridHandler.inc.php:405-416 | a permitted caller reopens the query; otherwise a failure and no change |
| Queries.QueriesGridHandler.CloseQuery | controllers/grid/queries/QueriesGridHandler.inc.php:426-437 | a permitted caller closes the query; otherwise a failure and no change |
| Queries.QueriesGridHandler.SetDataElementSequence | controllers/grid/queries/QueriesGridHandler.inc.php:262-268 | only the sequence of the submission's query changes |
| Queries.QueriesGridHandler.DeleteQuery | controllers/grid/queries/QueriesGridHandler.inc.php:362-395 | nothing happens on a CSRF failure, a missing query or no permission; otherwise the query and its notifications go, and submission notifications are refreshed only at the editing and production stages |

## Left out

- PHP runtime calls are not modelled: `ini_set`, `session_set_save_handler`,
  `session_start`, `register_shutdown_function`, `time()`. Their results are
  parameters. The save handler's `open` and `close` only return true.
- Cookie names and paths are configuration and are not recorded. The return
  value of `setcookie` is not modelled.
- Sessions.SessionManager.RegenerateSessionId: the runtime's own write/read
  callbacks during `session_regenerate_id` are not modelled. An insert under
  an id that already has a row overwrites it here; the database would reject it.
- `session_destroy()` also ends the PHP session, so the replaced record's
  later `write` is skipped; shutdown is not modelled.
- Loose PHP comparison (`==`, `!=`, `in_array`) is modelled as exact string
  equality. Numeric strings such as `'1e3'` and `'1000'` would compare equal
  in PHP. This affects these members:
  - FormValidation.FormValidatorInSet.IsValid: the accepted values are normalised values; accepted scalars of other types (integers) are not modelled.
  - Sessions.NeedsNewSession: IP and user-agent comparisons are exact.
  - Sessions.WidensIffSubdomain: the `!=` with the host (`:74`) and the `==`
    on the lower-cased suffix (`:76`) are exact.
  - Application.DefaultMetricType: the availability test is exact.
- Field values with PHP keys or objects are not modelled; arrays are lists of values.
- `Registry::get('daoMap', ...)` may hold an overridden map; the model uses the static DAO map.
- `StatisticsHelper::canonicalizeMetricTypes` and `getContext` are not part of
  this model. The canonicalised metric types are an input, and so are the
  report plugins of the resolved context. The default metric type and site
  metric types feed only that canonicaliser.
- The filter, order and range of a report request are passed unchanged to
  each plugin; they are folded into the plugin's report function.
- Application.SettingContext: `getContextDepth()` is taken to equal the length
  of `getContextList()`; PHP's `array_combine` fails when they differ.
- Version DAO products are modelled as category → product → version string.
- `PKPApplication` bootstrap and services are not modelled: constructor
  bootstrapping, the service container, HTTP client, registry singletons,
  dispatcher wiring, `getCCLicenseBadge`, `getIntMaxFileMBs`,
  `getReadableMaxFileSize`, `getCurrentVersion`, `getPrimaryMetricByAssoc`,
  `getWorkflowTypeRoles`, `getMetadataFields` and the `ASSOC_TYPE_*` table
  (only the two values the queries grid uses appear).
- The interest DAO's filter for `getAllInterests` and the controlled
  vocabulary id are folded into the given entries and the lookup function.
- `InterestManager`'s cache is a `static` variable shared by all instances;
  here it belongs to one manager object.
- Queries grid rendering and form handling are not modelled: columns, link
  actions, modals, templates, `addQuery`, `editQuery`, `updateQuery`,
  `readQuery`, `participants`, `fetchTemplateBody`, `initFeatures`,
  `getRowInstance`.
- The authorisation policy classes (`QueryAccessPolicy`,
  `QueryWorkflowStageAccessPolicy`) are not modelled. The access helper's
  answers are uninterpreted predicates.
- Queries.QueriesGridHandler.Authorize: the `(int)` cast of the request's stage variable is not modelled; the stage id arrives as an integer.
- Queries.QueriesGridHandler.SetDataElementSequence: a row id outside the submission makes the source call a method on `null` (a fatal error); here it reports `false` and changes nothing.
- Queries.QueriesGridHandler.LoadData requires a logged-in user when list-all is not permitted, since the source dereferences the user there.
- Queries.QueriesGridHandler.DeleteQuery: the query DAO's own cascade (notes, participants) is not part of this model.
- Query sequences are integers; the database stores them as floating point numbers.
- The `ROLE_ID_*` constants, `SessionDAO`, `QueryDAO`, `InterestDAO`,
  `InterestEntryDAO` and `PKPHandler::addRoleAssignment` are not part of this
  model. Their assumed behaviour is listed above the "Model" table.
- Strings are sequences of characters. PHP's `substr` and `strlen` count
  bytes, so a user agent or host with multi-byte characters is cut at a
  different point than here (Sessions.NeedsNewSession,
  Sessions.WidensIffSubdomain, Sessions.StoredRow).
- Application.GetMetricDisplayNames: the PHP array keeps its keys in insertion
  order; the model's `map` has no order, so only the key-to-name pairs are
  stated.
- Queries.QueriesGridHandler.Initialize: for a stage outside 1..5 the
  source runs `assert(false)`, which throws when PHP assertions are enabled;
  the model follows the behaviour with assertions disabled.
- Concurrency between requests sharing the session table is not modelled.
