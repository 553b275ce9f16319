/** The application-wide registry logic: the workflow-stage tables, the role
    names, the DAO-name lookup, the statistics dispatch over report plugins
    and the per-context cache of enabled products.

    Plugins, the version DAO and the request router are replaced by values
    and function parameters. */
module Application {
  import opened Wrappers
  import Php
  import Roles

  // -----------------------------------------------------------------------
  // Workflow stages
  // -----------------------------------------------------------------------

  const StageSubmission: int := 1
  const StageInternalReview: int := 2
  const StageExternalReview: int := 3
  const StageEditing: int := 4
  const StageProduction: int := 5

  predicate IsStage(stageId: int) {
    StageSubmission <= stageId <= StageProduction
  }

  /** The locale key naming a stage; any other id is an error. */
  function WorkflowStageName(stageId: int): (r: Result<string>)
    ensures r.Ok? <==> IsStage(stageId)
    ensures r.Err? ==> r.message == "Name requested for an unrecognized stage id."
  {
    match stageId
    case 1 => Ok("submission.submission")
    case 2 => Ok("workflow.review.internalReview")
    case 3 => Ok("workflow.review.externalReview")
    case 4 => Ok("submission.editorial")
    case 5 => Ok("submission.production")
    case _ => Err("Name requested for an unrecognized stage id.")
  }

  /** The hex colour of a stage; any other id is an error. */
  function WorkflowStageColor(stageId: int): (r: Result<string>)
    ensures r.Ok? <==> IsStage(stageId)
    ensures r.Ok? ==> |r.value| == 7 && r.value[0] == '#'
    ensures r.Ok? ==> forall i :: 1 <= i < 7 ==> r.value[i] in "0123456789abcdef"
    ensures r.Err? ==> r.message == "Color requested for an unrecognized stage id."
  {
    match stageId
    case 1 => Ok("#d00a0a")
    case 2 => Ok("#e05c14")
    case 3 => Ok("#e08914")
    case 4 => Ok("#006798")
    case 5 => Ok("#00b28d")
    case _ => Err("Color requested for an unrecognized stage id.")
  }

  /** Both tables are injective on the five stages: no two stages share a
      name or a colour. */
  lemma StageTablesInjective(s: int, t: int)
    requires IsStage(s) && IsStage(t) && s != t
    ensures WorkflowStageName(s).value != WorkflowStageName(t).value
    ensures WorkflowStageColor(s).value != WorkflowStageColor(t).value
  {
    var names := WorkflowStageName(s).value;
    var namet := WorkflowStageName(t).value;
    assert |names| != |namet| || names[11] != namet[11] || names[16] != namet[16];
    var cs := WorkflowStageColor(s).value;
    var ct := WorkflowStageColor(t).value;
    assert cs[1] != ct[1] || cs[3] != ct[3];
  }

  // -----------------------------------------------------------------------
  // Role names
  // -----------------------------------------------------------------------

  /** The site-level role names. */
  function SiteRoleNames(): map<int, string> {
    map[Roles.SiteAdmin := "user.role.siteAdmin"]
  }

  /** The context-level role names. */
  function AppRoleNames(): map<int, string> {
    map[
      Roles.Manager := "user.role.manager",
      Roles.SubEditor := "user.role.subEditor",
      Roles.Assistant := "user.role.assistant",
      Roles.Author := "user.role.author",
      Roles.Reviewer := "user.role.reviewer",
      Roles.Reader := "user.role.reader"]
  }

  /** `getRoleNames`: all role names, without the site administrator when
      `contextOnly`; a non-empty `roleIds` keeps exactly the listed roles
      (`null` and `[]` both mean no filter). */
  function RoleNames(contextOnly: bool, roleIds: Option<seq<int>>): (r: map<int, string>)
    ensures Roles.SiteAdmin in r ==> !contextOnly
    ensures forall k :: k in r <==>
      && (k in AppRoleNames() || (!contextOnly && k in SiteRoleNames()))
      && (roleIds.None? || roleIds.value == [] || k in roleIds.value)
    ensures forall k :: k in r ==> k in SiteRoleNames() + AppRoleNames() && r[k] == (SiteRoleNames() + AppRoleNames())[k]
  {
    var all := if contextOnly then AppRoleNames() else SiteRoleNames() + AppRoleNames();
    if roleIds.None? || roleIds.value == [] then all
    else map k | k in all && k in roleIds.value :: all[k]
  }

  /** Every key of the role-name table is a role: six context roles, and the
      site administrator besides. */
  lemma RoleNamesAreRoles(contextOnly: bool)
    ensures forall k :: k in RoleNames(contextOnly, None) ==> Roles.IsRole(k)
    ensures RoleNames(true, None).Keys == {Roles.Manager, Roles.SubEditor, Roles.Assistant, Roles.Author, Roles.Reviewer, Roles.Reader}
    ensures RoleNames(false, None).Keys == RoleNames(true, None).Keys + {Roles.SiteAdmin}
    ensures Roles.SiteAdmin !in RoleNames(true, None)
  {
    assert RoleNames(true, None) == AppRoleNames();
    assert AppRoleNames().Keys == {Roles.Manager, Roles.SubEditor, Roles.Assistant, Roles.Author, Roles.Reviewer, Roles.Reader};
  }

  // -----------------------------------------------------------------------
  // DAO names
  // -----------------------------------------------------------------------

  /** The DAO map, each path stored as its package: the qualified class
      path of a DAO is its package, `'.'` and the DAO name. */
  function DaoPackages(): map<string, string> {
    map[
      "AccessKeyDAO" := "lib.pkp.classes.security",
      "AnnouncementDAO" := "lib.pkp.classes.announcement",
      "AnnouncementTypeDAO" := "lib.pkp.classes.announcement",
      "AuthSourceDAO" := "lib.pkp.classes.security",
      "CategoryDAO" := "lib.pkp.classes.context",
      "CitationDAO" := "lib.pkp.classes.citation",
      "ControlledVocabDAO" := "lib.pkp.classes.controlledVocab",
      "ControlledVocabEntryDAO" := "lib.pkp.classes.controlledVocab",
      "ControlledVocabEntrySettingsDAO" := "lib.pkp.classes.controlledVocab",
      "DataObjectTombstoneDAO" := "lib.pkp.classes.tombstone",
      "DataObjectTombstoneSettingsDAO" := "lib.pkp.classes.tombstone",
      "EditDecisionDAO" := "lib.pkp.classes.submission",
      "EmailTemplateDAO" := "lib.pkp.classes.mail",
      "FilterDAO" := "lib.pkp.classes.filter",
      "FilterGroupDAO" := "lib.pkp.classes.filter",
      "GenreDAO" := "lib.pkp.classes.submission",
      "InterestDAO" := "lib.pkp.classes.user",
      "InterestEntryDAO" := "lib.pkp.classes.user",
      "LibraryFileDAO" := "lib.pkp.classes.context",
      "NavigationMenuDAO" := "lib.pkp.classes.navigationMenu",
      "NavigationMenuItemDAO" := "lib.pkp.classes.navigationMenu",
      "NavigationMenuItemAssignmentDAO" := "lib.pkp.classes.navigationMenu",
      "NoteDAO" := "lib.pkp.classes.note",
      "NotificationDAO" := "lib.pkp.classes.notification",
      "NotificationSettingsDAO" := "lib.pkp.classes.notification",
      "NotificationSubscriptionSettingsDAO" := "lib.pkp.classes.notification",
      "PluginGalleryDAO" := "lib.pkp.classes.plugins",
      "PluginSettingsDAO" := "lib.pkp.classes.plugins",
      "PublicationDAO" := "classes.publication",
      "QueuedPaymentDAO" := "lib.pkp.classes.payment",
      "ReviewAssignmentDAO" := "lib.pkp.classes.submission.reviewAssignment",
      "ReviewFilesDAO" := "lib.pkp.classes.submission",
      "ReviewFormDAO" := "lib.pkp.classes.reviewForm",
      "ReviewFormElementDAO" := "lib.pkp.classes.reviewForm",
      "ReviewFormResponseDAO" := "lib.pkp.classes.reviewForm",
      "ReviewRoundDAO" := "lib.pkp.classes.submission.reviewRound",
      "RoleDAO" := "lib.pkp.classes.security",
      "ScheduledTaskDAO" := "lib.pkp.classes.scheduledTask",
      "SessionDAO" := "lib.pkp.classes.session",
      "SiteDAO" := "lib.pkp.classes.site",
      "StageAssignmentDAO" := "lib.pkp.classes.stageAssignment",
      "SubEditorsDAO" := "lib.pkp.classes.context",
      "SubmissionAgencyDAO" := "lib.pkp.classes.submission",
      "SubmissionAgencyEntryDAO" := "lib.pkp.classes.submission",
      "SubmissionCommentDAO" := "lib.pkp.classes.submission",
      "SubmissionDisciplineDAO" := "lib.pkp.classes.submission",
      "SubmissionDisciplineEntryDAO" := "lib.pkp.classes.submission",
      "SubmissionEmailLogDAO" := "lib.pkp.classes.log",
      "SubmissionEventLogDAO" := "lib.pkp.classes.log",
      "SubmissionFileDAO" := "classes.submission",
      "SubmissionFileEventLogDAO" := "lib.pkp.classes.log",
      "QueryDAO" := "lib.pkp.classes.query",
      "SubmissionLanguageDAO" := "lib.pkp.classes.submission",
      "SubmissionLanguageEntryDAO" := "lib.pkp.classes.submission",
      "SubmissionKeywordDAO" := "lib.pkp.classes.submission",
      "SubmissionKeywordEntryDAO" := "lib.pkp.classes.submission",
      "SubmissionSubjectDAO" := "lib.pkp.classes.submission",
      "SubmissionSubjectEntryDAO" := "lib.pkp.classes.submission",
      "TimeZoneDAO" := "lib.pkp.classes.i18n",
      "TemporaryFileDAO" := "lib.pkp.classes.file",
      "UserGroupAssignmentDAO" := "lib.pkp.classes.security",
      "UserDAO" := "lib.pkp.classes.user",
      "UserGroupDAO" := "lib.pkp.classes.security",
      "UserSettingsDAO" := "lib.pkp.classes.user",
      "UserStageAssignmentDAO" := "lib.pkp.classes.user",
      "VersionDAO" := "lib.pkp.classes.site",
      "ViewsDAO" := "lib.pkp.classes.views",
      "WorkflowStageDAO" := "lib.pkp.classes.workflow",
      "XMLDAO" := "lib.pkp.classes.db"
    ]
  }

  /** The map from DAO name to fully qualified class path. */
  function DaoMap(): (m: map<string, string>)
    ensures m.Keys == DaoPackages().Keys
  {
    map name | name in DaoPackages() :: DaoPackages()[name] + "." + name
  }

  /** Every qualified path ends with `'.'` followed by its DAO name. */
  lemma DaoPathsEndInName()
    ensures forall name :: name in DaoMap() ==> Php.EndsWith(DaoMap()[name], "." + name)
  {
    forall name | name in DaoMap() ensures Php.EndsWith(DaoMap()[name], "." + name) {
      var path := DaoMap()[name];
      assert path == DaoPackages()[name] + ("." + name);
      assert path[|path| - |"." + name|..] == "." + name;
    }
  }

  /** `getQualifiedDAOName`: the mapped path, or nothing for an unknown name. */
  function QualifiedDaoName(name: string): (r: Option<string>)
    ensures r.Some? <==> name in DaoMap()
    ensures r.Some? ==> r.value == DaoMap()[name] && Php.EndsWith(r.value, "." + name)
  {
    DaoPathsEndInName();
    if name in DaoMap() then Some(DaoMap()[name]) else None
  }

  // -----------------------------------------------------------------------
  // Statistics: metric types of the report plugins
  // -----------------------------------------------------------------------

  /** A row of a statistics report: column name to value. */
  datatype ReportRow = ReportRow(cells: map<string, string>)

  /** A report plugin, reduced to what the dispatch uses: the metric types it
      offers, their display names, and its own `getMetrics`, which answers a
      request (metric types, columns) with a partial report or `null`. The
      filter, order and range of the overall request are fixed and folded
      into `metrics`. */
  datatype ReportPlugin = ReportPlugin(
    metricTypes: seq<string>,
    displayType: string -> string,
    metrics: (seq<string>, seq<string>) -> Option<seq<ReportRow>>)

  /** Some plugin offers metric type `t`. */
  predicate Offered(plugins: seq<ReportPlugin>, t: string) {
    exists j :: 0 <= j < |plugins| && t in plugins[j].metricTypes
  }

  lemma OfferedSnoc(plugins: seq<ReportPlugin>, t: string)
    requires |plugins| > 0
    ensures Offered(plugins, t)
        <==> Offered(plugins[..|plugins| - 1], t) || t in plugins[|plugins| - 1].metricTypes
  {
    var init := plugins[..|plugins| - 1];
    if Offered(plugins, t) {
      var j :| 0 <= j < |plugins| && t in plugins[j].metricTypes;
      if j < |plugins| - 1 {
        assert init[j] == plugins[j];
      }
    }
    if Offered(init, t) {
      var j :| 0 <= j < |init| && t in init[j].metricTypes;
      assert plugins[j] == init[j];
    }
  }

  /** The metric types of all plugins, concatenated in plugin order. */
  function AllMetricTypes(plugins: seq<ReportPlugin>): (r: seq<string>)
    ensures forall t :: t in r <==> Offered(plugins, t)
    decreases |plugins|
  {
    if plugins == [] then []
    else
      OfferedSnoc(plugins, "");
      var r := AllMetricTypes(plugins[..|plugins| - 1]) + plugins[|plugins| - 1].metricTypes;
      assert forall t :: t in r <==> Offered(plugins, t) by {
        forall t ensures t in r <==> Offered(plugins, t) {
          OfferedSnoc(plugins, t);
        }
      }
      r
  }

  /** `getMetricTypes()` over the site-level report plugins. */
  method GetMetricTypes(plugins: seq<ReportPlugin>) returns (metricTypes: seq<string>)
    ensures metricTypes == AllMetricTypes(plugins)
    ensures forall t :: t in metricTypes <==> Offered(plugins, t)
  {
    metricTypes := [];
    var i := 0;
    while i < |plugins|
      invariant 0 <= i <= |plugins|
      invariant metricTypes == AllMetricTypes(plugins[..i])
    {
      assert plugins[..i + 1][..i] == plugins[..i];
      metricTypes := metricTypes + plugins[i].metricTypes;
      i := i + 1;
    }
    assert plugins[..i] == plugins;
  }

  /** One plugin's contribution to `getMetricTypes(true)`: each of its types
      in turn is mapped to the plugin's display name for it. */
  function WithNames(names: map<string, string>, plugin: ReportPlugin, types: seq<string>): (r: map<string, string>)
    decreases |types|
  {
    if types == [] then names
    else
      var t := types[|types| - 1];
      WithNames(names, plugin, types[..|types| - 1])[t := plugin.displayType(t)]
  }

  lemma {:induction false} WithNamesEntries(names: map<string, string>, plugin: ReportPlugin, types: seq<string>, t: string)
    ensures t in WithNames(names, plugin, types) <==> t in names || t in types
    ensures t in types ==> WithNames(names, plugin, types)[t] == plugin.displayType(t)
    ensures t !in types && t in names ==> WithNames(names, plugin, types)[t] == names[t]
    decreases |types|
  {
    if types != [] {
      var init := types[..|types| - 1];
      WithNamesEntries(names, plugin, init, t);
      assert types == init + [types[|types| - 1]];
    }
  }

  /** The type-to-display-name map of `getMetricTypes(true)`: later plugins
      overwrite the entries of earlier ones. */
  function DisplayNames(plugins: seq<ReportPlugin>): map<string, string>
    decreases |plugins|
  {
    if plugins == [] then map[]
    else
      var last := plugins[|plugins| - 1];
      WithNames(DisplayNames(plugins[..|plugins| - 1]), last, last.metricTypes)
  }

  /** Plugin `j` is the last one that offers `t`. */
  predicate LastOffering(plugins: seq<ReportPlugin>, j: int, t: string) {
    0 <= j < |plugins| && t in plugins[j].metricTypes
    && forall k :: j < k < |plugins| ==> t !in plugins[k].metricTypes
  }

  /** The display map has an entry exactly for the offered types, and each
      entry is the name given by the last plugin that offers the type. */
  lemma {:induction false} DisplayNamesLastWins(plugins: seq<ReportPlugin>, t: string)
    ensures t in DisplayNames(plugins) <==> Offered(plugins, t)
    ensures forall j :: LastOffering(plugins, j, t) ==> DisplayNames(plugins)[t] == plugins[j].displayType(t)
    decreases |plugins|
  {
    if plugins != [] {
      var init := plugins[..|plugins| - 1];
      var last := plugins[|plugins| - 1];
      DisplayNamesLastWins(init, t);
      OfferedSnoc(plugins, t);
      WithNamesEntries(DisplayNames(init), last, last.metricTypes, t);
      forall j | LastOffering(plugins, j, t)
        ensures DisplayNames(plugins)[t] == plugins[j].displayType(t)
      {
        if j < |plugins| - 1 {
          assert init[j] == plugins[j];
          assert forall k :: j < k < |init| ==> init[k] == plugins[k];
        }
      }
    }
  }

  /** `getMetricTypes(true)` over the site-level report plugins. */
  method GetMetricDisplayNames(plugins: seq<ReportPlugin>) returns (names: map<string, string>)
    ensures names == DisplayNames(plugins)
    ensures forall t :: t in names <==> Offered(plugins, t)
  {
    names := map[];
    var i := 0;
    while i < |plugins|
      invariant 0 <= i <= |plugins|
      invariant names == DisplayNames(plugins[..i])
    {
      assert plugins[..i + 1][..i] == plugins[..i];
      var plugin := plugins[i];
      ghost var before := names;
      var k := 0;
      while k < |plugin.metricTypes|
        invariant 0 <= k <= |plugin.metricTypes|
        invariant names == WithNames(before, plugin, plugin.metricTypes[..k])
      {
        var t := plugin.metricTypes[k];
        assert plugin.metricTypes[..k + 1][..k] == plugin.metricTypes[..k];
        names := names[t := plugin.displayType(t)];
        k := k + 1;
      }
      assert plugin.metricTypes[..k] == plugin.metricTypes;
      i := i + 1;
    }
    assert plugins[..i] == plugins;
    forall t ensures t in names <==> Offered(plugins, t) {
      DisplayNamesLastWins(plugins, t);
    }
  }

  /** The site whose settings hold the configured default metric type. */
  datatype Site = Site(defaultMetricType: Option<string>)

  /** `getDefaultMetricType`: `site` is the request's site (nothing when it is
      not a `Site`), `available` the site-level metric types. A configured
      default is kept only if it is available; with none configured (`null`,
      `''` or `'0'`), the sole available type is taken when there is exactly
      one. */
  function DefaultMetricType(site: Option<Site>, available: seq<string>): (r: Option<string>)
    ensures r.Some? ==> site.Some? && r.value in available
    ensures site.Some? && site.value.defaultMetricType.Some? && Php.Truthy(site.value.defaultMetricType.value)
        ==> r == if site.value.defaultMetricType.value in available then site.value.defaultMetricType else None
    ensures site.Some? && (site.value.defaultMetricType.None? || !Php.Truthy(site.value.defaultMetricType.value))
        ==> r == if |available| == 1 then Some(available[0]) else None
  {
    if site.None? then None
    else
      var configured := site.value.defaultMetricType;
      if configured.None? || !Php.Truthy(configured.value) then
        if |available| == 1 then Some(available[0]) else None
      else if configured.value in available then configured
      else None
  }

  // -----------------------------------------------------------------------
  // Statistics: the dispatch of a report request
  // -----------------------------------------------------------------------

  /** The value of `STATISTICS_DIMENSION_METRIC_TYPE`. */
  const MetricTypeColumn: string := "metric_type"

  /** The `columns` argument: a scalar or an array of column names. */
  datatype Columns = ScalarColumn(name: string) | ColumnList(names: seq<string>)

  /** The columns after canonicalisation: a scalar becomes a one-element list,
      and with more than one metric type the metric-type column is appended
      when it is absent. */
  function CanonicalColumns(columns: Columns, metricTypeCount: nat): (r: seq<string>)
    ensures var given := if columns.ScalarColumn? then [columns.name] else columns.names;
      && (r == given || r == given + [MetricTypeColumn])
      && (metricTypeCount > 1 ==> MetricTypeColumn in r)
      && (metricTypeCount <= 1 || MetricTypeColumn in given ==> r == given)
      && (metricTypeCount > 1 && MetricTypeColumn !in given ==> multiset(r)[MetricTypeColumn] == 1)
  {
    var given := if columns.ScalarColumn? then [columns.name] else columns.names;
    if metricTypeCount > 1 && MetricTypeColumn !in given then given + [MetricTypeColumn] else given
  }

  /** The state of the dispatch loop: the report merged so far, the metric
      types not yet served, and the type lists requested from the plugins so
      far, in order. */
  datatype Dispatch = Dispatch(report: seq<ReportRow>, pending: seq<string>, requests: seq<seq<string>>)

  /** A `null` partial report merges as the empty array. */
  function AsRows(partial: Option<seq<ReportRow>>): seq<ReportRow> {
    if partial.Some? then partial.value else []
  }

  /** One plugin's turn: it is asked for the pending types it offers, if
      there are any; its partial report is appended and those types stop
      being pending. */
  function DispatchStep(d: Dispatch, plugin: ReportPlugin, columns: seq<string>): Dispatch {
    var available := Php.Intersect(plugin.metricTypes, d.pending);
    if |available| == 0 then d
    else Dispatch(d.report + AsRows(plugin.metrics(available, columns)),
                  Php.Diff(d.pending, available),
                  d.requests + [available])
  }

  /** The dispatch over all plugins, in order. */
  function DispatchAll(plugins: seq<ReportPlugin>, requested: seq<string>, columns: seq<string>): Dispatch
    decreases |plugins|
  {
    if plugins == [] then Dispatch([], requested, [])
    else DispatchStep(DispatchAll(plugins[..|plugins| - 1], requested, columns), plugins[|plugins| - 1], columns)
  }

  predicate Disjoint(a: seq<string>, b: seq<string>) {
    forall t :: t in a ==> t !in b
  }

  /** What the dispatch achieves: the types left pending are exactly the
      requested types no plugin offers; every request is non-empty, asks only
      for requested types some plugin offers, and none of them is pending
      afterwards; and no type is requested twice. */
  lemma {:induction false} DispatchCorrect(plugins: seq<ReportPlugin>, requested: seq<string>, columns: seq<string>)
    ensures var d := DispatchAll(plugins, requested, columns);
      && (forall t :: t in d.pending <==> t in requested && !Offered(plugins, t))
      && (forall i :: 0 <= i < |d.requests| ==> |d.requests[i]| > 0)
      && (forall i, t :: 0 <= i < |d.requests| && t in d.requests[i]
            ==> t in requested && Offered(plugins, t) && t !in d.pending)
      && (forall i, j :: 0 <= i < j < |d.requests| ==> Disjoint(d.requests[i], d.requests[j]))
    decreases |plugins|
  {
    if plugins != [] {
      var init := plugins[..|plugins| - 1];
      var p := plugins[|plugins| - 1];
      DispatchCorrect(init, requested, columns);
      var d0 := DispatchAll(init, requested, columns);
      var d := DispatchAll(plugins, requested, columns);
      var available := Php.Intersect(p.metricTypes, d0.pending);
      forall t ensures Offered(plugins, t) <==> Offered(init, t) || t in p.metricTypes {
        OfferedSnoc(plugins, t);
      }
      if |available| == 0 {
        assert d == d0;
        forall t | t in d0.pending ensures t !in p.metricTypes {
          assert t !in available;
        }
      } else {
        assert d.pending == Php.Diff(d0.pending, available);
        assert d.requests == d0.requests + [available];
        forall i, j | 0 <= i < j < |d.requests| ensures Disjoint(d.requests[i], d.requests[j]) {
          if j == |d.requests| - 1 {
            assert d.requests[i] == d0.requests[i];
            assert d.requests[j] == available;
          } else {
            assert d.requests[i] == d0.requests[i] && d.requests[j] == d0.requests[j];
          }
        }
        forall i, t | 0 <= i < |d.requests| && t in d.requests[i]
          ensures t in requested && Offered(plugins, t) && t !in d.pending
        {
          if i < |d0.requests| {
            assert d.requests[i] == d0.requests[i];
          }
        }
      }
    }
  }

  /** `getMetrics` with its inputs made explicit: whether the filter and the
      order are arrays, the canonicalised metric types (nothing when
      canonicalisation did not yield an array), the columns and the report
      plugins of the request's context. */
  function MetricsReport(filterIsArray: bool, orderByIsArray: bool, metricType: Option<seq<string>>,
                         columns: Columns, plugins: seq<ReportPlugin>): (r: Option<seq<ReportRow>>)
    ensures r.Some? <==>
      && filterIsArray && orderByIsArray && metricType.Some? && |metricType.value| > 0 && plugins != []
      && forall t :: t in metricType.value ==> Offered(plugins, t)
    ensures r.Some? ==> r.value == DispatchAll(plugins, metricType.value, CanonicalColumns(columns, |metricType.value|)).report
  {
    if !(filterIsArray && orderByIsArray) || metricType.None? || |metricType.value| == 0 || plugins == [] then None
    else
      var requested := metricType.value;
      var d := DispatchAll(plugins, requested, CanonicalColumns(columns, |requested|));
      DispatchCorrect(plugins, requested, CanonicalColumns(columns, |requested|));
      if |d.pending| > 0 then
        assert d.pending[0] in d.pending;
        None
      else
        Some(d.report)
  }

  /** `getMetrics`: the dispatch loop over the plugins. */
  method GetMetrics(filterIsArray: bool, orderByIsArray: bool, metricType: Option<seq<string>>,
                    columns: Columns, plugins: seq<ReportPlugin>) returns (r: Option<seq<ReportRow>>)
    ensures r == MetricsReport(filterIsArray, orderByIsArray, metricType, columns, plugins)
  {
    if !(filterIsArray && orderByIsArray) {
      return None;
    }
    if metricType.None? {
      return None;
    }
    var pending := metricType.value;
    var metricTypeCount := |pending|;
    var cols := if columns.ScalarColumn? then [columns.name] else columns.names;
    if metricTypeCount == 0 {
      return None;
    }
    if metricTypeCount > 1 {
      if MetricTypeColumn !in cols {
        cols := cols + [MetricTypeColumn];
      }
    }
    if |plugins| == 0 {
      return None;
    }
    var report := [];
    ghost var requests := [];
    var i := 0;
    while i < |plugins|
      invariant 0 <= i <= |plugins|
      invariant DispatchAll(plugins[..i], metricType.value, cols) == Dispatch(report, pending, requests)
    {
      assert plugins[..i + 1][..i] == plugins[..i];
      var available := Php.Intersect(plugins[i].metricTypes, pending);
      if |available| != 0 {
        var partial := plugins[i].metrics(available, cols);
        report := report + AsRows(partial);
        pending := Php.Diff(pending, available);
        requests := requests + [available];
      }
      i := i + 1;
    }
    assert plugins[..i] == plugins;
    if |pending| > 0 {
      return None;
    }
    return Some(report);
  }

  // -----------------------------------------------------------------------
  // Enabled products
  // -----------------------------------------------------------------------

  const ContextSite: int := 0

  /** Products by category, then product name to version. */
  type Products = map<string, map<string, string>>

  /** What `getEnabledProducts` returns: all categories, or one category's
      products (`[]` when the category is missing). */
  datatype ProductsView = AllCategories(all: Products) | OneCategory(products: map<string, string>)

  /** The context id the cache is keyed by: the given one, else the
      router's top-level context, else the site. */
  function ResolvedContextId(mainContextId: Option<int>, routerContextId: Option<int>): (id: int)
    ensures mainContextId.Some? ==> id == mainContextId.value
    ensures mainContextId.None? && routerContextId.Some? ==> id == routerContextId.value
    ensures mainContextId.None? && routerContextId.None? ==> id == ContextSite
  {
    if mainContextId.Some? then mainContextId.value
    else if routerContextId.Some? then routerContextId.value
    else ContextSite
  }

  /** The setting context handed to the version DAO: the context-list names
      paired with the main context id followed by zeros (empty at depth 0). */
  function SettingContext(contextList: seq<string>, mainContextId: int): (r: seq<(string, int)>)
    ensures |r| == |contextList|
    ensures forall i :: 0 <= i < |r| ==> r[i].0 == contextList[i]
    ensures |r| > 0 ==> r[0].1 == mainContextId
    ensures forall i :: 0 < i < |r| ==> r[i].1 == 0
  {
    seq(|contextList|, i requires 0 <= i < |contextList| => (contextList[i], if i == 0 then mainContextId else 0))
  }

  function View(products: Products, category: Option<string>): (r: ProductsView)
    ensures category.None? ==> r == AllCategories(products)
    ensures category.Some? && category.value in products ==> r == OneCategory(products[category.value])
    ensures category.Some? && category.value !in products ==> r == OneCategory(map[])
  {
    if category.None? then AllCategories(products)
    else if category.value in products then OneCategory(products[category.value])
    else OneCategory(map[])
  }

  /** The application object's cache of enabled products by context id. */
  class ProductRegistry {
    /** `getContextList()`; its length is `getContextDepth()`. */
    const contextList: seq<string>
    var enabledProducts: map<int, Products>
    /** The context ids whose products were fetched from the version DAO, in
        order. */
    var fetched: seq<int>

    /** Every cached context was fetched exactly once. */
    predicate Valid()
      reads this
    {
      && (forall i, j :: 0 <= i < j < |fetched| ==> fetched[i] != fetched[j])
      && (forall i :: 0 <= i < |fetched| ==> fetched[i] in enabledProducts)
      && (forall id :: id in enabledProducts ==> id in fetched)
    }

    constructor (contextList: seq<string>)
      ensures Valid() && this.contextList == contextList
      ensures enabledProducts == map[] && fetched == []
    {
      this.contextList := contextList;
      enabledProducts := map[];
      fetched := [];
    }

    /** `getEnabledProducts`: `currentProducts` is the version DAO's
        `getCurrentProducts`, consulted only on a cache miss. */
    method GetEnabledProducts(category: Option<string>, mainContextId: Option<int>, routerContextId: Option<int>,
                              currentProducts: seq<(string, int)> -> Products) returns (r: ProductsView)
      requires Valid()
      modifies this`enabledProducts, this`fetched
      ensures Valid()
      ensures var id := ResolvedContextId(mainContextId, routerContextId);
        && (id in old(enabledProducts) ==> enabledProducts == old(enabledProducts) && fetched == old(fetched))
        && (id !in old(enabledProducts) ==>
              && enabledProducts == old(enabledProducts)[id := currentProducts(SettingContext(contextList, id))]
              && fetched == old(fetched) + [id])
        && r == View(enabledProducts[id], category)
    {
      var id := ResolvedContextId(mainContextId, routerContextId);
      if id !in enabledProducts {
        var settingContext := SettingContext(contextList, id);
        enabledProducts := enabledProducts[id := currentProducts(settingContext)];
        fetched := fetched + [id];
      }
      r := View(enabledProducts[id], category);
    }
  }
}
