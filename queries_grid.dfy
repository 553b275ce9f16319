/** The queries grid of a submission's workflow stage: who may call which
    grid operation, the grid title, and the effects of leaving, opening,
    closing, reordering and deleting a query (a discussion).

    The query DAO is an abstract map of query rows plus a map of participant
    lists; notification updates are recorded as effects. The access helper
    becomes a value with uninterpreted predicates. */
module Queries {
  import opened Wrappers
  import Roles
  import Application

  /** The values of `ASSOC_TYPE_SUBMISSION` and `ASSOC_TYPE_QUERY`. */
  const AssocTypeSubmission: int := 0x0100009
  const AssocTypeQuery: int := 0x010000a

  // -----------------------------------------------------------------------
  // The role-assignment table
  // -----------------------------------------------------------------------

  /** Operations by role id. */
  type RoleTable = map<int, seq<string>>

  /** The base handler's `addRoleAssignment`: each listed role's operations
      are extended by `operations`. */
  function WithAssignment(table: RoleTable, roleIds: set<int>, operations: seq<string>): (r: RoleTable)
    ensures r.Keys == table.Keys + roleIds
    ensures forall role :: role in roleIds ==> r[role] == (if role in table then table[role] else []) + operations
    ensures forall role :: role in table && role !in roleIds ==> r[role] == table[role]
  {
    map role | role in table.Keys + roleIds ::
      if role in roleIds then (if role in table then table[role] else []) + operations else table[role]
  }

  const ReadOperations: seq<string> :=
    ["fetchGrid", "fetchRow", "readQuery", "participants", "addQuery", "editQuery", "updateQuery", "deleteQuery"]
  const EditorOperations: seq<string> := ["openQuery", "closeQuery", "saveSequence", "fetchTemplateBody"]
  const ManagerOperations: seq<string> := ["leaveQuery"]

  /** The table the grid's constructor builds. */
  function QueriesRoleTable(): RoleTable {
    var t1 := WithAssignment(map[], {Roles.Manager, Roles.SubEditor, Roles.Assistant, Roles.Reviewer, Roles.Author}, ReadOperations);
    var t2 := WithAssignment(t1, {Roles.Manager, Roles.SubEditor, Roles.Assistant}, EditorOperations);
    WithAssignment(t2, {Roles.Manager}, ManagerOperations)
  }

  predicate Granted(table: RoleTable, role: int, operation: string) {
    role in table && operation in table[role]
  }

  /** The table the constructor builds, written out. */
  lemma QueriesRoleTableValue()
    ensures QueriesRoleTable() == map[
      Roles.Manager := ReadOperations + EditorOperations + ManagerOperations,
      Roles.SubEditor := ReadOperations + EditorOperations,
      Roles.Assistant := ReadOperations + EditorOperations,
      Roles.Reviewer := ReadOperations,
      Roles.Author := ReadOperations]
  {
    var t1 := WithAssignment(map[], {Roles.Manager, Roles.SubEditor, Roles.Assistant, Roles.Reviewer, Roles.Author}, ReadOperations);
    var t2 := WithAssignment(t1, {Roles.Manager, Roles.SubEditor, Roles.Assistant}, EditorOperations);
    assert [] + ReadOperations == ReadOperations;
    assert t2[Roles.Manager] == ReadOperations + EditorOperations;
  }

  /** The three groups of the table: `leaveQuery` goes only to managers, the
      editorial group only to managers, sub-editors and assistants, and
      reviewers and authors get exactly the first group; no other role gets
      anything. */
  lemma QueriesRoleTableGrants(role: int, operation: string)
    ensures Granted(QueriesRoleTable(), role, "leaveQuery") <==> role == Roles.Manager
    ensures operation in EditorOperations ==>
      (Granted(QueriesRoleTable(), role, operation) <==> role in {Roles.Manager, Roles.SubEditor, Roles.Assistant})
    ensures role == Roles.Reviewer || role == Roles.Author ==>
      (Granted(QueriesRoleTable(), role, operation) <==> operation in ReadOperations)
    ensures role !in {Roles.Manager, Roles.SubEditor, Roles.Assistant, Roles.Reviewer, Roles.Author}
      ==> !Granted(QueriesRoleTable(), role, operation)
  {
    QueriesRoleTableValue();
    OperationGroupsDisjoint();
  }

  lemma OperationGroupsDisjoint()
    ensures "leaveQuery" !in ReadOperations + EditorOperations
    ensures forall op :: op in EditorOperations ==> op !in ReadOperations
  {
  }

  // -----------------------------------------------------------------------
  // Titles, participants
  // -----------------------------------------------------------------------

  /** The grid title by stage; any other stage has none. */
  function QueriesGridTitle(stageId: int): (r: Option<string>)
    ensures r.Some? <==> Application.IsStage(stageId)
  {
    match stageId
    case 1 => Some("submission.queries.submission")
    case 4 => Some("submission.queries.editorial")
    case 5 => Some("submission.queries.production")
    case 2 => Some("submission.queries.review")
    case 3 => Some("submission.queries.review")
    case _ => None
  }

  /** Internal and external review share a title; the submission, editing
      and production stages each have a title of their own. */
  lemma QueriesGridTitlesShared(s: int, t: int)
    requires Application.IsStage(s) && Application.IsStage(t) && s != t
    ensures QueriesGridTitle(s) == QueriesGridTitle(t) <==> {s, t} == {2, 3}
  {
    var a := QueriesGridTitle(s).value;
    var b := QueriesGridTitle(t).value;
    if {s, t} != {2, 3} {
      assert a[19] != b[19] || a[20] != b[20] || |a| != |b|;
    } else {
      assert s == 2 || s == 3;
    }
  }

  /** `_getCurrentUserCanLeave`: the user holds the manager role, the query
      has at least three participants, and the user is one of them. Leaving
      is then never a no-op. */
  predicate CanLeave(userRoles: seq<int>, participantIds: seq<int>, userId: int)
    ensures CanLeave(userRoles, participantIds, userId) ==>
      userId !in RemoveParticipant(participantIds, userId)
      && |RemoveParticipant(participantIds, userId)| < |participantIds|
  {
    Roles.Manager in userRoles && |participantIds| >= 3 && userId in participantIds
  }

  /** `removeParticipant`: every row of the user goes. */
  function RemoveParticipant(participantIds: seq<int>, userId: int): (r: seq<int>)
    ensures forall x :: x in r <==> x in participantIds && x != userId
    ensures |r| == |participantIds| - multiset(participantIds)[userId]
    ensures multiset(r) == multiset(participantIds)[userId := 0]
  {
    if participantIds == [] then []
    else
      var rest := RemoveParticipant(participantIds[1..], userId);
      assert participantIds == [participantIds[0]] + participantIds[1..];
      if participantIds[0] == userId then rest else [participantIds[0]] + rest
  }

  /** In a list without repeats a member occurs exactly once. */
  lemma {:induction false} OccursOnce(participantIds: seq<int>, userId: int)
    requires userId in participantIds
    requires forall i, j :: 0 <= i < j < |participantIds| ==> participantIds[i] != participantIds[j]
    ensures multiset(participantIds)[userId] == 1
  {
    var tail := participantIds[1..];
    assert participantIds == [participantIds[0]] + tail;
    assert forall i, j :: 0 <= i < j < |tail| ==> tail[i] != tail[j] by {
      forall i, j | 0 <= i < j < |tail| ensures tail[i] != tail[j] {
        assert tail[i] == participantIds[i + 1] && tail[j] == participantIds[j + 1];
      }
    }
    if participantIds[0] == userId {
      assert userId !in tail by {
        forall j | 0 <= j < |tail| ensures tail[j] != userId {
          assert tail[j] == participantIds[j + 1];
        }
      }
    } else {
      OccursOnce(tail, userId);
    }
  }

  /** A manager who may leave leaves a discussion that still has at least
      two participants, when the participant list has no repeats. */
  lemma LeavingKeepsDiscussion(userRoles: seq<int>, participantIds: seq<int>, userId: int)
    requires CanLeave(userRoles, participantIds, userId)
    requires forall i, j :: 0 <= i < j < |participantIds| ==> participantIds[i] != participantIds[j]
    ensures |RemoveParticipant(participantIds, userId)| >= 2
    ensures userId !in RemoveParticipant(participantIds, userId)
  {
    OccursOnce(participantIds, userId);
  }

  // -----------------------------------------------------------------------
  // The handler
  // -----------------------------------------------------------------------

  /** A query row. */
  datatype Query = Query(id: int, assocType: int, assocId: int, stageId: int, sequence: int, isClosed: bool)

  /** The access helper's answers. */
  datatype AccessHelper = AccessHelper(
    canDelete: int -> bool,
    canOpenClose: Query -> bool,
    canListAll: int -> bool)

  /** The JSON reply of a grid operation. */
  datatype Response = Failure | DataChanged(id: int) | Event(name: string)

  /** The notification side effects of a deletion. */
  datatype Effect =
    | NotificationsDeleted(assocType: int, assocId: int)
    | SubmissionNotificationsUpdated(notificationTypes: seq<string>, submissionId: int)

  /** The submission notifications a deletion at the editing or production
      stage brings up to date. */
  const StageNotificationTypes: seq<string> :=
    ["ASSIGN_COPYEDITOR", "AWAITING_COPYEDITS", "ASSIGN_PRODUCTIONUSER", "AWAITING_REPRESENTATIONS"]

  /** Which authorisation policy `authorize` installs. */
  datatype Policy = QueryAccessPolicy | QueryWorkflowStageAccessPolicy

  /** The arguments `loadData` hands to the query DAO; `userId` is nothing
      when every query may be listed. */
  datatype QueryFilter = QueryFilter(assocType: int, assocId: int, stageId: int, userId: Option<int>)

  /** `updateObject` of a query: rewrites its row, if there is one. */
  function UpdateQuery(queries: map<int, Query>, q: Query): (r: map<int, Query>)
    ensures q.id in queries ==> r == queries[q.id := q]
    ensures q.id !in queries ==> r == queries
  {
    if q.id in queries then queries[q.id := q] else queries
  }

  /** Opening or closing a query changes its closed flag and nothing else,
      and doing it twice is doing it once. */
  lemma SetClosedIdempotent(queries: map<int, Query>, q: Query, closed: bool)
    ensures var once := UpdateQuery(queries, q.(isClosed := closed));
      && UpdateQuery(once, q.(isClosed := closed)) == once
      && (q.id in once ==> once[q.id].isClosed == closed && once[q.id] == q.(isClosed := closed))
      && forall id :: id in queries && id != q.id ==> id in once && once[id] == queries[id]
  {
  }

  class QueriesGridHandler {
    var roleAssignments: RoleTable
    var stageId: int
    var title: Option<string>
    /** The submission the grid belongs to (the queries' assoc id). */
    const submissionId: int
    /** The request's user id, if logged in. */
    const user: Option<int>
    /** The user's roles in the context (the authorised `ASSOC_TYPE_USER_ROLES` object). */
    const userRoles: seq<int>
    /** The query rows by id. */
    var queries: map<int, Query>
    /** The participant lists by query id. */
    var participants: map<int, seq<int>>
    /** The notification effects performed so far. */
    var effects: seq<Effect>

    /** Query rows are stored under their own id. */
    predicate Valid()
      reads this
    {
      forall id :: id in queries ==> queries[id].id == id
    }

    constructor (submissionId: int, user: Option<int>, userRoles: seq<int>,
                 queries: map<int, Query>, participants: map<int, seq<int>>)
      requires forall id :: id in queries ==> queries[id].id == id
      ensures Valid()
      ensures roleAssignments == QueriesRoleTable()
      ensures this.submissionId == submissionId && this.user == user && this.userRoles == userRoles
      ensures this.queries == queries && this.participants == participants
      ensures title == None && effects == []
    {
      roleAssignments := map[];
      this.submissionId := submissionId;
      this.user := user;
      this.userRoles := userRoles;
      this.queries := queries;
      this.participants := participants;
      title := None;
      effects := [];
      stageId := 0;
      new;
      AddRoleAssignment({Roles.Manager, Roles.SubEditor, Roles.Assistant, Roles.Reviewer, Roles.Author}, ReadOperations);
      AddRoleAssignment({Roles.Manager, Roles.SubEditor, Roles.Assistant}, EditorOperations);
      AddRoleAssignment({Roles.Manager}, ManagerOperations);
    }

    method AddRoleAssignment(roleIds: set<int>, operations: seq<string>)
      modifies this`roleAssignments
      ensures roleAssignments == WithAssignment(old(roleAssignments), roleIds, operations)
    {
      roleAssignments := WithAssignment(roleAssignments, roleIds, operations);
    }

    /** The participants of a query; the DAO yields none for an unknown one. */
    function ParticipantsOf(queryId: int): (r: seq<int>)
      reads this
      ensures queryId in participants ==> r == participants[queryId]
      ensures queryId !in participants ==> r == []
    {
      if queryId in participants then participants[queryId] else []
    }

    /** `authorize`: records the stage id and picks the query policy when a
        (truthy) query id was requested, the stage policy otherwise. */
    method Authorize(stageIdVar: int, queryIdVar: Option<string>) returns (policy: Policy)
      modifies this`stageId
      ensures stageId == stageIdVar
      ensures policy == (if queryIdVar.Some? && queryIdVar.value != "" && queryIdVar.value != "0"
                         then QueryAccessPolicy else QueryWorkflowStageAccessPolicy)
    {
      stageId := stageIdVar;
      if queryIdVar.Some? && queryIdVar.value != "" && queryIdVar.value != "0" {
        policy := QueryAccessPolicy;
      } else {
        policy := QueryWorkflowStageAccessPolicy;
      }
    }

    /** `initialize`: sets the title for the stage; for any other stage the
        title is left as it was (the source's `assert(false)` does nothing
        with assertions off). */
    method Initialize()
      modifies this`title
      ensures Application.IsStage(stageId) ==> title == QueriesGridTitle(stageId)
      ensures !Application.IsStage(stageId) ==> title == old(title)
    {
      var t := QueriesGridTitle(stageId);
      if t.Some? {
        title := t;
      }
    }

    /** `loadData`: the queries of this submission and stage, restricted to
        the user's own unless the user may list all. Without a user the
        restricted case is a fatal error in the source. */
    method LoadData(access: AccessHelper) returns (filter: QueryFilter)
      requires user.Some? || access.canListAll(stageId)
      ensures filter.assocType == AssocTypeSubmission && filter.assocId == submissionId && filter.stageId == stageId
      ensures filter.userId.None? <==> access.canListAll(stageId)
      ensures filter.userId.Some? ==> filter.userId == user
    {
      var userId := if access.canListAll(stageId) then None else Some(user.value);
      filter := QueryFilter(AssocTypeSubmission, submissionId, stageId, userId);
    }

    /** `leaveQuery`: a user who may leave is removed from the participants
        and the reply is the `user-left-discussion` event; otherwise the reply
        is a failure and nothing changes. */
    method LeaveQuery(queryId: int) returns (response: Response)
      modifies this`participants
      ensures response != Failure <==> user.Some? && CanLeave(userRoles, old(ParticipantsOf(queryId)), user.value)
      ensures response != Failure ==>
        && response == Event("user-left-discussion")
        && participants == old(participants)[queryId := RemoveParticipant(old(ParticipantsOf(queryId)), user.value)]
      ensures response == Failure ==> participants == old(participants)
    {
      if user.Some? && CanLeave(userRoles, ParticipantsOf(queryId), user.value) {
        participants := participants[queryId := RemoveParticipant(ParticipantsOf(queryId), user.value)];
        response := Event("user-left-discussion");
      } else {
        response := Failure;
      }
    }

    /** `openQuery` (`closed` false) and `closeQuery` (`closed` true) on the
        authorised query. */
    method SetQueryClosed(query: Option<Query>, access: AccessHelper, closed: bool) returns (response: Response)
      requires Valid()
      modifies this`queries
      ensures Valid()
      ensures query.None? || !access.canOpenClose(query.value) ==> response == Failure && queries == old(queries)
      ensures query.Some? && access.canOpenClose(query.value) ==>
        && response == DataChanged(query.value.id)
        && queries == UpdateQuery(old(queries), query.value.(isClosed := closed))
    {
      if query.None? || !access.canOpenClose(query.value) {
        return Failure;
      }
      queries := UpdateQuery(queries, query.value.(isClosed := closed));
      response := DataChanged(query.value.id);
    }

    method OpenQuery(query: Option<Query>, access: AccessHelper) returns (response: Response)
      requires Valid()
      modifies this`queries
      ensures Valid()
      ensures query.None? || !access.canOpenClose(query.value) ==> response == Failure && queries == old(queries)
      ensures query.Some? && access.canOpenClose(query.value) ==>
        && response == DataChanged(query.value.id)
        && queries == UpdateQuery(old(queries), query.value.(isClosed := false))
    {
      response := SetQueryClosed(query, access, false);
    }

    method CloseQuery(query: Option<Query>, access: AccessHelper) returns (response: Response)
      requires Valid()
      modifies this`queries
      ensures Valid()
      ensures query.None? || !access.canOpenClose(query.value) ==> response == Failure && queries == old(queries)
      ensures query.Some? && access.canOpenClose(query.value) ==>
        && response == DataChanged(query.value.id)
        && queries == UpdateQuery(old(queries), query.value.(isClosed := true))
    {
      response := SetQueryClosed(query, access, true);
    }

    /** `setDataElementSequence`: the query is looked up by id within this
        submission; only its sequence changes. A row outside the submission
        is a fatal error in the source and changes nothing here. */
    method SetDataElementSequence(rowId: int, newSequence: int) returns (found: bool)
      modifies this`queries
      requires Valid()
      ensures Valid()
      ensures found <==> (rowId in old(queries) && old(queries)[rowId].assocType == AssocTypeSubmission
                          && old(queries)[rowId].assocId == submissionId)
      ensures found ==> queries == old(queries)[rowId := old(queries)[rowId].(sequence := newSequence)]
      ensures !found ==> queries == old(queries)
    {
      found := rowId in queries && queries[rowId].assocType == AssocTypeSubmission && queries[rowId].assocId == submissionId;
      if found {
        var query := queries[rowId].(sequence := newSequence);
        queries := UpdateQuery(queries, query);
      }
    }

    /** `deleteQuery`: with a valid CSRF token, an authorised query and
        permission to delete it, the query and its notifications go, and at
        the editing and production stages the submission's notifications are
        brought up to date. Otherwise nothing happens. */
    method DeleteQuery(csrfOk: bool, query: Option<Query>, access: AccessHelper) returns (response: Response)
      requires Valid()
      modifies this`queries, this`effects
      ensures Valid()
      ensures !csrfOk || query.None? || !access.canDelete(query.value.id) ==>
        response == Failure && queries == old(queries) && effects == old(effects)
      ensures csrfOk && query.Some? && access.canDelete(query.value.id) ==>
        && response == DataChanged(query.value.id)
        && queries == old(queries) - {query.value.id}
        && effects == old(effects) + [NotificationsDeleted(AssocTypeQuery, query.value.id)]
             + (if stageId == Application.StageEditing || stageId == Application.StageProduction
                then [SubmissionNotificationsUpdated(StageNotificationTypes, submissionId)] else [])
    {
      if !csrfOk || query.None? || !access.canDelete(query.value.id) {
        return Failure;
      }
      var id := query.value.id;
      queries := queries - {id};
      effects := effects + [NotificationsDeleted(AssocTypeQuery, id)];
      if stageId == Application.StageEditing || stageId == Application.StageProduction {
        effects := effects + [SubmissionNotificationsUpdated(StageNotificationTypes, submissionId)];
      }
      response := DataChanged(id);
    }
  }
}
