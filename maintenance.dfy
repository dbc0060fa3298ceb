/** The maintenance request page (src/components/maintenance/MaintenancePage.tsx):
    the filter chain that decides which requests are listed, the status
    counts, who may edit a request, and the create, update and delete
    operations on the request collection. */
module Maintenance {
  import opened Basics
  import opened Text
  import opened Types
  import opened MaintenanceForm

  /** The page's filter controls; `all` is the unrestricted choice of each select. */
  datatype RequestFilters = RequestFilters(searchTerm: string, statusFilter: string, priorityFilter: string)

  const NoFilters := RequestFilters("", "all", "all")

  function ViewerId(viewer: Option<User>): string {
    if viewer.Some? then viewer.value.id else ""
  }

  /** `request.userId === user.id` */
  function OwnedBy(userId: string): MaintenanceRequest -> bool {
    (r: MaintenanceRequest) => r.userId == userId
  }

  /** The lowercased term occurs in the lowercased title, description or id. */
  predicate SearchHit(term: string, r: MaintenanceRequest) {
    var t := Lower(term);
    Contains(Lower(r.title), t) || Contains(Lower(r.description), t) || Contains(Lower(r.id), t)
  }

  function MatchesSearch(term: string): MaintenanceRequest -> bool {
    (r: MaintenanceRequest) => SearchHit(term, r)
  }

  /** `request.status === statusFilter` */
  function HasStatus(name: string): MaintenanceRequest -> bool {
    (r: MaintenanceRequest) => r.status.Name() == name
  }

  /** `request.priority === priorityFilter` */
  function HasPriority(name: string): MaintenanceRequest -> bool {
    (r: MaintenanceRequest) => r.priority.Name() == name
  }

  /** The filter effect: role scoping, then search, then status, then priority,
      each stage applied only when its control is set. */
  function FilterRequests(requests: seq<MaintenanceRequest>, viewer: Option<User>, f: RequestFilters): seq<MaintenanceRequest> {
    var byRole := FilterIf(HasRole(viewer, UserRole), OwnedBy(ViewerId(viewer)), requests);
    var bySearch := FilterIf(f.searchTerm != "", MatchesSearch(f.searchTerm), byRole);
    var byStatus := FilterIf(f.statusFilter != "all", HasStatus(f.statusFilter), bySearch);
    FilterIf(f.priorityFilter != "all", HasPriority(f.priorityFilter), byStatus)
  }

  /** The four stages as one test. */
  function Admitted(viewer: Option<User>, f: RequestFilters): MaintenanceRequest -> bool {
    Both(Both(Both(
      Stage(HasRole(viewer, UserRole), OwnedBy(ViewerId(viewer))),
      Stage(f.searchTerm != "", MatchesSearch(f.searchTerm))),
      Stage(f.statusFilter != "all", HasStatus(f.statusFilter))),
      Stage(f.priorityFilter != "all", HasPriority(f.priorityFilter)))
  }

  /** What a listed request satisfies, stated field by field. */
  predicate Admits(viewer: Option<User>, f: RequestFilters, r: MaintenanceRequest) {
    && (HasRole(viewer, UserRole) ==> r.userId == viewer.value.id)
    && (f.searchTerm != "" ==> SearchHit(f.searchTerm, r))
    && (f.statusFilter != "all" ==> r.status.Name() == f.statusFilter)
    && (f.priorityFilter != "all" ==> r.priority.Name() == f.priorityFilter)
  }

  /** The chain of four filters is a single filter by the conjunction of its stages. */
  lemma FilterRequestsIsFilter(requests: seq<MaintenanceRequest>, viewer: Option<User>, f: RequestFilters)
    ensures FilterRequests(requests, viewer, f) == Filter(Admitted(viewer, f), requests)
  {
    var t1 := Stage(HasRole(viewer, UserRole), OwnedBy(ViewerId(viewer)));
    var t2 := Stage(f.searchTerm != "", MatchesSearch(f.searchTerm));
    var t3 := Stage(f.statusFilter != "all", HasStatus(f.statusFilter));
    var t4 := Stage(f.priorityFilter != "all", HasPriority(f.priorityFilter));
    FilterIfIsFilter(HasRole(viewer, UserRole), OwnedBy(ViewerId(viewer)), requests);
    var s1 := Filter(t1, requests);
    FilterIfIsFilter(f.searchTerm != "", MatchesSearch(f.searchTerm), s1);
    FilterThen(t1, t2, requests);
    var s2 := Filter(Both(t1, t2), requests);
    FilterIfIsFilter(f.statusFilter != "all", HasStatus(f.statusFilter), s2);
    FilterThen(Both(t1, t2), t3, requests);
    var s3 := Filter(Both(Both(t1, t2), t3), requests);
    FilterIfIsFilter(f.priorityFilter != "all", HasPriority(f.priorityFilter), s3);
    FilterThen(Both(Both(t1, t2), t3), t4, requests);
  }

  /** A request is listed exactly when it is in the collection and passes every
      active control: a `user` sees only their own requests, a non-empty search
      must hit the title, description or id, and a status or priority other
      than `all` must match exactly. */
  lemma ListedIff(requests: seq<MaintenanceRequest>, viewer: Option<User>, f: RequestFilters, r: MaintenanceRequest)
    ensures r in FilterRequests(requests, viewer, f) <==> r in requests && Admits(viewer, f, r)
  {
    FilterRequestsIsFilter(requests, viewer, f);
    AdmittedMeans(viewer, f, r);
    if r in requests && Admits(viewer, f, r) {
      var i :| 0 <= i < |requests| && requests[i] == r;
    }
  }

  lemma AdmittedMeans(viewer: Option<User>, f: RequestFilters, r: MaintenanceRequest)
    ensures Admitted(viewer, f)(r) == Admits(viewer, f, r)
  {
  }

  /** The listed requests keep their order in the collection, and filtering the
      list again with the same controls changes nothing. */
  lemma ListedIsStableSubsequence(requests: seq<MaintenanceRequest>, viewer: Option<User>, f: RequestFilters)
    ensures IsSubsequence(FilterRequests(requests, viewer, f), requests)
    ensures FilterRequests(FilterRequests(requests, viewer, f), viewer, f) == FilterRequests(requests, viewer, f)
  {
    FilterRequestsIsFilter(requests, viewer, f);
    FilterIsSubsequence(Admitted(viewer, f), requests);
    FilterRequestsIsFilter(FilterRequests(requests, viewer, f), viewer, f);
    FilterIdempotent(Admitted(viewer, f), requests);
  }

  /** An admin's list is the one no role scoping gives; with no control set it
      is the whole collection. */
  lemma AdminSeesEverything(requests: seq<MaintenanceRequest>, viewer: Option<User>, f: RequestFilters)
    requires HasRole(viewer, AdminRole)
    ensures FilterRequests(requests, viewer, f) == FilterRequests(requests, None, f)
    ensures FilterRequests(requests, viewer, NoFilters) == requests
  {
  }

  /** The edit and delete controls: shown to an admin and to the request's owner. */
  predicate CanEdit(viewer: Option<User>, r: MaintenanceRequest) {
    HasRole(viewer, AdminRole) || (viewer.Some? && r.userId == viewer.value.id)
  }

  /** Anyone signed in may edit every request listed to them; a `user` sees
      only requests they own. */
  lemma ListedAreEditable(requests: seq<MaintenanceRequest>, viewer: Option<User>, f: RequestFilters)
    requires viewer.Some?
    ensures forall i :: 0 <= i < |FilterRequests(requests, viewer, f)| ==> CanEdit(viewer, FilterRequests(requests, viewer, f)[i])
    ensures HasRole(viewer, UserRole) ==>
              forall i :: 0 <= i < |FilterRequests(requests, viewer, f)| ==> FilterRequests(requests, viewer, f)[i].userId == viewer.value.id
  {
    var listed := FilterRequests(requests, viewer, f);
    forall i | 0 <= i < |listed|
      ensures CanEdit(viewer, listed[i])
      ensures HasRole(viewer, UserRole) ==> listed[i].userId == viewer.value.id
    {
      ListedIff(requests, viewer, f, listed[i]);
    }
  }

  /** `requests.filter(r => r.status === name).length` */
  function StatusCount(requests: seq<MaintenanceRequest>, name: string): nat {
    |Filter(HasStatus(name), requests)|
  }

  function PendingCount(requests: seq<MaintenanceRequest>): nat { StatusCount(requests, "pending") }
  function InProgressCount(requests: seq<MaintenanceRequest>): nat { StatusCount(requests, "in_progress") }
  function CompletedCount(requests: seq<MaintenanceRequest>): nat { StatusCount(requests, "completed") }

  /** Every request has exactly one of the five statuses, so their counts add up to the total. */
  lemma {:induction false} StatusCountsPartition(requests: seq<MaintenanceRequest>)
    ensures StatusCount(requests, "pending") + StatusCount(requests, "approved") + StatusCount(requests, "in_progress")
            + StatusCount(requests, "completed") + StatusCount(requests, "rejected") == |requests|
  {
    if requests != [] {
      StatusCountsPartition(requests[1..]);
      StatusNames(requests[0].status);
      StatusCountStep(requests, "pending");
      StatusCountStep(requests, "approved");
      StatusCountStep(requests, "in_progress");
      StatusCountStep(requests, "completed");
      StatusCountStep(requests, "rejected");
    }
  }

  /** The five status names are told apart. */
  lemma StatusNames(status: RequestStatus)
    ensures status.Name() == "pending" <==> status == Pending
    ensures status.Name() == "approved" <==> status == Approved
    ensures status.Name() == "in_progress" <==> status == InProgress
    ensures status.Name() == "completed" <==> status == Completed
    ensures status.Name() == "rejected" <==> status == Rejected
  {
  }

  /** Counting over a non-empty collection: the first request, then the rest. */
  lemma StatusCountStep(requests: seq<MaintenanceRequest>, name: string)
    requires requests != []
    ensures StatusCount(requests, name) == StatusCount(requests[1..], name) + if requests[0].status.Name() == name then 1 else 0
  {
  }

  /** The three cards on the page never show more than the total between them. */
  lemma ShownCountsWithinTotal(requests: seq<MaintenanceRequest>)
    ensures PendingCount(requests) + InProgressCount(requests) + CompletedCount(requests) <= |requests|
  {
    StatusCountsPartition(requests);
  }

  /** The counts are taken over the whole collection: the list on screen never
      holds more requests of a status than the collection does. */
  lemma ListedCountWithinCount(requests: seq<MaintenanceRequest>, viewer: Option<User>, f: RequestFilters, name: string)
    ensures StatusCount(FilterRequests(requests, viewer, f), name) <= StatusCount(requests, name)
  {
    FilterRequestsIsFilter(requests, viewer, f);
    FilterThen(Admitted(viewer, f), HasStatus(name), requests);
    FilterLengthMonotone(Both(Admitted(viewer, f), HasStatus(name)), HasStatus(name), requests);
  }

  /** `MR${String(count + 1).padStart(3, '0')}` */
  function NewRequestId(count: nat): string {
    "MR" + PadStart(NatToString(count + 1), 3, '0')
  }

  /** The id is "MR" followed by decimal digits that denote `count + 1`, and it
      is five characters long while fewer than 999 requests exist. */
  lemma NewRequestIdShape(count: nat)
    ensures |NewRequestId(count)| >= 5 && NewRequestId(count)[..2] == "MR"
    ensures forall i :: 2 <= i < |NewRequestId(count)| ==> IsDigit(NewRequestId(count)[i])
    ensures DigitsValue(NewRequestId(count)[2..]) == count + 1
    ensures count < 999 ==> |NewRequestId(count)| == 5
  {
    var digits := NatToString(count + 1);
    var padded := PadStart(digits, 3, '0');
    assert NewRequestId(count)[2..] == padded;
    NatToStringRoundTrip(count + 1);
    if |digits| < 3 {
      assert padded == Repeat('0', 3 - |digits|) + digits;
      LeadingZerosValue(3 - |digits|, digits);
    }
    if count < 999 {
      NatToStringShort(count + 1);
    }
  }

  /** Different collection sizes give different ids. */
  lemma NewRequestIdInjective(m: nat, n: nat)
    requires NewRequestId(m) == NewRequestId(n)
    ensures m == n
  {
    NewRequestIdShape(m);
    NewRequestIdShape(n);
  }

  /** `{ ...r, ...requestData, updatedAt }`: the form's fields over the request.
      The form has no id, owner or status, so those are kept. */
  function MergeForm(r: MaintenanceRequest, form: RequestForm, now: string): MaintenanceRequest {
    r.(title := form.title,
       description := form.description,
       category := form.category,
       priority := form.priority,
       estimatedCost := Some(form.estimatedCost),
       scheduledDate := Some(form.scheduledDate),
       assignedTo := Some(form.assignedTo),
       adminNotes := Some(form.adminNotes),
       updatedAt := now)
  }

  /** Saving a form prefilled from a request, untouched, gives the request back
      with a new `updatedAt` when all its optional fields were set; a missing
      one comes back set to its default. */
  lemma SaveUnchangedForm(r: MaintenanceRequest, now: string)
    ensures r.estimatedCost.Some? && r.scheduledDate.Some? && r.assignedTo.Some? && r.adminNotes.Some? ==>
              MergeForm(r, PrefilledFrom(r), now) == r.(updatedAt := now)
    ensures r.assignedTo.None? ==> MergeForm(r, PrefilledFrom(r), now).assignedTo == Some("")
    ensures r.estimatedCost.None? ==> MergeForm(r, PrefilledFrom(r), now).estimatedCost == Some(0)
    ensures r.scheduledDate.None? ==> MergeForm(r, PrefilledFrom(r), now).scheduledDate == Some("")
    ensures r.adminNotes.None? ==> MergeForm(r, PrefilledFrom(r), now).adminNotes == Some("")
  {
  }

  /** `prev.map(r => r.id === editingId ? merged : r)` */
  function UpdatedRequests(requests: seq<MaintenanceRequest>, editingId: string, form: RequestForm, now: string): (r: seq<MaintenanceRequest>)
    ensures |r| == |requests|
    ensures forall i :: 0 <= i < |requests| && requests[i].id != editingId ==> r[i] == requests[i]
    ensures forall i :: 0 <= i < |requests| && requests[i].id == editingId ==> r[i] == MergeForm(requests[i], form, now)
  {
    if requests == [] then []
    else [if requests[0].id == editingId then MergeForm(requests[0], form, now) else requests[0]]
         + UpdatedRequests(requests[1..], editingId, form, now)
  }

  /** An update changes only the requests with the edited id; their id, owner,
      status and creation time stay, and the form's fields are taken over.
      Editing an id no request has changes nothing. */
  lemma UpdateKeepsIdentity(requests: seq<MaintenanceRequest>, editingId: string, form: RequestForm, now: string)
    ensures forall i :: 0 <= i < |requests| ==>
              var u := UpdatedRequests(requests, editingId, form, now)[i];
              u.id == requests[i].id && u.userId == requests[i].userId && u.user == requests[i].user
              && u.status == requests[i].status && u.createdAt == requests[i].createdAt
    ensures forall i :: 0 <= i < |requests| && requests[i].id == editingId ==>
              var u := UpdatedRequests(requests, editingId, form, now)[i];
              u.title == form.title && u.description == form.description
              && u.category == form.category && u.priority == form.priority
              && u.estimatedCost == Some(form.estimatedCost) && u.scheduledDate == Some(form.scheduledDate)
              && u.assignedTo == Some(form.assignedTo) && u.adminNotes == Some(form.adminNotes)
              && u.updatedAt == now
    ensures (forall i :: 0 <= i < |requests| ==> requests[i].id != editingId) ==>
              UpdatedRequests(requests, editingId, form, now) == requests
  {
  }

  /** The request `handleSaveRequest` creates: owned by the signed-in user,
      always `pending`, whatever the form holds, carrying every form field
      (merging the form into it again changes nothing), created and updated now. */
  function NewRequest(id: string, user: User, form: RequestForm, now: string): (r: MaintenanceRequest)
    ensures r.id == id && r.userId == user.id && r.user == user && r.status == Pending
    ensures r.title == form.title && r.description == form.description
    ensures r.category == form.category && r.priority == form.priority
    ensures MergeForm(r, form, now) == r && r.createdAt == now && r.updatedAt == now
  {
    MaintenanceRequest(
      id, user.id, user, form.title, form.description, form.category, form.priority, Pending,
      Some(form.assignedTo), Some(form.estimatedCost), None, Some(form.scheduledDate), None, None,
      Some(form.adminNotes), now, now)
  }

  /** `r.id !== requestId` */
  function OtherRequest(requestId: string): MaintenanceRequest -> bool {
    (r: MaintenanceRequest) => r.id != requestId
  }

  /** `prev.filter(r => r.id !== requestId)` */
  function WithoutRequest(requests: seq<MaintenanceRequest>, requestId: string): seq<MaintenanceRequest> {
    Filter(OtherRequest(requestId), requests)
  }

  /** Deleting keeps exactly the requests with another id, in order; deleting an
      absent id changes nothing. */
  lemma DeleteSpec(requests: seq<MaintenanceRequest>, requestId: string)
    ensures IsSubsequence(WithoutRequest(requests, requestId), requests)
    ensures forall i :: 0 <= i < |WithoutRequest(requests, requestId)| ==> WithoutRequest(requests, requestId)[i].id != requestId
    ensures forall i :: 0 <= i < |requests| && requests[i].id != requestId ==> requests[i] in WithoutRequest(requests, requestId)
    ensures (forall i :: 0 <= i < |requests| ==> requests[i].id != requestId) ==> WithoutRequest(requests, requestId) == requests
    ensures forall x: MaintenanceRequest :: x.id != requestId ==> multiset(WithoutRequest(requests, requestId))[x] == multiset(requests)[x]
  {
    FilterMultiset(OtherRequest(requestId), requests);
    FilterIsSubsequence(OtherRequest(requestId), requests);
    if forall i :: 0 <= i < |requests| ==> requests[i].id != requestId {
      FilterKeepsAll(OtherRequest(requestId), requests);
    }
  }

  /** The id of a new request depends only on how many requests exist. When
      the first of the requests is deleted and then one is created, the new
      request gets the id the last one already has. */
  lemma NewIdRepeatsAfterDelete(requests: seq<MaintenanceRequest>)
    requires |requests| >= 2 && requests[|requests| - 1].id == NewRequestId(|requests| - 1)
    requires forall i :: 1 <= i < |requests| ==> requests[i].id != requests[0].id
    ensures var rest := WithoutRequest(requests, requests[0].id);
            requests[|requests| - 1] in rest && NewRequestId(|rest|) == requests[|requests| - 1].id
  {
    var tail := requests[1..];
    FilterKeepsAll(OtherRequest(requests[0].id), tail);
    assert WithoutRequest(requests, requests[0].id) == tail;
    assert requests[|requests| - 1] == tail[|tail| - 1];
  }

  /** The ids in use. */
  function RequestIds(requests: seq<MaintenanceRequest>): set<string> {
    set i | 0 <= i < |requests| :: requests[i].id
  }

  /** No two requests share an id. */
  predicate IdsDistinct(requests: seq<MaintenanceRequest>) {
    forall i, j :: 0 <= i < j < |requests| ==> requests[i].id != requests[j].id
  }

  /** The first number from `k` on whose id is not in use. Each number tried
      and found taken removes one id from the ones still to avoid, so the
      search ends. */
  function FreeNumber(used: set<string>, k: nat): (j: nat)
    ensures k <= j && NewRequestId(j) !in used
    ensures NewRequestId(k) !in used ==> j == k
    decreases |used|
  {
    if NewRequestId(k) !in used then k
    else
      var j := FreeNumber(used - {NewRequestId(k)}, k + 1);
      assert NewRequestId(j) != NewRequestId(k) by {
        if NewRequestId(j) == NewRequestId(k) {
          NewRequestIdInjective(j, k);
        }
      }
      j
  }

  /** The id a new request evidently should get: the count-based id when no
      request has it yet, otherwise the id of the next free number. */
  function FreshRequestId(requests: seq<MaintenanceRequest>): (id: string)
    ensures id !in RequestIds(requests)
    ensures NewRequestId(|requests|) !in RequestIds(requests) ==> id == NewRequestId(|requests|)
  {
    NewRequestId(FreeNumber(RequestIds(requests), |requests|))
  }

  /** With the corrected numbering, creating a request keeps all ids distinct,
      deletions or not. */
  lemma FreshIdKeepsIdsDistinct(requests: seq<MaintenanceRequest>, user: User, form: RequestForm, now: string)
    requires IdsDistinct(requests)
    ensures IdsDistinct(requests + [NewRequest(FreshRequestId(requests), user, form, now)])
  {
    var id := FreshRequestId(requests);
    var grown := requests + [NewRequest(id, user, form, now)];
    forall i, j | 0 <= i < j < |grown|
      ensures grown[i].id != grown[j].id
    {
      if j == |requests| {
        assert requests[i].id in RequestIds(requests);
      }
    }
  }

  /** As written, the same sequence of a deletion and a creation breaks
      distinctness: the request created after deleting the first of two or
      more shares its id with the last one. */
  lemma CountIdBreaksDistinct(requests: seq<MaintenanceRequest>, user: User, form: RequestForm, now: string)
    requires |requests| >= 2 && requests[|requests| - 1].id == NewRequestId(|requests| - 1)
    requires forall i :: 1 <= i < |requests| ==> requests[i].id != requests[0].id
    ensures var rest := WithoutRequest(requests, requests[0].id);
            !IdsDistinct(rest + [NewRequest(NewRequestId(|rest|), user, form, now)])
  {
    NewIdRepeatsAfterDelete(requests);
    var rest := WithoutRequest(requests, requests[0].id);
    var grown := rest + [NewRequest(NewRequestId(|rest|), user, form, now)];
    var k :| 0 <= k < |rest| && rest[k] == requests[|requests| - 1];
    assert grown[k].id == grown[|rest|].id;
  }

  /** Every request is owned by the user it records. */
  predicate OwnersConsistent(requests: seq<MaintenanceRequest>) {
    forall i :: 0 <= i < |requests| ==> requests[i].userId == requests[i].user.id
  }

  /** Creating and updating keep every request's owner consistent. */
  lemma SaveKeepsOwners(requests: seq<MaintenanceRequest>, id: string, user: User, form: RequestForm, now: string)
    requires OwnersConsistent(requests)
    ensures OwnersConsistent(requests + [NewRequest(id, user, form, now)])
    ensures OwnersConsistent(UpdatedRequests(requests, id, form, now))
  {
  }

  /** So does deleting. */
  lemma DeleteKeepsOwners(requests: seq<MaintenanceRequest>, id: string)
    requires OwnersConsistent(requests)
    ensures OwnersConsistent(WithoutRequest(requests, id))
  {
    var kept := WithoutRequest(requests, id);
    forall i | 0 <= i < |kept|
      ensures kept[i].userId == kept[i].user.id
    {
      var j :| 0 <= j < |requests| && requests[j] == kept[i];
    }
  }

  /** The page's request collection and its loading flag. */
  class MaintenanceCatalog {
    var requests: seq<MaintenanceRequest>
    var isLoading: bool

    constructor ()
      ensures requests == [] && isLoading
    {
      requests := [];
      isLoading := true;
    }

    /** The mount effect's deferred update; the sample requests are a parameter. */
    method Load(initial: seq<MaintenanceRequest>)
      modifies this
      ensures requests == initial && !isLoading
    {
      requests := initial;
      isLoading := false;
    }

    /** `handleSaveRequest`. Creating with nobody signed in fails at `user!`, so
        nothing changes and the form stays open (`formClosed` is false). */
    method SaveRequest(editing: Option<MaintenanceRequest>, data: RequestForm, viewer: Option<User>, now: string)
      returns (formClosed: bool)
      modifies this
      ensures editing.Some? ==> formClosed && requests == UpdatedRequests(old(requests), editing.value.id, data, now)
      ensures editing.None? && viewer.Some? ==>
                formClosed && requests == old(requests) + [NewRequest(NewRequestId(|old(requests)|), viewer.value, data, now)]
      ensures editing.None? && viewer.None? ==> !formClosed && requests == old(requests)
      ensures OwnersConsistent(old(requests)) ==> OwnersConsistent(requests)
      ensures isLoading == old(isLoading)
    {
      if editing.Some? {
        if OwnersConsistent(requests) {
          SaveKeepsOwners(requests, editing.value.id, editing.value.user, data, now);
        }
        requests := UpdatedRequests(requests, editing.value.id, data, now);
      } else {
        if viewer.None? {
          return false;
        }
        var newRequest := NewRequest(NewRequestId(|requests|), viewer.value, data, now);
        if OwnersConsistent(requests) {
          SaveKeepsOwners(requests, newRequest.id, viewer.value, data, now);
        }
        requests := requests + [newRequest];
      }
      return true;
    }

    /** `handleDeleteRequest`, with the answer to the confirmation dialog as input. */
    method DeleteRequest(requestId: string, confirmed: bool)
      modifies this
      ensures requests == if confirmed then WithoutRequest(old(requests), requestId) else old(requests)
      ensures OwnersConsistent(old(requests)) ==> OwnersConsistent(requests)
      ensures isLoading == old(isLoading)
    {
      if confirmed {
        if OwnersConsistent(requests) {
          DeleteKeepsOwners(requests, requestId);
        }
        requests := WithoutRequest(requests, requestId);
      }
    }
  }
}
