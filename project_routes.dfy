/** The project routes: create, read (with its view count), update, delete,
    accept a bid, mark complete, and the listing's sort-field whitelist. */
module ProjectRoutes {
  import opened Common
  import opened Projects
  import opened Bids
  import opened Database

  /** The body of a create or update request. `None` is a field the request
      leaves out (or sends empty); the flags arrive as the strings of a form. */
  datatype ProjectForm = ProjectForm(
    title: Option<string>,
    description: Option<string>,
    category: Option<Category>,
    budget: Option<int>,
    budgetType: Option<BudgetType>,
    deadline: Option<Time>,
    location: Option<string>,
    isRemote: Option<string>,
    requirements: Option<seq<string>>,
    priority: Option<Priority>,
    isUrgent: Option<string>)

  function OrElse<T>(o: Option<T>, default: T): T {
    if o.Some? then o.value else default
  }

  /** A text field given with `||`: an empty string falls back too. */
  function TextOr(o: Option<string>, default: string): (s: string)
    ensures GivenText(o) ==> s == o.value
    ensures !GivenText(o) ==> s == default
  {
    if GivenText(o) then o.value else default
  }

  /** The row `POST /api/projects` would insert for `owner`, or `None` when a
      column the table requires is missing. */
  function Drafted(owner: UserId, f: ProjectForm, attachments: seq<string>): (p: Option<Project>)
    ensures p.Some? <==> f.title.Some? && f.description.Some? && f.category.Some? && f.budget.Some?
    ensures p.Some? ==>
      && p.value.status == Open && p.value.views == 0
      && p.value.postedBy == owner && p.value.assignedTo == None
      && p.value.title == f.title.value && p.value.description == f.description.value
      && p.value.budget == f.budget.value
      && p.value.budgetType == OrElse(f.budgetType, Fixed)
      && p.value.priority == OrElse(f.priority, Medium)
      && p.value.isRemote == (f.isRemote == Some("true"))
      && p.value.isUrgent == (f.isUrgent == Some("true"))
      && p.value.attachments == attachments
  {
    if f.title.None? || f.description.None? || f.category.None? || f.budget.None? then None
    else
      Some(NewProject(owner, f.title.value, f.description.value, f.category.value,
        f.budget.value, OrElse(f.budgetType, Fixed), f.deadline, f.location,
        f.isRemote == Some("true"), OrElse(f.requirements, []), attachments,
        OrElse(f.priority, Medium), f.isUrgent == Some("true")))
  }

  /** `POST /api/projects`: insert a new open project owned by the caller. */
  method CreateProject(db: Db, caller: UserId, f: ProjectForm, attachments: seq<string>)
    returns (r: Result<ProjectId>)
    requires db.Valid()
    modifies db`projects, db`nextProjectId
    ensures db.Valid()
    ensures r.Err? <==> Drafted(caller, f, attachments).None?
                        || !Drafted(caller, f, attachments).value.ColumnsValid()
    ensures r.Err? ==> r.code == BadRequest && db.projects == old(db.projects)
    ensures r.Err? ==> db.nextProjectId == old(db.nextProjectId)
    ensures r.Ok? ==>
      && r.value == old(db.nextProjectId) && db.nextProjectId == r.value + 1
      && r.value !in old(db.projects)
      && db.projects == old(db.projects)[r.value := Drafted(caller, f, attachments).value]
  {
    var p := Drafted(caller, f, attachments);
    if p.None? || !p.value.ColumnsValid() {
      return Err(BadRequest);
    }
    var id := db.nextProjectId;
    db.projects := db.projects[id := p.value];
    db.nextProjectId := id + 1;
    r := Ok(id);
  }

  datatype SortKey = CreatedAt | Budget | Deadline | Views

  function SortKeyName(k: SortKey): string {
    match k
    case CreatedAt => "created_at"
    case Budget => "budget"
    case Deadline => "deadline"
    case Views => "views"
  }

  /** The listing's `sortBy` whitelist: any other value falls back to `created_at`. */
  function SortField(sortBy: string): (k: SortKey)
    ensures SortKeyName(k) == sortBy || k == CreatedAt
    ensures (exists j :: SortKeyName(j) == sortBy) ==> SortKeyName(k) == sortBy
  {
    if sortBy == "budget" then Budget
    else if sortBy == "deadline" then Deadline
    else if sortBy == "views" then Views
    else CreatedAt
  }

  /** Every whitelisted name selects its own key. */
  lemma SortFieldRoundTrip(k: SortKey)
    ensures SortField(SortKeyName(k)) == k
  {
  }

  /** `GET /api/projects/:id`: every read by someone other than the owner,
      anonymous readers included, counts one view. */
  method ReadProject(db: Db, viewer: Option<UserId>, id: ProjectId) returns (r: Result<Project>)
    requires db.Valid()
    modifies db`projects
    ensures db.Valid()
    ensures id !in old(db.projects) <==> r == Err(NotFound)
    ensures id !in old(db.projects) ==> db.projects == old(db.projects)
    ensures id in old(db.projects) ==>
      var p := old(db.projects[id]);
      var counted := viewer.None? || viewer.value != p.postedBy;
      && db.projects == old(db.projects)[id := p.(views := if counted then p.views + 1 else p.views)]
      && r == Ok(db.projects[id])
  {
    if id !in db.projects {
      return Err(NotFound);
    }
    var p := db.projects[id];
    if viewer.None? || viewer.value != p.postedBy {
      db.IncrementViews(id);
    }
    r := Ok(db.projects[id]);
  }

  /** The row after `project.update(...)`: each field the request gives
      replaces the stored one, the others keep their value. */
  function Patched(p: Project, f: ProjectForm): (q: Project)
    ensures q.title == TextOr(f.title, p.title)
    ensures q.description == TextOr(f.description, p.description)
    ensures q.budget == (if GivenInt(f.budget) then f.budget.value else p.budget)
    ensures q.budgetType == OrElse(f.budgetType, p.budgetType)
    ensures q.deadline == (if f.deadline.Some? then f.deadline else p.deadline)
    ensures q.location == (if GivenText(f.location) then f.location else p.location)
    ensures q.isRemote == (if f.isRemote.Some? then f.isRemote.value == "true" else p.isRemote)
    ensures q.isUrgent == (if f.isUrgent.Some? then f.isUrgent.value == "true" else p.isUrgent)
    ensures q.requirements == OrElse(f.requirements, p.requirements)
    ensures q.priority == OrElse(f.priority, p.priority)
    ensures q.category == p.category && q.attachments == p.attachments
    ensures q.postedBy == p.postedBy && q.assignedTo == p.assignedTo && q.status == p.status
    ensures q.views == p.views && q.acceptedAt == p.acceptedAt && q.completedAt == p.completedAt
  {
    p.(title := TextOr(f.title, p.title),
       description := TextOr(f.description, p.description),
       budget := if GivenInt(f.budget) then f.budget.value else p.budget,
       budgetType := OrElse(f.budgetType, p.budgetType),
       deadline := if f.deadline.Some? then f.deadline else p.deadline,
       location := if GivenText(f.location) then f.location else p.location,
       isRemote := if f.isRemote.Some? then f.isRemote.value == "true" else p.isRemote,
       requirements := OrElse(f.requirements, p.requirements),
       priority := OrElse(f.priority, p.priority),
       isUrgent := if f.isUrgent.Some? then f.isUrgent.value == "true" else p.isUrgent)
  }

  /** An empty request changes nothing. */
  lemma EmptyPatchIsIdentity(p: Project)
    ensures Patched(p, ProjectForm(None, None, None, None, None, None, None, None, None, None, None)) == p
  {
  }

  /** `PUT /api/projects/:id`: only the owner, only while open. */
  method UpdateProject(db: Db, caller: UserId, id: ProjectId, f: ProjectForm) returns (r: Outcome)
    requires db.Valid()
    modifies db`projects
    ensures db.Valid()
    ensures id !in old(db.projects) ==> r == Failed(NotFound)
    ensures id in old(db.projects) ==>
      var p := old(db.projects[id]);
      && (!p.CanEdit(caller) ==> r == Failed(Forbidden))
      && (p.CanEdit(caller) && !Patched(p, f).ColumnsValid() ==> r == Failed(BadRequest))
      && (r == Done <==> p.CanEdit(caller) && Patched(p, f).ColumnsValid())
      && (r == Done ==> db.projects == old(db.projects)[id := Patched(p, f)])
    ensures r.Failed? ==> db.projects == old(db.projects)
  {
    if id !in db.projects {
      return Failed(NotFound);
    }
    var p := db.projects[id];
    if !p.CanEdit(caller) {
      return Failed(Forbidden);
    }
    var q := Patched(p, f);
    if !q.ColumnsValid() {
      return Failed(BadRequest);
    }
    db.projects := db.projects[id := q];
    r := Done;
  }

  /** The bids that survive deleting project `id` (the ON DELETE CASCADE of bids). */
  function WithoutProjectBids(bids: map<BidId, Bid>, id: ProjectId): (r: map<BidId, Bid>)
    ensures forall b :: b in r <==> b in bids && bids[b].projectId != id
    ensures forall b :: b in r ==> r[b] == bids[b]
  {
    map b | b in bids && bids[b].projectId != id :: bids[b]
  }

  /** `DELETE /api/projects/:id`: only the owner, only while open; the
      project's bids go with it. */
  method DeleteProject(db: Db, caller: UserId, id: ProjectId) returns (r: Outcome)
    requires db.Valid()
    modifies db`projects, db`bids
    ensures db.Valid()
    ensures id !in old(db.projects) ==> r == Failed(NotFound)
    ensures id in old(db.projects) ==>
      var p := old(db.projects[id]);
      && (!p.IsOwner(caller) ==> r == Failed(Forbidden))
      && (p.IsOwner(caller) && p.status != Open ==> r == Failed(BadRequest))
      && (r == Done <==> p.IsOwner(caller) && p.status == Open)
    ensures r.Failed? ==> db.projects == old(db.projects) && db.bids == old(db.bids)
    ensures r == Done ==>
      && db.projects == old(db.projects) - {id}
      && db.bids == WithoutProjectBids(old(db.bids), id)
  {
    if id !in db.projects {
      return Failed(NotFound);
    }
    var p := db.projects[id];
    if !p.IsOwner(caller) {
      return Failed(Forbidden);
    }
    if p.status != Open {
      return Failed(BadRequest);
    }
    db.projects := db.projects - {id};
    db.bids := WithoutProjectBids(db.bids, id);
    r := Done;
  }

  /** `Bid.update({status: 'rejected'}, {where: {projectId, id != accepted,
      status: 'pending'}})`: only the other pending bids of the project change. */
  function RejectPendingSiblings(bids: map<BidId, Bid>, project: ProjectId, accepted: BidId, now: Time)
    : (r: map<BidId, Bid>)
    ensures r.Keys == bids.Keys
    ensures forall b :: (b in bids && b != accepted && bids[b].projectId == project
      && bids[b].status == Pending) ==> r[b] == bids[b].(status := Rejected, rejectedAt := Some(now))
    ensures forall b :: (b in bids && (b == accepted || bids[b].projectId != project
      || bids[b].status != Pending)) ==> r[b] == bids[b]
  {
    map b | b in bids :: if b != accepted && bids[b].projectId == project && bids[b].status == Pending
      then bids[b].(status := Rejected, rejectedAt := Some(now)) else bids[b]
  }

  /** The projects table after project `id` is assigned to `freelancer`. */
  function Assigned(projects: map<ProjectId, Project>, id: ProjectId, freelancer: UserId, now: Time)
    : (r: map<ProjectId, Project>)
    requires id in projects
    ensures r.Keys == projects.Keys
    ensures r[id].status == InProgress && r[id].assignedTo == Some(freelancer) && r[id].acceptedAt == Some(now)
    ensures forall q :: q in projects && q != id ==> r[q] == projects[q]
  {
    projects[id := projects[id].(status := InProgress, assignedTo := Some(freelancer), acceptedAt := Some(now))]
  }

  /** The bids table after bid `bidId` of project `id` is accepted: that bid is
      accepted and selected, the project's other pending bids are rejected. */
  function AcceptedBids(bids: map<BidId, Bid>, id: ProjectId, bidId: BidId, now: Time)
    : (r: map<BidId, Bid>)
    requires bidId in bids && bids[bidId].projectId == id
    ensures r.Keys == bids.Keys
    ensures r[bidId] == bids[bidId].(status := Accepted, isSelected := true, acceptedAt := Some(now))
    ensures forall b :: b in r && r[b].projectId == id ==> r[b].status != Pending
  {
    RejectPendingSiblings(bids[bidId := bids[bidId].(status := Accepted, isSelected := true, acceptedAt := Some(now))],
      id, bidId, now)
  }

  /** Accepting a bid changes only the status columns of the bids table. */
  lemma AcceptKeepsBidColumns(bids: map<BidId, Bid>, id: ProjectId, bidId: BidId, now: Time)
    requires bidId in bids && bids[bidId].projectId == id
    ensures var bids' := AcceptedBids(bids, id, bidId, now);
      forall b :: b in bids ==>
        && bids'[b].userId == bids[b].userId && bids'[b].projectId == bids[b].projectId
        && bids'[b].amount == bids[b].amount && bids'[b].message == bids[b].message
  {
    var bids' := AcceptedBids(bids, id, bidId, now);
    var marked := bids[bidId := bids[bidId].(status := Accepted, isSelected := true, acceptedAt := Some(now))];
    forall b | b in bids
      ensures bids'[b].userId == bids[b].userId && bids'[b].projectId == bids[b].projectId
           && bids'[b].amount == bids[b].amount && bids'[b].message == bids[b].message
    {
      assert bids'[b] == marked[b] || bids'[b] == marked[b].(status := Rejected, rejectedAt := Some(now));
    }
  }

  /** After the acceptance every accepted bid, the new one and the earlier
      ones, belongs to a project assigned to its bidder. */
  lemma AcceptKeepsAssignments(projects: map<ProjectId, Project>, bids: map<BidId, Bid>,
                               id: ProjectId, bidId: BidId, now: Time)
    requires id in projects && projects[id].status == Open
    requires bidId in bids && bids[bidId].projectId == id
    requires AcceptedBidsAssigned(projects, bids)
    ensures AcceptedBidsAssigned(Assigned(projects, id, bids[bidId].userId, now), AcceptedBids(bids, id, bidId, now))
  {
    var projects', bids' := Assigned(projects, id, bids[bidId].userId, now), AcceptedBids(bids, id, bidId, now);
    forall b | b in bids' && bids'[b].status == Accepted
      ensures bids'[b].projectId in projects'
      ensures projects'[bids'[b].projectId].status != Open
      ensures projects'[bids'[b].projectId].assignedTo == Some(bids'[b].userId)
    {
      if b != bidId {
        assert bids'[b] == bids[b];
      }
    }
  }

  /** Accepting a bid on an open project keeps every bid- and project-table
      invariant, in particular that an accepted bid's project is assigned to
      its bidder. */
  lemma AcceptPreservesInvariants(projects: map<ProjectId, Project>, bids: map<BidId, Bid>,
                                  id: ProjectId, bidId: BidId, now: Time)
    requires id in projects && projects[id].status == Open
    requires bidId in bids && bids[bidId].projectId == id
    requires ProjectAndBidTablesValid(projects, bids)
    ensures ProjectAndBidTablesValid(Assigned(projects, id, bids[bidId].userId, now), AcceptedBids(bids, id, bidId, now))
  {
    AcceptKeepsBidColumns(bids, id, bidId, now);
    AcceptKeepsAssignments(projects, bids, id, bidId, now);
  }

  /** The checks of `POST /api/projects/:id/accept-bid/:bidId`, in the
      source's order: project found, bid found, caller owns the project,
      project open, bid on this project. */
  function AcceptCheck(projects: map<ProjectId, Project>, bids: map<BidId, Bid>, caller: UserId,
                       id: ProjectId, bidId: BidId): (r: Outcome)
    ensures id !in projects ==> r == Failed(NotFound)
    ensures id in projects && bidId !in bids ==> r == Failed(NotFound)
    ensures id in projects && bidId in bids ==>
      && (!projects[id].IsOwner(caller) ==> r == Failed(Forbidden))
      && (projects[id].IsOwner(caller) && projects[id].status != Open ==> r == Failed(BadRequest))
      && (projects[id].IsOwner(caller) && projects[id].status == Open && bids[bidId].projectId != id
          ==> r == Failed(BadRequest))
    ensures r == Done <==> (id in projects && bidId in bids && projects[id].IsOwner(caller)
                            && projects[id].status == Open && bids[bidId].projectId == id)
  {
    if id !in projects then Failed(NotFound)
    else if bidId !in bids then Failed(NotFound)
    else if !projects[id].IsOwner(caller) then Failed(Forbidden)
    else if projects[id].status != Open then Failed(BadRequest)
    else if bids[bidId].projectId != id then Failed(BadRequest)
    else Done
  }

  /** `POST /api/projects/:id/accept-bid/:bidId`: on success the project is
      assigned to the bidder, the bid is accepted, and the project's other
      pending bids are rejected. */
  method AcceptBid(db: Db, caller: UserId, id: ProjectId, bidId: BidId, now: Time) returns (r: Outcome)
    requires db.Valid()
    modifies db`projects, db`bids
    ensures db.Valid()
    ensures r == AcceptCheck(old(db.projects), old(db.bids), caller, id, bidId)
    ensures r.Failed? ==> db.projects == old(db.projects) && db.bids == old(db.bids)
    ensures r == Done ==>
      && id in old(db.projects) && bidId in old(db.bids)
      && db.projects == Assigned(old(db.projects), id, old(db.bids[bidId]).userId, now)
      && db.bids == AcceptedBids(old(db.bids), id, bidId, now)
    ensures r == Done ==> forall b :: b in db.bids && db.bids[b].projectId == id ==> db.bids[b].status != Pending
  {
    r := AcceptCheck(db.projects, db.bids, caller, id, bidId);
    if r.Failed? {
      return;
    }
    AcceptPreservesInvariants(db.projects, db.bids, id, bidId, now);
    db.projects := Assigned(db.projects, id, db.bids[bidId].userId, now);
    db.bids := AcceptedBids(db.bids, id, bidId, now);
    assert db.users == old(db.users) && db.ratings == old(db.ratings) && db.messages == old(db.messages);
  }

  /** `POST /api/projects/:id/complete`: only the owner, only from in-progress. */
  method CompleteProject(db: Db, caller: UserId, id: ProjectId, now: Time) returns (r: Outcome)
    requires db.Valid()
    modifies db`projects
    ensures db.Valid()
    ensures id !in old(db.projects) ==> r == Failed(NotFound)
    ensures id in old(db.projects) ==>
      var p := old(db.projects[id]);
      && (!p.IsOwner(caller) ==> r == Failed(Forbidden))
      && (p.IsOwner(caller) && p.status != InProgress ==> r == Failed(BadRequest))
      && (r == Done <==> p.IsOwner(caller) && p.status == InProgress)
      && (r == Done ==> db.projects == old(db.projects)[id := p.(status := Completed, completedAt := Some(now))])
    ensures r.Failed? ==> db.projects == old(db.projects)
  {
    if id !in db.projects {
      return Failed(NotFound);
    }
    var p := db.projects[id];
    if !p.IsOwner(caller) {
      return Failed(Forbidden);
    }
    if p.status != InProgress {
      return Failed(BadRequest);
    }
    db.projects := db.projects[id := p.(status := Completed, completedAt := Some(now))];
    r := Done;
  }
}
