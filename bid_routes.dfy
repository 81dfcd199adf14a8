/** The bid routes: place a bid, list a project's bids, read one bid, edit and
    withdraw. */
module BidRoutes {
  import opened Common
  import opened Projects
  import opened Bids
  import opened Database

  /** `POST /api/bids`. The checks run in the source's order: required
      fields, project found, project open, not the owner's own project, no
      earlier bid, then the column validators. */
  method CreateBid(db: Db, caller: UserId, projectId: Option<int>, amount: Option<int>,
                   message: Option<string>, deliveryTime: Option<int>, portfolio: seq<string>)
    returns (r: Result<BidId>)
    requires db.Valid()
    modifies db`bids, db`nextBidId
    ensures db.Valid()
    ensures !(GivenInt(projectId) && GivenInt(amount) && GivenText(message) && GivenInt(deliveryTime))
      ==> r == Err(BadRequest)
    ensures GivenInt(projectId) && GivenInt(amount) && GivenText(message) && GivenInt(deliveryTime) ==>
      var pid := projectId.value;
      var b := NewBid(caller, pid, amount.value, message.value, deliveryTime.value, portfolio);
      && (pid !in db.projects ==> r == Err(NotFound))
      && (pid in db.projects ==>
          && (db.projects[pid].status != Open ==> r == Err(BadRequest))
          && (db.projects[pid].status == Open && db.projects[pid].IsOwner(caller) ==> r == Err(BadRequest))
          && ((db.projects[pid].status == Open && !db.projects[pid].IsOwner(caller)
               && HasBid(old(db.bids), caller, pid)) ==> r == Err(BadRequest))
          && ((db.projects[pid].status == Open && !db.projects[pid].IsOwner(caller)
               && !HasBid(old(db.bids), caller, pid) && !b.ColumnsValid()) ==> r == Err(BadRequest))
          && (r.Ok? <==> (db.projects[pid].status == Open && !db.projects[pid].IsOwner(caller)
                          && !HasBid(old(db.bids), caller, pid) && b.ColumnsValid())))
      && (r.Ok? ==> r.value !in old(db.bids) && db.bids == old(db.bids)[r.value := b])
    ensures r.Ok? ==> r.value == old(db.nextBidId) && db.nextBidId == r.value + 1
    ensures r.Err? ==> db.nextBidId == old(db.nextBidId)
    ensures r.Err? ==> db.bids == old(db.bids)
  {
    if !(GivenInt(projectId) && GivenInt(amount) && GivenText(message) && GivenInt(deliveryTime)) {
      return Err(BadRequest);
    }
    var pid := projectId.value;
    if pid !in db.projects {
      return Err(NotFound);
    }
    var p := db.projects[pid];
    if p.status != Open {
      return Err(BadRequest);
    }
    if p.IsOwner(caller) {
      return Err(BadRequest);
    }
    if HasBid(db.bids, caller, pid) {
      return Err(BadRequest);
    }
    var b := NewBid(caller, pid, amount.value, message.value, deliveryTime.value, portfolio);
    if !b.ColumnsValid() {
      return Err(BadRequest);
    }
    var id := db.nextBidId;
    db.bids := db.bids[id := b];
    db.nextBidId := id + 1;
    r := Ok(id);
  }

  /** `GET /api/bids/project/:projectId`: the ids of the bids the caller may
      see. The owner sees every bid on the project, a bidder only their own,
      anyone else is refused. */
  function BidsVisibleTo(projects: map<ProjectId, Project>, bids: map<BidId, Bid>,
                         caller: UserId, pid: ProjectId): (r: Result<set<BidId>>)
    ensures pid !in projects <==> r == Err(NotFound)
    ensures r == Err(Forbidden) <==> pid in projects && !projects[pid].IsOwner(caller) && !HasBid(bids, caller, pid)
    ensures r.Err? ==> r.code == NotFound || r.code == Forbidden
    ensures r.Ok? ==> forall b :: b in r.value <==>
      b in bids && bids[b].projectId == pid && (projects[pid].IsOwner(caller) || bids[b].userId == caller)
  {
    if pid !in projects then Err(NotFound)
    else if projects[pid].IsOwner(caller) then
      Ok(set b | b in bids && bids[b].projectId == pid)
    else if !HasBid(bids, caller, pid) then Err(Forbidden)
    else Ok(set b | b in bids && bids[b].projectId == pid && bids[b].userId == caller)
  }

  /** Because a user has one bid per project, a bidder who is not the owner
      sees exactly one bid: their own. */
  lemma BidderSeesOnlyOwnBid(projects: map<ProjectId, Project>, bids: map<BidId, Bid>,
                             caller: UserId, pid: ProjectId, mine: BidId)
    requires OneBidPerUserAndProject(bids)
    requires pid in projects && !projects[pid].IsOwner(caller)
    requires mine in bids && bids[mine].userId == caller && bids[mine].projectId == pid
    ensures BidsVisibleTo(projects, bids, caller, pid) == Ok({mine})
  {
    var r := BidsVisibleTo(projects, bids, caller, pid);
    assert HasBid(bids, caller, pid);
    assert r.Ok?;
    forall b ensures b in r.value <==> b == mine {
      if b in r.value {
        assert bids[b].userId == bids[mine].userId && bids[b].projectId == bids[mine].projectId;
      }
    }
    assert r.value == {mine};
  }

  /** `GET /api/bids/:id`: the bidder and the project's owner may read a bid.
      A bid whose project row is missing fails with 500, as following the
      missing association would. */
  function ViewBid(projects: map<ProjectId, Project>, bids: map<BidId, Bid>, caller: UserId, id: BidId)
    : (r: Result<Bid>)
    ensures id !in bids <==> r == Err(NotFound)
    ensures r.Ok? <==> (id in bids && bids[id].projectId in projects
                        && (bids[id].userId == caller || projects[bids[id].projectId].IsOwner(caller)))
    ensures r.Ok? ==> r.value == bids[id]
    ensures r == Err(ServerError) ==> id in bids && bids[id].projectId !in projects
  {
    if id !in bids then Err(NotFound)
    else if bids[id].projectId !in projects then Err(ServerError)
    else if bids[id].userId == caller || projects[bids[id].projectId].IsOwner(caller) then Ok(bids[id])
    else Err(Forbidden)
  }

  /** With the bids' foreign key in place, reading a stored bid never fails
      with 500, and whoever may read it is its bidder or the project's owner. */
  lemma ViewBidAnswers(projects: map<ProjectId, Project>, bids: map<BidId, Bid>, caller: UserId, id: BidId)
    requires BidsReferToProjects(projects, bids)
    ensures ViewBid(projects, bids, caller, id) != Err(ServerError)
    ensures ViewBid(projects, bids, caller, id).Ok? ==>
      bids[id].userId == caller || projects[bids[id].projectId].postedBy == caller
  {
  }

  /** The row after `bid.update(...)` with the given request fields. */
  function Revised(b: Bid, amount: Option<int>, message: Option<string>, deliveryTime: Option<int>): (c: Bid)
    ensures c.amount == (if GivenInt(amount) then amount.value else b.amount)
    ensures c.message == (if GivenText(message) then message.value else b.message)
    ensures c.deliveryTime == (if GivenInt(deliveryTime) then deliveryTime.value else b.deliveryTime)
    ensures c.(amount := b.amount, message := b.message, deliveryTime := b.deliveryTime) == b
  {
    b.(amount := if GivenInt(amount) then amount.value else b.amount,
       message := if GivenText(message) then message.value else b.message,
       deliveryTime := if GivenInt(deliveryTime) then deliveryTime.value else b.deliveryTime)
  }

  /** `PUT /api/bids/:id`: the bidder edits a pending bid while the project is open. */
  method EditBid(db: Db, caller: UserId, id: BidId, amount: Option<int>, message: Option<string>,
                 deliveryTime: Option<int>) returns (r: Outcome)
    requires db.Valid()
    modifies db`bids
    ensures db.Valid()
    ensures id !in old(db.bids) ==> r == Failed(NotFound)
    ensures id in old(db.bids) ==>
      var b := old(db.bids[id]);
      var c := Revised(b, amount, message, deliveryTime);
      && (!b.CanEdit(caller) ==> r == Failed(Forbidden))
      && (b.CanEdit(caller) && db.projects[b.projectId].status != Open ==> r == Failed(BadRequest))
      && (b.CanEdit(caller) && db.projects[b.projectId].status == Open && !c.ColumnsValid()
          ==> r == Failed(BadRequest))
      && (r == Done <==> b.CanEdit(caller) && db.projects[b.projectId].status == Open && c.ColumnsValid())
      && (r == Done ==> db.bids == old(db.bids)[id := c])
    ensures r.Failed? ==> db.bids == old(db.bids)
  {
    if id !in db.bids {
      return Failed(NotFound);
    }
    var b := db.bids[id];
    if !b.CanEdit(caller) {
      return Failed(Forbidden);
    }
    if db.projects[b.projectId].status != Open {
      return Failed(BadRequest);
    }
    var c := Revised(b, amount, message, deliveryTime);
    if !c.ColumnsValid() {
      return Failed(BadRequest);
    }
    db.bids := db.bids[id := c];
    r := Done;
  }

  /** `DELETE /api/bids/:id`: a pending bid is deleted; an accepted bid is
      marked withdrawn and, when the project is assigned to the caller, the
      project goes back to open and unassigned. */
  method WithdrawBid(db: Db, caller: UserId, id: BidId) returns (r: Outcome)
    requires db.Valid()
    modifies db`bids, db`projects
    ensures db.Valid()
    ensures id !in old(db.bids) ==> r == Failed(NotFound)
    ensures id in old(db.bids) ==> (r == Done <==> old(db.bids[id]).CanWithdraw(caller))
    ensures id in old(db.bids) && !old(db.bids[id]).CanWithdraw(caller) ==> r == Failed(Forbidden)
    ensures r.Failed? ==> db.bids == old(db.bids) && db.projects == old(db.projects)
    ensures r == Done && old(db.bids[id]).status == Pending ==>
      && db.bids == old(db.bids) - {id}
      && db.projects == old(db.projects)
    ensures r == Done && old(db.bids[id]).status == Accepted ==>
      var pid := old(db.bids[id]).projectId;
      && db.bids == old(db.bids)[id := old(db.bids[id]).(status := Withdrawn)]
      && db.projects == old(db.projects)[pid := old(db.projects[pid]).(status := Open, assignedTo := None,
                                                                     acceptedAt := None)]
  {
    if id !in db.bids {
      return Failed(NotFound);
    }
    var b := db.bids[id];
    if !b.CanWithdraw(caller) {
      return Failed(Forbidden);
    }
    if b.status == Accepted {
      var p := db.projects[b.projectId];
      WithdrawPreservesInvariants(db.projects, db.bids, id);
      db.bids := db.bids[id := b.(status := Withdrawn)];
      if p.assignedTo == Some(caller) {
        db.projects := db.projects[b.projectId := p.(status := Open, assignedTo := None, acceptedAt := None)];
      }
    } else {
      db.bids := db.bids - {id};
    }
    r := Done;
  }

  /** Withdrawing the accepted bid leaves no accepted bid on its project, so
      reopening the project keeps every invariant. */
  lemma WithdrawPreservesInvariants(projects: map<ProjectId, Project>, bids: map<BidId, Bid>, id: BidId)
    requires id in bids && bids[id].status == Accepted
    requires ProjectsWellFormed(projects) && BidsWellFormed(bids) && BidsReferToProjects(projects, bids)
    requires OneBidPerUserAndProject(bids) && AcceptedBidsAssigned(projects, bids)
    ensures var pid := bids[id].projectId;
      var bids' := bids[id := bids[id].(status := Withdrawn)];
      var projects' := projects[pid := projects[pid].(status := Open, assignedTo := None, acceptedAt := None)];
      && AcceptedBidsAssigned(projects', bids')
      && OneBidPerUserAndProject(bids')
  {
    OneAcceptedBidPerProject(projects, bids);
  }
}
