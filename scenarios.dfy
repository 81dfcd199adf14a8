/** Two walkthroughs of the marketplace, driven only through the route
    contracts: they show that the contracts compose into the documented
    end-to-end behaviour. */
module Scenarios {
  import opened Common
  import opened Users
  import opened Projects
  import opened Bids
  import opened Database
  import ProjectRoutes
  import BidRoutes
  import RatingRoutes

  const Owner: UserId := 1
  const Freelancer1: UserId := 2
  const Freelancer2: UserId := 3
  const Freelancer3: UserId := 4

  function Accounts(): map<UserId, User> {
    map[Owner := User(Active, false, true, 0),
        Freelancer1 := User(Active, true, true, 0),
        Freelancer2 := User(Active, true, true, 0),
        Freelancer3 := User(Active, true, false, 0)]
  }

  function Tutoring(): ProjectRoutes.ProjectForm {
    ProjectRoutes.ProjectForm(Some("Calculus tutoring"), Some("Weekly sessions before the final exam"),
      Some(AcademicTutoring), Some(100000), None, None, None, None, None, None, None)
  }

  /** The owner posts the tutoring project into a store holding the accounts. */
  method PostProject() returns (db: Db, pid: ProjectId)
    ensures fresh(db) && db.Valid()
    ensures db.users == Accounts() && db.ratings == [] && db.bids == map[]
    ensures pid in db.projects && db.projects[pid].postedBy == Owner
    ensures db.projects[pid].status == Open
  {
    db := new Db(Accounts());
    var form := Tutoring();
    assert NotBlank(form.title.value) && NotBlank(form.description.value) by {
      assert !IsJsSpace(form.title.value[0]) && !IsJsSpace(form.description.value[0]);
    }
    var p := ProjectRoutes.CreateProject(db, Owner, form, []);
    assert p.Ok?;
    pid := p.value;
  }

  /** A freelancer who has not bid yet places a valid bid on an open project
      of someone else. */
  method PlaceBid(db: Db, pid: ProjectId, who: UserId, amount: int, message: string, days: int)
    returns (b: BidId)
    requires db.Valid() && pid in db.projects
    requires db.projects[pid].status == Open && db.projects[pid].postedBy != who
    requires !HasBid(db.bids, who, pid)
    requires amount > 0 && days != 0 && 10 <= |message| <= 1000 && !IsJsSpace(message[0])
    modifies db`bids, db`nextBidId
    ensures db.Valid()
    ensures b !in old(db.bids) && db.bids == old(db.bids)[b := NewBid(who, pid, amount, message, days, [])]
  {
    assert NotBlank(message);
    var r := BidRoutes.CreateBid(db, who, Some(pid), Some(amount), Some(message), Some(days), []);
    assert r.Ok?;
    b := r.value;
  }

  /** The owner posts a project and two freelancers bid on it. */
  method PostAndBid() returns (db: Db, pid: ProjectId, b1: BidId, b2: BidId)
    ensures fresh(db) && db.Valid()
    ensures db.users == Accounts() && db.ratings == []
    ensures pid in db.projects && db.projects[pid].postedBy == Owner
    ensures db.projects[pid].status == Open
    ensures db.bids.Keys == {b1, b2} && b1 != b2
    ensures db.bids[b1].userId == Freelancer1 && db.bids[b1].projectId == pid
    ensures db.bids[b2].userId == Freelancer2 && db.bids[b2].projectId == pid
    ensures db.bids[b1].status == Pending && db.bids[b2].status == Pending
  {
    db, pid := PostProject();
    b1 := PlaceBid(db, pid, Freelancer1, 80000, "Five days, all topics", 5);
    assert !HasBid(db.bids, Freelancer2, pid) by {
      assert db.bids.Keys == {b1};
    }
    b2 := PlaceBid(db, pid, Freelancer2, 90000, "Three days, past papers", 3);
  }

  /** The owner posts a project, two freelancers bid, and the owner accepts
      the first bid: the project is assigned, the other bid is rejected, and a
      second accept on the same project is refused. */
  method PostBidAndAccept() returns (db: Db, pid: ProjectId, b1: BidId, b2: BidId)
    ensures fresh(db) && db.Valid()
    ensures db.users == Accounts() && db.ratings == []
    ensures pid in db.projects && db.projects[pid].postedBy == Owner
    ensures db.projects[pid].status == InProgress && db.projects[pid].assignedTo == Some(Freelancer1)
    ensures db.bids.Keys == {b1, b2}
    ensures db.bids[b1].status == Accepted && db.bids[b2].status == Rejected
    ensures db.bids[b1].userId == Freelancer1 && db.bids[b1].projectId == pid
    ensures db.bids[b2].userId == Freelancer2 && db.bids[b2].projectId == pid
  {
    db, pid, b1, b2 := PostAndBid();
    var accepted := ProjectRoutes.AcceptBid(db, Owner, pid, b1, Time(1));
    assert accepted == Done;
    var again := ProjectRoutes.AcceptBid(db, Owner, pid, b2, Time(2));
    assert again == Failed(BadRequest);
  }

  /** The owner completes the project and rates the freelancer 5: the
      freelancer's reputation becomes 5.00. */
  method CompleteAndRateFreelancer(db: Db, pid: ProjectId)
    requires db.Valid() && db.users == Accounts() && db.ratings == []
    requires pid in db.projects && db.projects[pid].postedBy == Owner
    requires db.projects[pid].status == InProgress && db.projects[pid].assignedTo == Some(Freelancer1)
    modifies db`projects, db`ratings, db`users
    ensures db.Valid() && Owner in db.users && Freelancer1 in db.users
    ensures db.users[Freelancer1].reputation == 500
    ensures pid in db.projects && db.projects[pid].postedBy == Owner
    ensures db.projects[pid].status == Completed && db.projects[pid].assignedTo == Some(Freelancer1)
    ensures |db.ratings| == 1 && db.ratings[0].raterUserId == Owner && db.ratings[0].ratedUserId == Freelancer1
  {
    var completed := ProjectRoutes.CompleteProject(db, Owner, pid, Time(3));
    assert completed == Done;
    var f := RatingRoutes.RatingForm(Some(pid), Some(Freelancer1), Some(5), None, Some("client-to-freelancer"), None);
    assert RatingRoutes.RatingAllowed(db.projects, db.ratings, db.users, Owner, f);
    var r := RatingRoutes.CreateRating(db, Owner, f);
    assert db.ratings == [db.ratings[0]] && db.ratings[0].score == 5;
    assert Reputation.ScoreCount(db.ratings, Freelancer1) == 1 && Reputation.ScoreSum(db.ratings, Freelancer1) == 5 by {
      assert db.ratings[1..] == [];
    }
  }

  /** The freelancer rates the owner 4: the owner's reputation becomes 4.00,
      the freelancer's stays 5.00. */
  method FreelancerRatesOwner(db: Db, pid: ProjectId)
    requires db.Valid() && Owner in db.users && Freelancer1 in db.users
    requires db.users[Freelancer1].reputation == 500
    requires pid in db.projects && db.projects[pid].postedBy == Owner
    requires db.projects[pid].status == Completed && db.projects[pid].assignedTo == Some(Freelancer1)
    requires |db.ratings| == 1 && db.ratings[0].raterUserId == Owner && db.ratings[0].ratedUserId == Freelancer1
    modifies db`ratings, db`users
    ensures db.Valid() && Owner in db.users && Freelancer1 in db.users
    ensures db.users[Freelancer1].reputation == 500 && db.users[Owner].reputation == 400
  {
    var f := RatingRoutes.RatingForm(Some(pid), Some(Owner), Some(4), None, Some("freelancer-to-client"), None);
    assert !Ratings.HasRating(db.ratings, pid, Freelancer1, Ratings.FreelancerToClient);
    assert RatingRoutes.RatingAllowed(db.projects, db.ratings, db.users, Freelancer1, f);
    var r := RatingRoutes.CreateRating(db, Freelancer1, f);
    assert db.ratings[0] == old(db.ratings[0]) && db.ratings[0].ratedUserId != Owner;
    assert db.ratings[1].score == 4 && db.ratings[1].ratedUserId == Owner;
    var rest := db.ratings[1..];
    assert rest == [db.ratings[1]] && rest[1..] == [];
    assert Reputation.ScoreCount(rest, Owner) == 1 && Reputation.ScoreSum(rest, Owner) == 4;
    assert Reputation.ScoreCount(db.ratings, Owner) == 1 && Reputation.ScoreSum(db.ratings, Owner) == 4;
  }

  /** The whole walkthrough: reputations 5.00 for the freelancer and 4.00 for
      the owner. */
  method AcceptCompleteAndRate() returns (freelancerReputation: int, ownerReputation: int)
    ensures freelancerReputation == 500 && ownerReputation == 400
  {
    var db, pid, b1, b2 := PostBidAndAccept();
    CompleteAndRateFreelancer(db, pid);
    FreelancerRatesOwner(db, pid);
    freelancerReputation, ownerReputation := db.users[Freelancer1].reputation, db.users[Owner].reputation;
  }

  /** The accepted freelancer withdraws: the project is open and unassigned
      again, and the rejected bid is still on it. */
  method WithdrawAccepted() returns (db: Db, pid: ProjectId, b2: BidId)
    ensures fresh(db) && db.Valid()
    ensures pid in db.projects && db.projects[pid].postedBy == Owner
    ensures db.projects[pid].status == Open && db.projects[pid].assignedTo == None
    ensures b2 in db.bids && db.bids[b2].userId == Freelancer2 && db.bids[b2].projectId == pid
    ensures forall b :: b in db.bids ==> db.bids[b].userId != Freelancer3
  {
    var b1;
    db, pid, b1, b2 := PostBidAndAccept();
    var before := db.bids;
    var w := BidRoutes.WithdrawBid(db, Freelancer1, b1);
    assert w == Done;
    assert db.bids == before[b1 := before[b1].(status := Withdrawn)];
  }

  /** After the accepted freelancer withdraws, the rejected bidder cannot bid
      a second time, but a fresh bid can be placed and accepted. */
  method WithdrawAndReaccept() returns (status: ProjectStatus, assignee: Option<UserId>)
    ensures status == InProgress && assignee == Some(Freelancer3)
  {
    var db, pid, b2 := WithdrawAccepted();
    var again := BidRoutes.CreateBid(db, Freelancer2, Some(pid), Some(85000), Some("Still available, three days"), Some(3), []);
    assert again == Err(BadRequest);
    var b3 := PlaceBid(db, pid, Freelancer3, 70000, "Four days, worked examples", 4);
    var accepted := ProjectRoutes.AcceptBid(db, Owner, pid, b3, Time(4));
    assert accepted == Done;
    status, assignee := db.projects[pid].status, db.projects[pid].assignedTo;
  }
}
