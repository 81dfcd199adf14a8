/** The store every route reads and writes: one field per table, the table
    invariants, and the model-instance methods that change one row in place. */
module Database {
  import opened Common
  import opened Users
  import opened Projects
  import opened Bids
  import opened Ratings
  import opened Messages
  import opened Reputation

  /** The foreign key bids.project_id: every bid belongs to a stored project. */
  ghost predicate BidsReferToProjects(projects: map<ProjectId, Project>, bids: map<BidId, Bid>) {
    forall b :: b in bids ==> bids[b].projectId in projects
  }

  /** An accepted bid belongs to a project that is no longer open and is
      assigned to the bidder. */
  ghost predicate AcceptedBidsAssigned(projects: map<ProjectId, Project>, bids: map<BidId, Bid>) {
    forall b :: b in bids && bids[b].status == Accepted ==>
      && bids[b].projectId in projects
      && projects[bids[b].projectId].status != Open
      && projects[bids[b].projectId].assignedTo == Some(bids[b].userId)
  }

  ghost predicate AtMostOneAcceptedPerProject(bids: map<BidId, Bid>) {
    forall a, b ::
      (a in bids && b in bids && bids[a].status == Accepted && bids[b].status == Accepted
       && bids[a].projectId == bids[b].projectId) ==> a == b
  }

  /** The invariants of the projects and bids tables together. */
  ghost predicate ProjectAndBidTablesValid(projects: map<ProjectId, Project>, bids: map<BidId, Bid>) {
    && ProjectsWellFormed(projects)
    && BidsWellFormed(bids)
    && BidsReferToProjects(projects, bids)
    && OneBidPerUserAndProject(bids)
    && AcceptedBidsAssigned(projects, bids)
  }

  ghost predicate ProjectsWellFormed(projects: map<ProjectId, Project>) {
    forall p :: p in projects ==> projects[p].ColumnsValid()
  }

  ghost predicate BidsWellFormed(bids: map<BidId, Bid>) {
    forall b :: b in bids ==> bids[b].ColumnsValid()
  }

  ghost predicate RatingsWellFormed(rs: seq<Rating>) {
    forall i :: 0 <= i < |rs| ==> rs[i].ColumnsValid()
  }

  ghost predicate MessagesWellFormed(ms: seq<Message>) {
    forall i :: 0 <= i < |ms| ==> ms[i].ColumnsValid()
  }

  /** Every user who has been rated carries the rounded mean of their scores. */
  ghost predicate ReputationsCurrent(users: map<UserId, User>, rs: seq<Rating>) {
    forall u :: u in users && ScoreCount(rs, u) > 0 ==> users[u].reputation == ReputationOf(rs, u)
  }

  /** `ReputationsCurrent` for everyone but `x`: the state between a change to
      `x`'s ratings and the recomputation of `x`'s reputation. */
  ghost predicate ReputationsCurrentExcept(users: map<UserId, User>, rs: seq<Rating>, x: UserId) {
    forall u :: u in users && u != x && ScoreCount(rs, u) > 0 ==> users[u].reputation == ReputationOf(rs, u)
  }

  /** Since an accepted bid's bidder is its project's assignee and a user has
      one bid per project, no project ever has two accepted bids. */
  lemma OneAcceptedBidPerProject(projects: map<ProjectId, Project>, bids: map<BidId, Bid>)
    requires OneBidPerUserAndProject(bids) && AcceptedBidsAssigned(projects, bids)
    ensures AtMostOneAcceptedPerProject(bids)
  {
  }

  /** Every rated user's stored reputation lies in 1.00..5.00. */
  lemma StoredReputationsInRange(users: map<UserId, User>, rs: seq<Rating>, u: UserId)
    requires RatingsWellFormed(rs) && ReputationsCurrent(users, rs)
    requires u in users && ScoreCount(rs, u) > 0
    ensures 100 <= users[u].reputation <= 500
  {
    ReputationInRange(rs, u);
  }

  /** Replacing a rating by one with the same score and rated user keeps
      every user's totals. */
  lemma SameScoreKeepsTotals(rs: seq<Rating>, i: int, r: Rating)
    requires 0 <= i < |rs| && r.score == rs[i].score && r.ratedUserId == rs[i].ratedUserId
    ensures forall u :: ScoreSum(rs[i := r], u) == ScoreSum(rs, u)
    ensures forall u :: ScoreCount(rs[i := r], u) == ScoreCount(rs, u)
  {
    forall u ensures ScoreSum(rs[i := r], u) == ScoreSum(rs, u)
      && ScoreCount(rs[i := r], u) == ScoreCount(rs, u)
    {
      ReplaceRating(rs, i, r, u);
    }
  }

  class Db {
    var users: map<UserId, User>
    var projects: map<ProjectId, Project>
    var bids: map<BidId, Bid>
    /** Ratings are never deleted; row `i` has id `i + 1`. */
    var ratings: seq<Rating>
    /** Messages are only ever soft-deleted; row `i` has id `i + 1`. */
    var messages: seq<Message>
    /** The next values of the auto-increment keys of projects and bids. */
    var nextProjectId: int
    var nextBidId: int

    ghost predicate Valid()
      reads this
    {
      TablesValid() && ReputationsCurrent(users, ratings)
    }

    /** Every invariant but the current reputations. */
    ghost predicate TablesValid()
      reads this
    {
      && 1 <= nextProjectId && 1 <= nextBidId
      && (forall p :: p in projects ==> 1 <= p < nextProjectId)
      && (forall b :: b in bids ==> 1 <= b < nextBidId)
      && ProjectAndBidTablesValid(projects, bids)
      && RatingsWellFormed(ratings)
      && OneRatingPerDirection(ratings)
      && MessagesWellFormed(messages)
    }

    /** A store holding the given accounts and nothing else. */
    constructor (accounts: map<UserId, User>)
      ensures Valid()
      ensures users == accounts && projects == map[] && bids == map[]
      ensures ratings == [] && messages == []
      ensures nextProjectId == 1 && nextBidId == 1
    {
      users, projects, bids := accounts, map[], map[];
      ratings, messages := [], [];
      nextProjectId, nextBidId := 1, 1;
    }

    /** `project.incrementViews()`: one more view, every other column kept. */
    method IncrementViews(id: ProjectId)
      requires Valid() && id in projects
      modifies this`projects
      ensures Valid()
      ensures projects == old(projects)[id := old(projects[id]).(views := old(projects[id].views) + 1)]
    {
      var p := projects[id];
      projects := projects[id := p.(views := p.views + 1)];
    }

    /** `rating.incrementHelpful()`: one more helpful vote, nothing else changes. */
    method IncrementHelpful(i: int)
      requires Valid() && 0 <= i < |ratings|
      modifies this`ratings
      ensures Valid()
      ensures ratings == old(ratings)[i := old(ratings[i]).(helpfulVotes := old(ratings[i].helpfulVotes) + 1)]
    {
      var r := ratings[i];
      SameScoreKeepsTotals(ratings, i, r.(helpfulVotes := r.helpfulVotes + 1));
      ratings := ratings[i := r.(helpfulVotes := r.helpfulVotes + 1)];
    }

    /** `rating.reportRating()`: one more report, nothing else changes. */
    method ReportRating(i: int)
      requires Valid() && 0 <= i < |ratings|
      modifies this`ratings
      ensures Valid()
      ensures ratings == old(ratings)[i := old(ratings[i]).(reportedCount := old(ratings[i].reportedCount) + 1)]
    {
      var r := ratings[i];
      SameScoreKeepsTotals(ratings, i, r.(reportedCount := r.reportedCount + 1));
      ratings := ratings[i := r.(reportedCount := r.reportedCount + 1)];
    }

    /** `message.markAsRead()`. */
    method MarkAsRead(i: int, now: Time)
      requires Valid() && 0 <= i < |messages|
      modifies this`messages
      ensures Valid()
      ensures messages == old(messages)[i := old(messages[i]).MarkedRead(now)]
    {
      messages := messages[i := messages[i].MarkedRead(now)];
    }

    /** The bulk update that marks `u`'s unread live messages in project `pid` read. */
    method MarkConversationRead(pid: ProjectId, u: UserId, now: Time)
      requires Valid()
      modifies this`messages
      ensures Valid()
      ensures messages == MarkReadFor(old(messages), pid, u, now)
    {
      MarkReadForLeavesNothingUnread(messages, pid, u, now);
      messages := MarkReadFor(messages, pid, u, now);
    }

    /** `message.softDelete()`: the row is flagged, not removed. */
    method SoftDelete(i: int, now: Time)
      requires Valid() && 0 <= i < |messages|
      modifies this`messages
      ensures Valid()
      ensures messages == old(messages)[i := old(messages[i]).SoftDeleted(now)]
      ensures |messages| == |old(messages)|
    {
      messages := messages[i := messages[i].SoftDeleted(now)];
    }
  }
}
