/** A bid on a project and the predicates that guard its edit and withdrawal. */
module Bids {
  import opened Common

  datatype BidStatus = Pending | Accepted | Rejected | Withdrawn

  /** One row of the bids table; `amount` is in cents, `deliveryTime` in days. */
  datatype Bid = Bid(
    amount: int,
    message: string,
    deliveryTime: int,
    userId: UserId,
    projectId: ProjectId,
    status: BidStatus,
    isSelected: bool,
    attachments: seq<string>,
    portfolio: seq<string>,
    acceptedAt: Option<Time>,
    rejectedAt: Option<Time>)
  {
    predicate CanEdit(u: UserId) {
      userId == u && status == Pending
    }

    predicate CanWithdraw(u: UserId) {
      userId == u && (status == Pending || status == Accepted)
    }

    /** The column validators: an amount of at least 0 and a message of 10 to
        1000 characters that is not whitespace only. */
    predicate ColumnsValid() {
      amount >= 0 && 10 <= |message| <= 1000 && NotBlank(message)
    }
  }

  /** A row as `Bid.create` stores it. */
  function NewBid(
    bidder: UserId, project: ProjectId, amount: int, message: string,
    deliveryTime: int, portfolio: seq<string>): (b: Bid)
    ensures b.status == Pending && !b.isSelected
    ensures b.userId == bidder && b.projectId == project
    ensures b.acceptedAt == None && b.rejectedAt == None
    ensures b.CanEdit(bidder) && b.CanWithdraw(bidder)
  {
    Bid(amount, message, deliveryTime, bidder, project, Pending, false, [],
        portfolio, None, None)
  }

  /** Whether `user` already has a bid (of any status) on `project`. */
  predicate HasBid(bids: map<BidId, Bid>, user: UserId, project: ProjectId) {
    exists b :: b in bids && bids[b].userId == user && bids[b].projectId == project
  }

  /** The unique index on (user_id, project_id): no two rows share the pair. */
  ghost predicate OneBidPerUserAndProject(bids: map<BidId, Bid>) {
    forall a, b ::
      (a in bids && b in bids && bids[a].userId == bids[b].userId
       && bids[a].projectId == bids[b].projectId) ==> a == b
  }

  /** Whatever may be edited may be withdrawn. */
  lemma EditableIsWithdrawable(b: Bid, u: UserId)
    ensures b.CanEdit(u) ==> b.CanWithdraw(u)
  {
  }

  /** Rejected and withdrawn bids are final: nobody can withdraw them, and
      only the bidder can ever withdraw any bid. */
  lemma WithdrawalRules(b: Bid, u: UserId)
    ensures b.status == Rejected || b.status == Withdrawn ==> !b.CanWithdraw(u)
    ensures b.CanWithdraw(u) ==> u == b.userId
    ensures b.userId == u && b.status == Accepted ==> b.CanWithdraw(u) && !b.CanEdit(u)
  {
  }
}
