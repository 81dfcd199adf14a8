/** A rating one participant of a completed project gives the other. */
module Ratings {
  import opened Common

  datatype RatingType = ClientToFreelancer | FreelancerToClient

  /** The wire names of the two rating directions. */
  function RatingTypeName(t: RatingType): string {
    match t
    case ClientToFreelancer => "client-to-freelancer"
    case FreelancerToClient => "freelancer-to-client"
  }

  /** The check `['client-to-freelancer', 'freelancer-to-client'].includes(ratingType)`. */
  function ParseRatingType(s: string): (t: Option<RatingType>)
    ensures t.Some? <==> s == "client-to-freelancer" || s == "freelancer-to-client"
    ensures t.Some? ==> RatingTypeName(t.value) == s
  {
    if s == "client-to-freelancer" then Some(ClientToFreelancer)
    else if s == "freelancer-to-client" then Some(FreelancerToClient)
    else None
  }

  /** One row of the ratings table; `criteria` is opaque JSON. */
  datatype Rating = Rating(
    score: int,
    review: Option<string>,
    projectId: ProjectId,
    ratedUserId: UserId,
    raterUserId: UserId,
    ratingType: RatingType,
    criteria: Option<string>,
    isPublic: bool,
    isVerified: bool,
    helpfulVotes: nat,
    reportedCount: nat)
  {
    predicate CanEdit(u: UserId) {
      raterUserId == u
    }

    /** The column validators: a score of 1 to 5 and a review of at most
        1000 characters. */
    predicate ColumnsValid() {
      1 <= score <= 5 && (review.Some? ==> |review.value| <= 1000)
    }
  }

  /** A row as `Rating.create` stores it. */
  function NewRating(
    project: ProjectId, rated: UserId, rater: UserId, score: int,
    review: Option<string>, ratingType: RatingType, criteria: Option<string>): (r: Rating)
    ensures r.helpfulVotes == 0 && r.reportedCount == 0
    ensures r.isPublic && !r.isVerified
    ensures r.raterUserId == rater && r.ratedUserId == rated && r.projectId == project
    ensures r.CanEdit(rater) && (forall u :: r.CanEdit(u) ==> u == rater)
  {
    Rating(score, review, project, rated, rater, ratingType, criteria, true,
           false, 0, 0)
  }

  /** Some row of `rs` already has this (project, rater, type) triple. */
  predicate HasRating(rs: seq<Rating>, project: ProjectId, rater: UserId, t: RatingType) {
    exists i | 0 <= i < |rs| :: rs[i].projectId == project && rs[i].raterUserId == rater
      && rs[i].ratingType == t
  }

  /** The unique index on (project_id, rater_user_id, rating_type). */
  ghost predicate OneRatingPerDirection(rs: seq<Rating>) {
    forall i, j ::
      (0 <= i < |rs| && 0 <= j < |rs| && rs[i].projectId == rs[j].projectId
       && rs[i].raterUserId == rs[j].raterUserId && rs[i].ratingType == rs[j].ratingType)
      ==> i == j
  }

  /** Appending a row whose triple is new keeps the index unique. */
  lemma {:induction false} AppendKeepsOneRatingPerDirection(rs: seq<Rating>, r: Rating)
    requires OneRatingPerDirection(rs)
    requires !HasRating(rs, r.projectId, r.raterUserId, r.ratingType)
    ensures OneRatingPerDirection(rs + [r])
  {
    var rs' := rs + [r];
    assert forall k :: 0 <= k < |rs| ==> rs'[k] == rs[k];
  }

  /** Only the rater can edit a rating. */
  lemma OnlyRaterEdits(r: Rating, u: UserId)
    ensures r.CanEdit(u) <==> u == r.raterUserId
  {
  }
}
