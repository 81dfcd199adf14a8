/** The rating routes: submit a rating, edit it, vote it helpful, and the
    reputation recomputation that follows every change of a score. */
module RatingRoutes {
  import opened Common
  import opened Users
  import opened Projects
  import opened Ratings
  import opened Reputation
  import opened Database

  /** The body of `POST /api/ratings`; `None` is a field left out. */
  datatype RatingForm = RatingForm(
    projectId: Option<int>,
    ratedUserId: Option<int>,
    score: Option<int>,
    review: Option<string>,
    ratingType: Option<string>,
    criteria: Option<string>)

  predicate Given(f: RatingForm) {
    GivenInt(f.projectId) && GivenInt(f.ratedUserId) && GivenInt(f.score) && GivenText(f.ratingType)
  }

  /** The row a form would insert, once its required fields are there. */
  function RowOf(f: RatingForm, caller: UserId, t: RatingType): Rating
    requires Given(f)
  {
    NewRating(f.projectId.value, f.ratedUserId.value, caller, f.score.value, f.review, t, f.criteria)
  }

  /** Who may rate whom, stated once: on a completed project the owner rates
      the assigned freelancer and the assigned freelancer rates the owner,
      each at most once, with a score of 1 to 5. */
  predicate RatingAllowed(projects: map<ProjectId, Project>, rs: seq<Rating>, users: map<UserId, User>,
                          caller: UserId, f: RatingForm)
  {
    && Given(f)
    && 1 <= f.score.value <= 5
    && ParseRatingType(f.ratingType.value).Some?
    && f.projectId.value in projects
    && var p, t, rated := projects[f.projectId.value], ParseRatingType(f.ratingType.value).value, f.ratedUserId.value;
    && p.status == Completed
    && (t == ClientToFreelancer ==> p.postedBy == caller && p.assignedTo == Some(rated))
    && (t == FreelancerToClient ==> p.assignedTo == Some(caller) && p.postedBy == rated)
    && !HasRating(rs, f.projectId.value, caller, t)
    && RowOf(f, caller, t).ColumnsValid()
    && rated in users && caller in users
  }

  /** The checks of `POST /api/ratings` in the source's order, ending in the
      row to insert. The foreign keys of the new row (rated and rating user)
      fail with 500, as the database would reject the insert. */
  function CheckRating(projects: map<ProjectId, Project>, rs: seq<Rating>, users: map<UserId, User>,
                       caller: UserId, f: RatingForm): (r: Result<Rating>)
    ensures r.Ok? <==> RatingAllowed(projects, rs, users, caller, f)
    ensures r.Ok? ==> r.value == RowOf(f, caller, ParseRatingType(f.ratingType.value).value)
    ensures r == Err(NotFound) <==>
      Given(f) && 1 <= f.score.value <= 5 && ParseRatingType(f.ratingType.value).Some?
      && f.projectId.value !in projects
    ensures r == Err(Forbidden) <==>
      && Given(f) && 1 <= f.score.value <= 5 && ParseRatingType(f.ratingType.value).Some?
      && f.projectId.value in projects && projects[f.projectId.value].status == Completed
      && (if ParseRatingType(f.ratingType.value).value == ClientToFreelancer
          then projects[f.projectId.value].postedBy != caller
          else projects[f.projectId.value].assignedTo != Some(caller))
    ensures r == Err(ServerError) ==> Given(f) && (f.ratedUserId.value !in users || caller !in users)
    ensures r.Err? ==> r.code in {BadRequest, NotFound, Forbidden, ServerError}
  {
    if !Given(f) then Err(BadRequest)
    else if f.score.value < 1 || f.score.value > 5 then Err(BadRequest)
    else if ParseRatingType(f.ratingType.value).None? then Err(BadRequest)
    else if f.projectId.value !in projects then Err(NotFound)
    else
      var p, t, rated := projects[f.projectId.value], ParseRatingType(f.ratingType.value).value, f.ratedUserId.value;
      var isOwner, isAssignee := p.postedBy == caller, p.assignedTo == Some(caller);
      if p.status != Completed then Err(BadRequest)
      else if !isOwner && !isAssignee then Err(Forbidden)
      else if t == ClientToFreelancer && !isOwner then Err(Forbidden)
      else if t == FreelancerToClient && !isAssignee then Err(Forbidden)
      else if t == ClientToFreelancer && p.assignedTo != Some(rated) then Err(BadRequest)
      else if t == FreelancerToClient && p.postedBy != rated then Err(BadRequest)
      else if HasRating(rs, f.projectId.value, caller, t) then Err(BadRequest)
      else if !RowOf(f, caller, t).ColumnsValid() then Err(BadRequest)
      else if rated !in users || caller !in users then Err(ServerError)
      else Ok(RowOf(f, caller, t))
  }

  /** Appending a row leaves everyone else's reputation current. */
  lemma AppendKeepsOthersCurrent(users: map<UserId, User>, rs: seq<Rating>, r: Rating)
    requires ReputationsCurrent(users, rs)
    ensures ReputationsCurrentExcept(users, rs + [r], r.ratedUserId)
  {
    forall u | u in users && u != r.ratedUserId && ScoreCount(rs + [r], u) > 0
      ensures users[u].reputation == ReputationOf(rs + [r], u)
    {
      AppendRating(rs, r, u);
    }
  }

  /** Replacing a row by one about the same user leaves everyone else's
      reputation current. */
  lemma ReplaceKeepsOthersCurrent(users: map<UserId, User>, rs: seq<Rating>, i: int, r: Rating)
    requires 0 <= i < |rs| && rs[i].ratedUserId == r.ratedUserId
    requires ReputationsCurrent(users, rs)
    ensures ReputationsCurrentExcept(users, rs[i := r], r.ratedUserId)
  {
    forall u | u in users && u != r.ratedUserId && ScoreCount(rs[i := r], u) > 0
      ensures users[u].reputation == ReputationOf(rs[i := r], u)
    {
      ReplaceRating(rs, i, r, u);
    }
  }

  /** `updateUserReputation(userId)`: a user with at least one rating gets the
      rounded mean of all their scores; nothing else changes. */
  method UpdateUserReputation(db: Db, u: UserId)
    requires db.TablesValid() && ReputationsCurrentExcept(db.users, db.ratings, u)
    modifies db`users
    ensures db.Valid()
    ensures u in old(db.users) && ScoreCount(db.ratings, u) > 0 ==>
      db.users == old(db.users)[u := old(db.users[u]).(reputation := ReputationOf(db.ratings, u))]
    ensures !(u in old(db.users) && ScoreCount(db.ratings, u) > 0) ==> db.users == old(db.users)
  {
    if u in db.users && ScoreCount(db.ratings, u) > 0 {
      db.users := db.users[u := db.users[u].(reputation := ReputationOf(db.ratings, u))];
    }
  }

  /** `POST /api/ratings`: the new rating is appended and the rated user's
      reputation recomputed. */
  method CreateRating(db: Db, caller: UserId, f: RatingForm) returns (r: Result<int>)
    requires db.Valid()
    modifies db`ratings, db`users
    ensures db.Valid()
    ensures r.Err? <==> CheckRating(old(db.projects), old(db.ratings), old(db.users), caller, f).Err?
    ensures r.Err? ==>
      && r.code == CheckRating(old(db.projects), old(db.ratings), old(db.users), caller, f).code
      && db.ratings == old(db.ratings) && db.users == old(db.users)
    ensures r.Ok? ==>
      var row := CheckRating(old(db.projects), old(db.ratings), old(db.users), caller, f).value;
      && r.value == |old(db.ratings)| + 1
      && db.ratings == old(db.ratings) + [row]
      && ScoreCount(db.ratings, row.ratedUserId) > 0
      && db.users == old(db.users)[row.ratedUserId :=
           old(db.users[row.ratedUserId]).(reputation := ReputationOf(db.ratings, row.ratedUserId))]
  {
    var c := CheckRating(db.projects, db.ratings, db.users, caller, f);
    if c.Err? {
      return Err(c.code);
    }
    var row := c.value;
    AppendKeepsOneRatingPerDirection(db.ratings, row);
    AppendKeepsOthersCurrent(db.users, db.ratings, row);
    r := Ok(|db.ratings| + 1);
    db.ratings := db.ratings + [row];
    RatedUserCounted(db.ratings, |db.ratings| - 1);
    UpdateUserReputation(db, row.ratedUserId);
  }

  /** A rating, once stored, makes the same request fail: each party rates
      the other at most once per project. */
  lemma SecondRatingRefused(projects: map<ProjectId, Project>, rs: seq<Rating>, users: map<UserId, User>,
                            caller: UserId, f: RatingForm)
    requires CheckRating(projects, rs, users, caller, f).Ok?
    ensures CheckRating(projects, rs + [CheckRating(projects, rs, users, caller, f).value], users, caller, f)
      == Err(BadRequest)
  {
    var row := CheckRating(projects, rs, users, caller, f).value;
    assert (rs + [row])[|rs|] == row;
    assert HasRating(rs + [row], row.projectId, caller, row.ratingType);
  }

  /** The row after `rating.update(...)`: a given score replaces the old one,
      a review that is present (even null) replaces it, given criteria replace
      them. `review` is `None` when the field is absent and `Some(None)` when
      it is null. */
  function Amended(old_: Rating, score: Option<int>, review: Option<Option<string>>, criteria: Option<string>)
    : (r: Rating)
    ensures r.score == (if GivenInt(score) then score.value else old_.score)
    ensures r.review == (if review.Some? then review.value else old_.review)
    ensures r.criteria == (if GivenText(criteria) then criteria else old_.criteria)
    ensures r.(score := old_.score, review := old_.review, criteria := old_.criteria) == old_
  {
    old_.(score := if GivenInt(score) then score.value else old_.score,
          review := if review.Some? then review.value else old_.review,
          criteria := if GivenText(criteria) then criteria else old_.criteria)
  }

  /** `PUT /api/ratings/:id`: only the rater; the rated user's reputation is
      recomputed from the new score. */
  method UpdateRating(db: Db, caller: UserId, id: int, score: Option<int>, review: Option<Option<string>>,
                      criteria: Option<string>) returns (r: Outcome)
    requires db.Valid()
    modifies db`ratings, db`users
    ensures db.Valid()
    ensures !(1 <= id <= |old(db.ratings)|) ==> r == Failed(NotFound)
    ensures 1 <= id <= |old(db.ratings)| ==>
      var old_ := old(db.ratings[id - 1]);
      var new_ := Amended(old_, score, review, criteria);
      && (!old_.CanEdit(caller) ==> r == Failed(Forbidden))
      && ((old_.CanEdit(caller) && GivenInt(score) && !(1 <= score.value <= 5)) ==> r == Failed(BadRequest))
      && (old_.CanEdit(caller) && !new_.ColumnsValid() ==> r == Failed(BadRequest))
      && (r == Done <==> old_.CanEdit(caller) && new_.ColumnsValid())
      && (r == Done ==> db.ratings == old(db.ratings)[id - 1 := new_])
    ensures r.Failed? ==> db.ratings == old(db.ratings) && db.users == old(db.users)
    ensures r == Done ==>
      var u := old(db.ratings[id - 1]).ratedUserId;
      && ScoreCount(db.ratings, u) > 0
      && db.users == (if u in old(db.users) then old(db.users)[u := old(db.users[u]).(reputation := ReputationOf(db.ratings, u))]
                   else old(db.users))
  {
    if !(1 <= id <= |db.ratings|) {
      return Failed(NotFound);
    }
    var old_ := db.ratings[id - 1];
    if !old_.CanEdit(caller) {
      return Failed(Forbidden);
    }
    if GivenInt(score) && (score.value < 1 || score.value > 5) {
      return Failed(BadRequest);
    }
    var new_ := Amended(old_, score, review, criteria);
    if !new_.ColumnsValid() {
      return Failed(BadRequest);
    }
    ReplaceKeepsOthersCurrent(db.users, db.ratings, id - 1, new_);
    db.ratings := db.ratings[id - 1 := new_];
    RatedUserCounted(db.ratings, id - 1);
    UpdateUserReputation(db, new_.ratedUserId);
    r := Done;
  }

  /** `POST /api/ratings/:id/helpful`: anyone but the rater adds one vote. */
  method MarkHelpful(db: Db, caller: UserId, id: int) returns (r: Result<nat>)
    requires db.Valid()
    modifies db`ratings
    ensures db.Valid()
    ensures !(1 <= id <= |old(db.ratings)|) ==> r == Err(NotFound)
    ensures 1 <= id <= |old(db.ratings)| ==>
      && (old(db.ratings[id - 1]).raterUserId == caller <==> r == Err(BadRequest))
      && (r.Ok? <==> old(db.ratings[id - 1]).raterUserId != caller)
    ensures r.Err? ==> db.ratings == old(db.ratings)
    ensures r.Ok? ==>
      && r.value == old(db.ratings[id - 1]).helpfulVotes + 1
      && db.ratings == old(db.ratings)[id - 1 := old(db.ratings[id - 1]).(helpfulVotes := r.value)]
  {
    if !(1 <= id <= |db.ratings|) {
      return Err(NotFound);
    }
    if db.ratings[id - 1].raterUserId == caller {
      return Err(BadRequest);
    }
    db.IncrementHelpful(id - 1);
    r := Ok(db.ratings[id - 1].helpfulVotes);
  }
}
