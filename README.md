# Student freelance marketplace: lifecycle core in Dafny

This project models the backend core of a student freelance marketplace.
Clients post projects, students bid on them, the client accepts one bid
and marks the project completed, and then each side rates the other. The
people involved in a project can message each other about it.

The model covers these parts:

- the project and bid state machine (`open` → `in-progress` → `completed`;
  bids go `pending` → `accepted`/`rejected`/`withdrawn`);
- the rating rules and the reputation each rating recomputes (the rounded
  mean of the scores a user has received);
- who may send, read, edit and delete a message, and the read and
  soft-delete flags;
- the decisions the authentication and authorization middleware make.

The database is a class `Database.Db`, with one field per table: users,
projects, bids, ratings, messages, and the two auto-increment counters.
Its `Valid()` predicate is the set of table invariants:

- the column validators (lengths, ranges, text that is not whitespace only)
  hold on every row;
- every bid refers to a stored project;
- a user has at most one bid per project;
- an accepted bid's project is no longer open and is assigned to that bidder;
- a rater gives at most one rating per project and direction;
- every rated user's stored reputation equals the rounded mean of their
  scores.

Each route is a method on a `Db`. It takes the id of the authenticated
caller, which is what `authenticate` produced (`Auth.Authenticate`). Each
route:

- keeps `Valid()`;
- returns the source's status code for each guard, in the source's order;
- leaves the tables unchanged on every error;
- states the exact new tables on success.

`GET /api/projects/:id` takes the optional viewer that `optionalAuth`
produced (`Auth.OptionalAuth`). Model-instance methods that update one row
in place (`incrementViews`, `markAsRead`, `softDelete`, …) are methods of
`Db`.

Encoding conventions:

- A request field that JavaScript treats as false (`undefined`, `""`, `0`)
  is `None` or a value that `Common.GivenText` / `Common.GivenInt` rejects.
- Money is in cents.
- Reputation is in hundredths: 450 stands for 4.50.
- Ratings and messages are never removed, so their ids are their positions
  in the table: row `i` has id `i + 1`, as auto-increment keys start at 1.
- Clock readings (`new Date()`) are parameters of type `Time`.
- The JWT library is a parameter `verify` of `Auth.Authenticate`. It maps a
  token to what the library reports.

Where the model follows the code rather than the documented behaviour:

- Withdrawing an accepted bid reopens its project at whatever stage the
  project has reached. The invariant proves the project is assigned to the
  bidder, so the reopening always happens, even when the project is
  already completed.
- Accepting a bid does not check that the bid is still pending. Only the
  project's state is checked.
- A message edit whose content is too long or whitespace only fails the
  column validator. The route answers that with 500, not 400.
- `POST /api/messages/:id/read` does not look at the deleted flag.
- A JWT error other than an expired or malformed token gives a 500, not a
  401.

## Model

| member | source | states |
|---|---|---|
| Projects.NewProject | backend/models/Project.js:89-110 | a created project is open, has no views, is unassigned, and is owned by exactly its poster |
| Projects.CanEditOnlyOwnerWhileOpen | backend/models/Project.js:146-152 | edit rights are the owner's and exist only while the project is open; on an open project they coincide with ownership |
| Projects.SingleEditor | backend/models/Project.js:150-152 | at most one user can edit a project |
| Bids.NewBid | backend/models/Bid.js:46-53 | a new bid is pending, unselected, and editable and withdrawable by its bidder |
| Bids.EditableIsWithdrawable | backend/models/Bid.js:92-98 | every editable bid is withdrawable |
| Bids.WithdrawalRules | backend/models/Bid.js:96-98 | rejected and withdrawn bids cannot be withdrawn; only the bidder withdraws; an accepted bid is withdrawable but not editable |
| Ratings.ParseRatingType | backend/routes/ratingRoutes.js:27-31 | a rating type is accepted iff it is one of the two wire names, and parsing returns the type of that name |
| Ratings.NewRating | backend/models/Rating.js:58-73 | a new rating is public, unverified, has no votes or reports, and only its rater can edit it |
| Ratings.AppendKeepsOneRatingPerDirection | backend/models/Rating.js:89-92 | appending a rating whose (project, rater, type) triple is new keeps that triple unique |
| Ratings.OnlyRaterEdits | backend/models/Rating.js:97-99 | a rating is editable by a user iff the user is its rater |
| Messages.Message.MarkedRead | backend/models/Message.js:101-105 | marking read sets the flag and read time and keeps content, parties and deleted flag |
| Messages.Message.SoftDeleted | backend/models/Message.js:115-119 | soft deletion sets the flag and time and keeps the row's content, parties and read flag |
| Messages.NewMessage | backend/models/Message.js:51-66 | a new message is unread and not deleted, and its sender may edit and delete it |
| Messages.EditAndDeleteRights | backend/models/Message.js:107-113 | edit and delete rights coincide and belong to the sender only |
| Messages.SoftDeleteDisablesEditing | backend/models/Message.js:107-119 | once soft-deleted, a message can be neither edited nor deleted by anyone |
| Messages.MarkAsReadIdempotentOnFlag | backend/models/Message.js:101-105 | marking read twice equals marking read once, at the later time |
| Messages.MarkReadFor | backend/routes/messageRoutes.js:207-217 | the bulk update changes exactly the caller's unread live messages of the project, marking them read |
| Messages.MarkReadForIdempotent | backend/routes/messageRoutes.js:207-217 | a second bulk marking changes nothing, so first read times are kept |
| Messages.MarkReadForLeavesNothingUnread | backend/routes/messageRoutes.js:207-217 | afterwards every live message of the project to the caller is read; rows of other projects or receivers are untouched; no content changes |
| Reputation.RoundedMean | backend/routes/ratingRoutes.js:447-450 | the result in hundredths lies within half a hundredth of the mean, with the upper half included (round half up) |
| Reputation.AppendRating | backend/routes/ratingRoutes.js:441-447 | a new rating changes only its rated user's sum and count, by its score and by one |
| Reputation.ReplaceRating | backend/routes/ratingRoutes.js:441-447 | replacing a rating changes each user's sum and count by the difference of the two rows |
| Reputation.RatedUserCounted | backend/routes/ratingRoutes.js:441-446 | a user who received some rating has a positive count, so the mean is defined |
| Reputation.ScoreSumBounds | backend/models/Rating.js:10-17 | with scores in 1..5, a user's sum lies between their count and five times their count |
| Reputation.RoundedMeanBetween | backend/routes/ratingRoutes.js:447-450 | rounding a mean that lies between two whole scores keeps it between them |
| Reputation.ReputationInRange | backend/routes/ratingRoutes.js:447-450 | a computed reputation lies in 1.00..5.00, within the users column's range |
| Reputation.UniformScores | backend/routes/ratingRoutes.js:447-450 | a user whose scores are all k gets reputation exactly k.00 |
| Reputation.UniformSum | backend/routes/ratingRoutes.js:447 | with every score k, the sum is k times the count |
| Pagination.CeilDiv | backend/routes/messageRoutes.js:223 | the page count is the fewest pages of `limit` rows that hold every row |
| Pagination.Paginate | backend/routes/messageRoutes.js:170-227 | 500 iff the limit or the offset `(page - 1) * limit` is negative; otherwise the rows are those from the offset on, at most `limit` of them, and total, page count and next/previous flags agree with the rows |
| Pagination.NextPageHasRows | backend/routes/messageRoutes.js:225 | `hasNextPage` holds iff the next page is non-empty |
| Pagination.PagesAreConsecutive | backend/routes/messageRoutes.js:170 | a page with a successor is full, and the successor's rows follow it in the table |
| Pagination.ZeroLimitAnswers | backend/routes/messageRoutes.js:170-227 | a zero limit is answered for every page number: no rows, no page count, and a next page iff there are rows at all |
| Pagination.PositiveLimitNeedsPage | backend/routes/messageRoutes.js:170 | with a positive limit the page fails with 500 iff the page number is below 1 |
| Pagination.PageIsSlice | backend/routes/messageRoutes.js:170-203 | every page is a contiguous slice of the listed rows |
| Database.OneAcceptedBidPerProject | backend/routes/projectRoutes.js:417-440 | no project ever has two accepted bids |
| Database.StoredReputationsInRange | backend/routes/ratingRoutes.js:439-457 | every rated user's stored reputation lies in 1.00..5.00 |
| Database.SameScoreKeepsTotals | backend/models/Rating.js:101-109 | a vote or report leaves every user's score sum and count unchanged |
| Database.Db.IncrementViews | backend/models/Project.js:141-144 | the project's views go up by one; nothing else changes; the invariants hold |
| Database.Db.IncrementHelpful | backend/models/Rating.js:101-104 | the rating's helpful votes go up by one; every reputation stays current |
| Database.Db.ReportRating | backend/models/Rating.js:106-109 | the rating's report count goes up by one; every reputation stays current |
| Database.Db.MarkAsRead | backend/models/Message.js:101-105 | exactly that message is marked read |
| Database.Db.MarkConversationRead | backend/routes/messageRoutes.js:207-217 | the messages table becomes the bulk marking of the old one |
| Database.Db.SoftDelete | backend/models/Message.js:115-119 | exactly that message is flagged deleted; the table keeps its length |
| ProjectRoutes.TextOr | backend/routes/projectRoutes.js:295-297 | a field given as a non-empty string replaces the stored one, otherwise the stored one is kept |
| ProjectRoutes.Drafted | backend/routes/projectRoutes.js:39-53 | a row exists iff title, description, category and budget are present; the row is open, unviewed and unassigned, and has the given fields and the column defaults |
| ProjectRoutes.CreateProject | backend/routes/projectRoutes.js:12-69 | 400 iff title, description, category or budget is absent or a validator fails; on success the next id is used and the drafted row is inserted under it; otherwise nothing changes |
| ProjectRoutes.SortField | backend/routes/projectRoutes.js:151-152 | a whitelisted sort name selects itself; anything else selects creation time |
| ProjectRoutes.SortFieldRoundTrip | backend/routes/projectRoutes.js:151-152 | every whitelisted key's name maps back to that key |
| ProjectRoutes.ReadProject | backend/routes/projectRoutes.js:205-251 | 404 iff the project is missing; a read by anyone but the owner, anonymous readers included, adds exactly one view |
| ProjectRoutes.Patched | backend/routes/projectRoutes.js:295-306 | each given field replaces the stored one; owner, status, assignee, category and views are kept |
| ProjectRoutes.EmptyPatchIsIdentity | backend/routes/projectRoutes.js:295-306 | an update carrying no field leaves the row as it was |
| ProjectRoutes.UpdateProject | backend/routes/projectRoutes.js:260-335 | 404, then 403 unless the owner edits an open project, then 400 on a failed validator; success iff editable and valid, and it stores the patched row |
| ProjectRoutes.WithoutProjectBids | backend/models/index.js:42-46 | the cascade keeps exactly the bids of other projects, unchanged |
| ProjectRoutes.DeleteProject | backend/routes/projectRoutes.js:344-377 | 404, 403 for a non-owner, 400 unless open; on success the project and exactly its bids are removed |
| ProjectRoutes.RejectPendingSiblings | backend/routes/projectRoutes.js:431-440 | exactly the project's other pending bids become rejected; every other bid is unchanged |
| ProjectRoutes.Assigned | backend/routes/projectRoutes.js:417-421 | the project becomes in progress and assigned to the bidder; other projects are unchanged |
| ProjectRoutes.AcceptedBids | backend/routes/projectRoutes.js:424-440 | the chosen bid is accepted and selected, and no bid of the project is left pending |
| ProjectRoutes.AcceptPreservesInvariants | backend/routes/projectRoutes.js:417-440 | accepting a bid on an open project keeps every bid and project invariant |
| ProjectRoutes.AcceptCheck | backend/routes/projectRoutes.js:390-414 | guards in order: 404 project, 404 bid, 403 non-owner, 400 not open, 400 foreign bid; passes iff the owner accepts a bid of their open project |
| ProjectRoutes.AcceptBid | backend/routes/projectRoutes.js:385-453 | answers as the guards do and changes nothing on failure; on success the project is assigned to the bidder, the bid accepted, and no pending bid of the project remains; the invariants hold |
| ProjectRoutes.CompleteProject | backend/routes/projectRoutes.js:461-496 | 404, then 403 for a non-owner, 400 unless in progress; success iff owner and in progress, marking the project completed |
| BidRoutes.CreateBid | backend/routes/bidRoutes.js:12-99 | guards in order: missing field 400, 404, not open 400, own project 400, existing bid 400, validator 400; success iff all pass, and inserts the new pending bid under the next id |
| BidRoutes.BidsVisibleTo | backend/routes/bidRoutes.js:106-166 | 404 iff no project; 403 iff the caller neither owns it nor has bid; the owner sees every bid of the project, a bidder only their own |
| BidRoutes.BidderSeesOnlyOwnBid | backend/routes/bidRoutes.js:120-136 | a bidder who is not the owner sees exactly their one bid |
| BidRoutes.ViewBid | backend/routes/bidRoutes.js:229-269 | 404 iff no bid; a bid is shown iff the caller is its bidder or the project's owner |
| BidRoutes.ViewBidAnswers | backend/routes/bidRoutes.js:253-259 | with the project foreign key in place no read fails with 500, and only the bidder or the owner reads a bid |
| BidRoutes.Revised | backend/routes/bidRoutes.js:302-306 | given amount, message and delivery time replace the stored ones; every other column is kept |
| BidRoutes.EditBid | backend/routes/bidRoutes.js:276-337 | 404, 403 unless the bidder edits a pending bid, 400 unless the project is open or when a validator fails; success stores the revised bid |
| BidRoutes.WithdrawBid | backend/routes/bidRoutes.js:344-393 | 404, 403 unless withdrawable by the caller; a pending bid is deleted; an accepted bid becomes withdrawn and its project open and unassigned |
| BidRoutes.WithdrawPreservesInvariants | backend/routes/bidRoutes.js:362-377 | withdrawing the accepted bid and reopening its project keeps the accepted-bid and one-bid-per-user invariants |
| RatingRoutes.CheckRating | backend/routes/ratingRoutes.js:15-97 | a rating passes iff the rating policy allows it: a completed project, owner and assignee rating each other in the declared direction, once, with score 1..5; 404 iff the project is missing; the 403 cases are exactly the wrong party |
| RatingRoutes.AppendKeepsOthersCurrent | backend/routes/ratingRoutes.js:100-111 | a new rating leaves every other user's reputation current |
| RatingRoutes.ReplaceKeepsOthersCurrent | backend/routes/ratingRoutes.js:355-362 | an edited rating leaves every other user's reputation current |
| RatingRoutes.UpdateUserReputation | backend/routes/ratingRoutes.js:439-457 | a rated user's reputation becomes the rounded mean of their scores; nothing else changes; every reputation is then current |
| RatingRoutes.CreateRating | backend/routes/ratingRoutes.js:11-152 | fails exactly when the checks do, with their code and no change; on success the row is appended under the next id and the rated user's reputation recomputed |
| RatingRoutes.SecondRatingRefused | backend/routes/ratingRoutes.js:84-97 | repeating an accepted rating request fails with 400 |
| RatingRoutes.Amended | backend/routes/ratingRoutes.js:355-359 | a given score, a present review (null included) and given criteria replace the stored ones; nothing else changes |
| RatingRoutes.UpdateRating | backend/routes/ratingRoutes.js:331-398 | 404 iff no rating has the id, 403 for anyone but the rater, 400 for a score outside 1..5 and for any amended row that fails a validator; success iff the rater's amended row is valid; on success the row is replaced and the rated user's reputation recomputed |
| RatingRoutes.MarkHelpful | backend/routes/ratingRoutes.js:405-434 | 404 iff no rating has the id; 400 iff the caller is the rater; otherwise returns the new vote count, one more than before |
| MessageRoutes.ReplyOf | backend/routes/messageRoutes.js:81 | a reply reference is stored iff one is given, and it is the given id |
| MessageRoutes.Composed | backend/routes/messageRoutes.js:73-84 | the row to insert is typed file iff it has attachments, text otherwise, and carries the content, attachments and reply reference given |
| MessageRoutes.SendCheck | backend/routes/messageRoutes.js:15-84 | guards in order: missing field 400, 404 project, 404 receiver, 403 uninvolved sender, 403 uninvolved receiver, 400 when the row fails a validator, 500 when the sender or the replied-to message is not stored; passes iff every guard does, with the composed row |
| MessageRoutes.InvolvedMaySend | backend/routes/messageRoutes.js:39-71 | a stored user involved in a project (its owner, assignee or a bidder) may send any non-blank text of 1..2000 characters to another involved user |
| MessageRoutes.SendMessage | backend/routes/messageRoutes.js:13-132 | fails iff the checks do, with their code and no change; on success the composed row is appended under the next id |
| MessageRoutes.Visible | backend/routes/messageRoutes.js:172-200 | the selection holds exactly the project's live messages, each as often as in the table |
| MessageRoutes.Insert | backend/routes/messageRoutes.js:203 | inserting into a sorted conversation keeps it sorted and adds exactly one row |
| MessageRoutes.SortByCreatedAt | backend/routes/messageRoutes.js:203 | the result is sorted by creation time and a permutation of the input |
| MessageRoutes.ConversationPage | backend/routes/messageRoutes.js:139-204 | 404 without the project, 403 unless the caller is involved; a returned page holds only stored live messages of the project, oldest first |
| MessageRoutes.ListProjectMessages | backend/routes/messageRoutes.js:139-241 | answers the conversation page of the old table; on success it then marks the caller's unread messages of the project read; on failure nothing changes |
| MessageRoutes.ConversationSliceRows | backend/routes/messageRoutes.js:172-204 | every slice of the sorted conversation holds stored live messages of the project, oldest first |
| MessageRoutes.EditMessage | backend/routes/messageRoutes.js:378-429 | guards in order: empty content 400, 404, 403 unless the sender edits a live message, 500 when the edited row fails a validator (too long or whitespace only); success iff the sender edits a live message into a valid row, and it replaces the content and stamps the edit |
| MessageRoutes.DeleteMessage | backend/routes/messageRoutes.js:436-464 | 404; success iff the sender deletes a live message, else 403; the row is soft-deleted, not removed |
| MessageRoutes.MarkMessageRead | backend/routes/messageRoutes.js:471-499 | 404; success iff the caller is the receiver, else 403; exactly that row is marked read |
| Auth.BearerToken | backend/middleware/auth.js:20-22 | the token is the text after `Bearer `, or the whole header without that prefix |
| Auth.BearerRoundTrip | backend/middleware/auth.js:20-22 | a header built as `Bearer ` plus a token yields that token back |
| Auth.Authenticate | backend/middleware/auth.js:8-70 | the request passes iff a token is present, the library decodes it, and the user exists and is active; the library's unexpected errors alone give 500, everything else 401 |
| Auth.OptionalAuth | backend/middleware/auth.js:75-103 | never refuses; the caller is known iff `authenticate` would pass, and is the same user |
| Auth.AuthenticatedUserIsActive | backend/middleware/auth.js:34-46 | whoever passes authentication is a stored, active user |
| Auth.AuthorizeProjectOwner | backend/middleware/auth.js:108-122 | 404 iff no project, passes iff the caller is its poster, 403 otherwise |
| Auth.RequireStudent | backend/middleware/auth.js:127-134 | passes iff the account is a student's, 403 otherwise |
| Auth.RequireVerified | backend/middleware/auth.js:139-146 | passes iff the account is verified, 403 otherwise |
| Scenarios.PostBidAndAccept | backend/routes/projectRoutes.js:417-440 | posting a project, two bids and accepting the first leaves it in progress and assigned, the other bid rejected, and a second accept refused |
| Scenarios.CompleteAndRateFreelancer | backend/routes/ratingRoutes.js:100-111 | after completion, the owner's 5-star rating gives the freelancer reputation 5.00 |
| Scenarios.FreelancerRatesOwner | backend/routes/ratingRoutes.js:100-111 | the freelancer's 4-star rating gives the owner reputation 4.00 and keeps the freelancer's 5.00 |
| Scenarios.AcceptCompleteAndRate | backend/routes/ratingRoutes.js:439-457 | the whole lifecycle ends with reputations 5.00 and 4.00 |
| Scenarios.WithdrawAndReaccept | backend/routes/bidRoutes.js:362-377 | after the accepted freelancer withdraws, the project reopens, the rejected bidder cannot bid again, and a third freelancer's bid can be accepted |

## Left out

- The frontend, payments, user routes and the User model's hooks (password hashing, profile fields) are not part of this model.
- Signature and expiry checks of tokens are done by the JWT library, which is the `verify` parameter of `Auth.Authenticate`.
- Database and I/O failures, which every route answers with 500 from its `catch`, are not modelled. The only 500s modelled are the ones a constraint of the model causes: a foreign key, a negative offset, or the message validator.
- The listing routes are left out because they only read and filter. These are: the project listing's filters and search, `GET /api/bids/my-bids`, the user, project and my-ratings listings, and `GET /api/messages/conversations`. Only the sort-field whitelist is modelled (`ProjectRoutes.SortField`).
- BidRoutes.BidsVisibleTo: returns the set of visible bid ids and leaves out the ordering by amount and the joined user columns.
- ProjectRoutes.DeleteProject: removes the project and its bids but not its ratings and messages, which the `ON DELETE CASCADE` of backend/models/index.js:75-79 and 119-123 also removes. In the source, a project that was completed, rated, reopened by a withdrawal and then deleted loses its ratings without `updateUserReputation` running, so the stored reputations of its parties go stale. Later `UpdateRating` and `MarkHelpful` calls on those rating ids answer 404 in the source, while the model still finds the rows.
- Database.ReputationsCurrent: holds in the model because the cascade to ratings is left out; it is not an invariant of the source after such a deletion.
- ProjectRoutes.CreateProject: a request without a budget is answered 400 here. In the source `parseFloat(undefined)` is `NaN`, which neither `allowNull: false` nor `min: 0` rejects, so what the database then does is not part of this model.
- Reputation is exact integer arithmetic in hundredths instead of a float. `Math.round(x * 100) / 100` is modelled as rounding half up in hundredths, without binary floating-point error.
- Request numbers arrive as JSON numbers. `parseInt` and `parseFloat` of strings, and the comma-separated `requirements` parsing, are left out: the model takes the parsed values.
- The 100-character width of the `location` column is not checked.
- Concurrency is not modelled. Each route runs alone, so two accepts on one project cannot interleave.
- File uploads (multer) are a parameter listing the attachment names. The rate limiter is not part of this model.
- Timestamps `createdAt` and `updatedAt` are stored only on messages, where the conversation is ordered by them.
