/** The message routes: send, list a project's conversation (marking it
    read), edit, delete and mark one message read. */
module MessageRoutes {
  import opened Common
  import opened Users
  import opened Projects
  import opened Bids
  import opened Messages
  import opened Pagination
  import opened Database

  /** Who takes part in a project's conversation: its owner, its assignee and
      everyone who has bid on it. */
  predicate Involved(project: Project, bids: map<BidId, Bid>, u: UserId, pid: ProjectId) {
    project.postedBy == u || project.assignedTo == Some(u) || HasBid(bids, u, pid)
  }

  /** The reply a request names: `replyToId ? parseInt(replyToId) : null`. */
  function ReplyOf(replyToId: Option<int>): (reply: Option<int>)
    ensures reply.Some? <==> GivenInt(replyToId)
    ensures reply.Some? ==> reply == replyToId
  {
    if GivenInt(replyToId) then replyToId else None
  }

  /** The row `POST /api/messages` would store: a message with attachments
      has type file, any other type text. */
  function Composed(content: string, sender: UserId, receiver: UserId, pid: ProjectId,
                    replyToId: Option<int>, attachments: seq<string>, now: Time): (m: Message)
    ensures m.messageType == File <==> |attachments| > 0
    ensures m.messageType == Text <==> |attachments| == 0
    ensures m.content == content && m.attachments == attachments && m.replyToId == ReplyOf(replyToId)
    ensures m == NewMessage(content, sender, receiver, pid, ReplyOf(replyToId), m.messageType, attachments, now)
  {
    NewMessage(content, sender, receiver, pid, ReplyOf(replyToId),
               if |attachments| > 0 then File else Text, attachments, now)
  }

  /** The foreign keys a new message must satisfy: a stored sender, and a
      reply, when there is one, to a stored message (ids start at 1). */
  predicate KeysExist(users: map<UserId, User>, ms: seq<Message>, sender: UserId, reply: Option<int>) {
    sender in users && (reply.Some? ==> 1 <= reply.value <= |ms|)
  }

  /** The checks of `POST /api/messages` in the source's order, ending in the
      row to insert. The column validators fail with 400, from the route's
      `catch`; a broken foreign key fails with 500, as the database would
      reject the insert. */
  function SendCheck(projects: map<ProjectId, Project>, bids: map<BidId, Bid>, users: map<UserId, User>,
                     ms: seq<Message>, caller: UserId, content: Option<string>, receiverId: Option<int>,
                     projectId: Option<int>, replyToId: Option<int>, attachments: seq<string>, now: Time)
    : (r: Result<Message>)
    ensures !(GivenText(content) && GivenInt(receiverId) && GivenInt(projectId)) ==> r == Err(BadRequest)
    ensures GivenText(content) && GivenInt(receiverId) && GivenInt(projectId) ==>
      var pid, to := projectId.value, receiverId.value;
      var m := Composed(content.value, caller, to, pid, replyToId, attachments, now);
      && (pid !in projects ==> r == Err(NotFound))
      && (pid in projects && to !in users ==> r == Err(NotFound))
      && (pid in projects && to in users ==>
          && (!Involved(projects[pid], bids, caller, pid) ==> r == Err(Forbidden))
          && (Involved(projects[pid], bids, caller, pid) && !Involved(projects[pid], bids, to, pid)
              ==> r == Err(Forbidden))
          && (Involved(projects[pid], bids, caller, pid) && Involved(projects[pid], bids, to, pid)
              ==> && (!m.ColumnsValid() ==> r == Err(BadRequest))
                  && (m.ColumnsValid() && !KeysExist(users, ms, caller, ReplyOf(replyToId)) ==> r == Err(ServerError))))
    ensures r.Ok? <==>
      && GivenText(content) && GivenInt(receiverId) && GivenInt(projectId)
      && projectId.value in projects && receiverId.value in users
      && Involved(projects[projectId.value], bids, caller, projectId.value)
      && Involved(projects[projectId.value], bids, receiverId.value, projectId.value)
      && Composed(content.value, caller, receiverId.value, projectId.value, replyToId, attachments, now).ColumnsValid()
      && KeysExist(users, ms, caller, ReplyOf(replyToId))
    ensures r.Ok? ==> r.value == Composed(content.value, caller, receiverId.value, projectId.value, replyToId, attachments, now)
  {
    if !(GivenText(content) && GivenInt(receiverId) && GivenInt(projectId)) then Err(BadRequest)
    else
      var pid, to := projectId.value, receiverId.value;
      if pid !in projects then Err(NotFound)
      else if to !in users then Err(NotFound)
      else if !Involved(projects[pid], bids, caller, pid) then Err(Forbidden)
      else if !Involved(projects[pid], bids, to, pid) then Err(Forbidden)
      else
        var m := Composed(content.value, caller, to, pid, replyToId, attachments, now);
        if !m.ColumnsValid() then Err(BadRequest)
        else if !KeysExist(users, ms, caller, ReplyOf(replyToId)) then Err(ServerError)
        else Ok(m)
  }

  /** Everyone involved in a project may write to anyone else involved, once
      the content is valid and the reply, if any, exists. */
  lemma InvolvedMaySend(projects: map<ProjectId, Project>, bids: map<BidId, Bid>, users: map<UserId, User>,
                        ms: seq<Message>, caller: UserId, to: UserId, pid: ProjectId, content: string,
                        now: Time)
    requires pid in projects && to in users && caller in users && pid != 0 && to != 0
    requires Involved(projects[pid], bids, caller, pid) && Involved(projects[pid], bids, to, pid)
    requires 1 <= |content| <= 2000 && !IsJsSpace(content[0])
    ensures SendCheck(projects, bids, users, ms, caller, Some(content), Some(to), Some(pid), None, [], now).Ok?
  {
    assert Composed(content, caller, to, pid, None, [], now).ColumnsValid();
  }

  /** `POST /api/messages`: the checks of `SendCheck`, then the row is appended
      and gets the next id. */
  method SendMessage(db: Db, caller: UserId, content: Option<string>, receiverId: Option<int>,
                     projectId: Option<int>, replyToId: Option<int>, attachments: seq<string>, now: Time)
    returns (r: Result<int>)
    requires db.Valid()
    modifies db`messages
    ensures db.Valid()
    ensures r.Err? <==> SendCheck(db.projects, db.bids, db.users, old(db.messages), caller, content, receiverId,
                                  projectId, replyToId, attachments, now).Err?
    ensures r.Err? ==>
      && r.code == SendCheck(db.projects, db.bids, db.users, old(db.messages), caller, content, receiverId,
                             projectId, replyToId, attachments, now).code
      && db.messages == old(db.messages)
    ensures r.Ok? ==>
      && r.value == |old(db.messages)| + 1
      && db.messages == old(db.messages) + [SendCheck(db.projects, db.bids, db.users, old(db.messages), caller,
                                                      content, receiverId, projectId, replyToId, attachments, now).value]
  {
    var c := SendCheck(db.projects, db.bids, db.users, db.messages, caller, content, receiverId, projectId,
                       replyToId, attachments, now);
    if c.Err? {
      return Err(c.code);
    }
    r := Ok(|db.messages| + 1);
    db.messages := db.messages + [c.value];
  }

  /** `WHERE projectId = pid AND isDeleted = false`, in table order. */
  function Visible(ms: seq<Message>, pid: ProjectId): (r: seq<Message>)
    ensures |r| <= |ms|
    ensures forall m :: m in r <==> m in ms && m.projectId == pid && !m.isDeleted
    ensures forall m :: multiset(r)[m] == if m.projectId == pid && !m.isDeleted then multiset(ms)[m] else 0
  {
    if ms == [] then []
    else
      assert ms == [ms[0]] + ms[1..];
      assert multiset(ms) == multiset{ms[0]} + multiset(ms[1..]);
      var head := if ms[0].projectId == pid && !ms[0].isDeleted then [ms[0]] else [];
      var rest := Visible(ms[1..], pid);
      assert multiset(head + rest) == multiset(head) + multiset(rest);
      head + rest
  }

  ghost predicate SortedByCreatedAt(ms: seq<Message>) {
    forall i, j :: 0 <= i < j < |ms| ==> ms[i].createdAt.ticks <= ms[j].createdAt.ticks
  }

  /** `m` placed before the first row of `ms` created after it. */
  function Insert(m: Message, ms: seq<Message>): (r: seq<Message>)
    requires SortedByCreatedAt(ms)
    ensures SortedByCreatedAt(r)
    ensures multiset(r) == multiset(ms) + multiset{m}
    ensures |r| == |ms| + 1 && (r[0] == m || (ms != [] && r[0] == ms[0]))
  {
    if ms == [] || m.createdAt.ticks <= ms[0].createdAt.ticks then
      ConsSorted(m, ms);
      [m] + ms
    else
      var rest := Insert(m, ms[1..]);
      assert multiset(ms) == multiset{ms[0]} + multiset(ms[1..]) by {
        assert ms == [ms[0]] + ms[1..];
      }
      ConsSorted(ms[0], rest);
      assert multiset([ms[0]] + rest) == multiset{ms[0]} + multiset(rest);
      [ms[0]] + rest
  }

  /** A row no later than the first of a sorted conversation can lead it. */
  lemma ConsSorted(m: Message, ms: seq<Message>)
    requires SortedByCreatedAt(ms)
    requires ms != [] ==> m.createdAt.ticks <= ms[0].createdAt.ticks
    ensures SortedByCreatedAt([m] + ms)
  {
    var r := [m] + ms;
    forall i, j | 0 <= i < j < |r| ensures r[i].createdAt.ticks <= r[j].createdAt.ticks {
      if i == 0 {
        assert r[j] == ms[j - 1];
      } else {
        assert r[i] == ms[i - 1] && r[j] == ms[j - 1];
      }
    }
  }

  /** `ORDER BY createdAt ASC`: the same rows, oldest first. */
  function SortByCreatedAt(ms: seq<Message>): (r: seq<Message>)
    ensures SortedByCreatedAt(r)
    ensures multiset(r) == multiset(ms)
  {
    if ms == [] then []
    else
      assert ms == [ms[0]] + ms[1..];
      Insert(ms[0], SortByCreatedAt(ms[1..]))
  }

  /** The answer of `GET /api/messages/project/:projectId`: one page of the
      project's live messages, oldest first, for those involved in it. */
  function ConversationPage(projects: map<ProjectId, Project>, bids: map<BidId, Bid>, ms: seq<Message>,
                            caller: UserId, pid: ProjectId, page: int, limit: int): (r: Result<Page<Message>>)
    ensures pid !in projects ==> r == Err(NotFound)
    ensures pid in projects && !Involved(projects[pid], bids, caller, pid) ==> r == Err(Forbidden)
    ensures pid in projects && Involved(projects[pid], bids, caller, pid) ==>
      r == Paginate(SortByCreatedAt(Visible(ms, pid)), page, limit)
    ensures r.Ok? ==>
      && (forall k :: 0 <= k < |r.value.rows| ==>
            r.value.rows[k] in ms && r.value.rows[k].projectId == pid && !r.value.rows[k].isDeleted)
      && SortedByCreatedAt(r.value.rows)
  {
    if pid !in projects then Err(NotFound)
    else if !Involved(projects[pid], bids, caller, pid) then Err(Forbidden)
    else
      var p := Paginate(SortByCreatedAt(Visible(ms, pid)), page, limit);
      if p.Ok? then ConversationPageRows(ms, pid, page, limit); p else p
  }

  /** `GET /api/messages/project/:projectId`: the page is read first, then
      the caller's unread live messages in the project are marked read. */
  method ListProjectMessages(db: Db, caller: UserId, pid: ProjectId, page: int, limit: int, now: Time)
    returns (r: Result<Page<Message>>)
    requires db.Valid()
    modifies db`messages
    ensures db.Valid()
    ensures r == ConversationPage(db.projects, db.bids, old(db.messages), caller, pid, page, limit)
    ensures r.Err? ==> db.messages == old(db.messages)
    ensures r.Ok? ==> db.messages == MarkReadFor(old(db.messages), pid, caller, now)
  {
    r := ConversationPage(db.projects, db.bids, db.messages, caller, pid, page, limit);
    if r.Ok? {
      db.MarkConversationRead(pid, caller, now);
    }
  }

  lemma SliceKeepsOrder(ms: seq<Message>, lo: int, hi: int)
    requires SortedByCreatedAt(ms) && 0 <= lo <= hi <= |ms|
    ensures SortedByCreatedAt(ms[lo..hi])
  {
    forall i, j | 0 <= i < j < hi - lo
      ensures ms[lo..hi][i].createdAt.ticks <= ms[lo..hi][j].createdAt.ticks
    {
      assert ms[lo..hi][i] == ms[lo + i] && ms[lo..hi][j] == ms[lo + j];
    }
  }

  /** Any slice of the sorted conversation holds live messages of the
      project only, oldest first. */
  lemma ConversationSliceRows(ms: seq<Message>, pid: ProjectId, lo: int, hi: int)
    requires 0 <= lo <= hi <= |SortByCreatedAt(Visible(ms, pid))|
    ensures var rows := SortByCreatedAt(Visible(ms, pid))[lo..hi];
      && (forall k :: 0 <= k < |rows| ==> rows[k] in ms && rows[k].projectId == pid && !rows[k].isDeleted)
      && SortedByCreatedAt(rows)
  {
    var visible := Visible(ms, pid);
    var all := SortByCreatedAt(visible);
    var rows := all[lo..hi];
    forall k | 0 <= k < |rows| ensures rows[k] in ms && rows[k].projectId == pid && !rows[k].isDeleted {
      assert rows[k] == all[lo + k];
      assert all[lo + k] in multiset(all);
      assert all[lo + k] in visible;
    }
    SliceKeepsOrder(all, lo, hi);
  }

  /** Every row of a conversation page belongs to the project, is not
      deleted, and the rows come oldest first. */
  lemma ConversationPageRows(ms: seq<Message>, pid: ProjectId, page: int, limit: int)
    requires Paginate(SortByCreatedAt(Visible(ms, pid)), page, limit).Ok?
    ensures var rows := Paginate(SortByCreatedAt(Visible(ms, pid)), page, limit).value.rows;
      && (forall k :: 0 <= k < |rows| ==> rows[k] in ms && rows[k].projectId == pid && !rows[k].isDeleted)
      && SortedByCreatedAt(rows)
  {
    var lo, hi := PageIsSlice(SortByCreatedAt(Visible(ms, pid)), page, limit);
    ConversationSliceRows(ms, pid, lo, hi);
  }

  /** `PUT /api/messages/:id`: the sender replaces the content of a live
      message. Content that fails the column validators (over-long, or
      whitespace only) is answered with 500 by this route. */
  method EditMessage(db: Db, caller: UserId, id: int, content: Option<string>, now: Time) returns (r: Outcome)
    requires db.Valid()
    modifies db`messages
    ensures db.Valid()
    ensures !GivenText(content) ==> r == Failed(BadRequest)
    ensures GivenText(content) && !(1 <= id <= |old(db.messages)|) ==> r == Failed(NotFound)
    ensures GivenText(content) && 1 <= id <= |old(db.messages)| ==>
      var m := old(db.messages[id - 1]);
      var edited := m.(content := content.value, editedAt := Some(now));
      && (!m.CanEdit(caller) ==> r == Failed(Forbidden))
      && (m.CanEdit(caller) && !edited.ColumnsValid() ==> r == Failed(ServerError))
      && (r == Done <==> m.CanEdit(caller) && edited.ColumnsValid())
      && (r == Done ==> db.messages == old(db.messages)[id - 1 := edited])
    ensures r.Failed? ==> db.messages == old(db.messages)
  {
    if !GivenText(content) {
      return Failed(BadRequest);
    }
    if !(1 <= id <= |db.messages|) {
      return Failed(NotFound);
    }
    var m := db.messages[id - 1];
    if !m.CanEdit(caller) {
      return Failed(Forbidden);
    }
    var edited := m.(content := content.value, editedAt := Some(now));
    if !edited.ColumnsValid() {
      return Failed(ServerError);
    }
    db.messages := db.messages[id - 1 := edited];
    r := Done;
  }

  /** `DELETE /api/messages/:id`: the sender soft-deletes a live message. */
  method DeleteMessage(db: Db, caller: UserId, id: int, now: Time) returns (r: Outcome)
    requires db.Valid()
    modifies db`messages
    ensures db.Valid()
    ensures !(1 <= id <= |old(db.messages)|) ==> r == Failed(NotFound)
    ensures 1 <= id <= |old(db.messages)| ==>
      && (r == Done <==> old(db.messages[id - 1]).CanDelete(caller))
      && (r.Failed? ==> r == Failed(Forbidden))
      && (r == Done ==> db.messages == old(db.messages)[id - 1 := old(db.messages[id - 1]).SoftDeleted(now)])
    ensures r.Failed? ==> db.messages == old(db.messages)
  {
    if !(1 <= id <= |db.messages|) {
      return Failed(NotFound);
    }
    if !db.messages[id - 1].CanDelete(caller) {
      return Failed(Forbidden);
    }
    db.SoftDelete(id - 1, now);
    r := Done;
  }

  /** `POST /api/messages/:id/read`: only the receiver; the route does not
      look at the deleted flag. */
  method MarkMessageRead(db: Db, caller: UserId, id: int, now: Time) returns (r: Outcome)
    requires db.Valid()
    modifies db`messages
    ensures db.Valid()
    ensures !(1 <= id <= |old(db.messages)|) ==> r == Failed(NotFound)
    ensures 1 <= id <= |old(db.messages)| ==>
      && (r == Done <==> old(db.messages[id - 1]).receiverId == caller)
      && (r.Failed? ==> r == Failed(Forbidden))
      && (r == Done ==> db.messages == old(db.messages)[id - 1 := old(db.messages[id - 1]).MarkedRead(now)])
    ensures r.Failed? ==> db.messages == old(db.messages)
  {
    if !(1 <= id <= |db.messages|) {
      return Failed(NotFound);
    }
    if db.messages[id - 1].receiverId != caller {
      return Failed(Forbidden);
    }
    db.MarkAsRead(id - 1, now);
    r := Done;
  }
}
