/** A message between two participants of a project. */
module Messages {
  import opened Common

  datatype MessageType = Text | File | Image | System

  /** One row of the messages table. */
  datatype Message = Message(
    content: string,
    senderId: UserId,
    receiverId: UserId,
    projectId: ProjectId,
    messageType: MessageType,
    attachments: seq<string>,
    isRead: bool,
    readAt: Option<Time>,
    editedAt: Option<Time>,
    isDeleted: bool,
    deletedAt: Option<Time>,
    replyToId: Option<int>,
    createdAt: Time)
  {
    predicate CanEdit(u: UserId) {
      senderId == u && !isDeleted
    }

    predicate CanDelete(u: UserId) {
      senderId == u && !isDeleted
    }

    /** The column validators: content of 1 to 2000 characters that is not
        whitespace only. */
    predicate ColumnsValid() {
      1 <= |content| <= 2000 && NotBlank(content)
    }

    /** The row after `markAsRead`. */
    function MarkedRead(now: Time): (m: Message)
      ensures m.isRead && m.readAt == Some(now)
      ensures m.content == content && m.isDeleted == isDeleted
      ensures m.senderId == senderId && m.receiverId == receiverId && m.projectId == projectId
    {
      this.(isRead := true, readAt := Some(now))
    }

    /** The row after `softDelete`: it stays in the table, flagged. */
    function SoftDeleted(now: Time): (m: Message)
      ensures m.isDeleted && m.deletedAt == Some(now)
      ensures m.content == content && m.isRead == isRead
      ensures m.senderId == senderId && m.receiverId == receiverId && m.projectId == projectId
    {
      this.(isDeleted := true, deletedAt := Some(now))
    }
  }

  /** A row as `Message.create` stores it: unread and not deleted. */
  function NewMessage(
    content: string, sender: UserId, receiver: UserId, project: ProjectId,
    replyTo: Option<int>, messageType: MessageType, attachments: seq<string>,
    now: Time): (m: Message)
    ensures !m.isRead && !m.isDeleted && m.readAt == None && m.deletedAt == None
    ensures m.senderId == sender && m.receiverId == receiver && m.projectId == project
    ensures m.CanEdit(sender) && m.CanDelete(sender)
  {
    Message(content, sender, receiver, project, messageType, attachments,
            false, None, None, false, None, replyTo, now)
  }

  /** Edit and delete rights coincide: the sender, until the message is deleted. */
  lemma EditAndDeleteRights(m: Message, u: UserId)
    ensures m.CanEdit(u) <==> m.CanDelete(u)
    ensures m.CanEdit(u) ==> u == m.senderId
  {
  }

  /** A soft-deleted message can be edited or deleted by nobody. */
  lemma SoftDeleteDisablesEditing(m: Message, now: Time, u: UserId)
    ensures !m.SoftDeleted(now).CanEdit(u) && !m.SoftDeleted(now).CanDelete(u)
  {
  }

  /** Marking read twice leaves the flag where the first marking put it. */
  lemma MarkAsReadIdempotentOnFlag(m: Message, t1: Time, t2: Time)
    ensures m.MarkedRead(t1).MarkedRead(t2).isRead == m.MarkedRead(t1).isRead
    ensures m.MarkedRead(t1).MarkedRead(t2) == m.MarkedRead(t2)
  {
  }

  /** `Message.update({isRead: true, readAt}, {where: {projectId, receiverId,
      isRead: false, isDeleted: false}})`. */
  function MarkReadFor(ms: seq<Message>, pid: ProjectId, u: UserId, now: Time): (r: seq<Message>)
    ensures |r| == |ms|
    ensures forall i :: 0 <= i < |ms| ==>
      r[i] == (if ms[i].projectId == pid && ms[i].receiverId == u && !ms[i].isRead && !ms[i].isDeleted
               then ms[i].MarkedRead(now) else ms[i])
  {
    seq(|ms|, i requires 0 <= i < |ms| =>
      if ms[i].projectId == pid && ms[i].receiverId == u && !ms[i].isRead && !ms[i].isDeleted
      then ms[i].MarkedRead(now) else ms[i])
  }

  /** Reading a conversation twice marks nothing the second time, and a
      message read earlier keeps its first read time. */
  lemma MarkReadForIdempotent(ms: seq<Message>, pid: ProjectId, u: UserId, t1: Time, t2: Time)
    ensures MarkReadFor(MarkReadFor(ms, pid, u, t1), pid, u, t2) == MarkReadFor(ms, pid, u, t1)
  {
    var once := MarkReadFor(ms, pid, u, t1);
    var twice := MarkReadFor(once, pid, u, t2);
    forall i | 0 <= i < |ms| ensures twice[i] == once[i] {
    }
  }

  /** After the listing, the caller has no unread live message left in the
      project, and every other row is as it was. */
  lemma MarkReadForLeavesNothingUnread(ms: seq<Message>, pid: ProjectId, u: UserId, now: Time)
    ensures forall i :: 0 <= i < |ms| && ms[i].projectId == pid && ms[i].receiverId == u && !ms[i].isDeleted ==>
      MarkReadFor(ms, pid, u, now)[i].isRead
    ensures forall i :: 0 <= i < |ms| && (ms[i].projectId != pid || ms[i].receiverId != u) ==>
      MarkReadFor(ms, pid, u, now)[i] == ms[i]
    ensures forall i :: 0 <= i < |ms| ==> MarkReadFor(ms, pid, u, now)[i].content == ms[i].content
  {
  }
}
