/** A project listing and the predicates the routes use to guard it. */
module Projects {
  import opened Common

  datatype ProjectStatus = Open | InProgress | Completed | Cancelled | Disputed

  datatype Category =
    | AcademicTutoring | CreativeDesign | TechServices | Photography
    | FitnessTraining | LanguageLearning | EventManagement | ContentWriting
    | OtherCategory

  datatype BudgetType = Fixed | Hourly

  datatype Priority = Low | Medium | High | Urgent

  /** One row of the projects table; `budget` is in cents. */
  datatype Project = Project(
    title: string,
    description: string,
    category: Category,
    budget: int,
    budgetType: BudgetType,
    deadline: Option<Time>,
    location: Option<string>,
    isRemote: bool,
    requirements: seq<string>,
    attachments: seq<string>,
    postedBy: UserId,
    assignedTo: Option<UserId>,
    status: ProjectStatus,
    priority: Priority,
    views: nat,
    isUrgent: bool,
    completedAt: Option<Time>,
    acceptedAt: Option<Time>)
  {
    predicate IsOwner(u: UserId) {
      postedBy == u
    }

    predicate CanEdit(u: UserId) {
      postedBy == u && status == Open
    }

    /** The column validators: a title of 5 to 200 characters, a description
        of 20 to 5000, neither of them whitespace only, and a budget of at
        least 0. */
    predicate ColumnsValid() {
      && 5 <= |title| <= 200 && NotBlank(title)
      && 20 <= |description| <= 5000 && NotBlank(description)
      && budget >= 0
    }
  }

  /** A row as `Project.create` stores it: the columns the caller gives, the
      column defaults for the rest. */
  function NewProject(
    owner: UserId, title: string, description: string, category: Category,
    budget: int, budgetType: BudgetType, deadline: Option<Time>,
    location: Option<string>, isRemote: bool, requirements: seq<string>,
    attachments: seq<string>, priority: Priority, isUrgent: bool): (p: Project)
    ensures p.status == Open && p.views == 0
    ensures p.postedBy == owner && p.assignedTo == None
    ensures p.acceptedAt == None && p.completedAt == None
    ensures p.IsOwner(owner) && (forall u :: p.IsOwner(u) ==> u == owner)
  {
    Project(title, description, category, budget, budgetType, deadline,
            location, isRemote, requirements, attachments, owner, None, Open,
            priority, 0, isUrgent, None, None)
  }

  /** Only the owner may edit, and only while the project is open. */
  lemma CanEditOnlyOwnerWhileOpen(p: Project, u: UserId)
    ensures p.CanEdit(u) ==> p.IsOwner(u) && p.status == Open
    ensures p.status != Open ==> !p.CanEdit(u)
    ensures p.status == Open ==> (p.CanEdit(u) <==> p.IsOwner(u))
  {
  }

  /** At most one user owns a project, so at most one can edit it. */
  lemma SingleEditor(p: Project, u: UserId, v: UserId)
    requires p.CanEdit(u) && p.CanEdit(v)
    ensures u == v
  {
  }
}
