/**
 * components/DeliverablesModal.tsx: the deliverable creation form, its
 * validation against the current time, the assignable users and the
 * selected project.
 */
module DeliverableForm {
  import opened Wrappers
  import opened Strings
  import opened Seqs
  import opened Forms

  /** The keys of `DeliverableFormData`. */
  datatype Field = Name | ProjectId | Format | Deadline | AssignedTo | Description

  datatype DeliverableFormData = DeliverableFormData(
    name: string, projectId: string, format: string, deadline: string, assignedTo: string, description: string)

  /** The form as it opens and as `handleClose` leaves it: six empty fields. */
  const EmptyForm := DeliverableFormData("", "", "", "", "", "")

  datatype Project = Project(id: string, name: string, client: Option<string>)

  datatype UserOption = UserOption(id: string, name: string, email: string, role: string)

  /** `formData[field]`. */
  function Get(form: DeliverableFormData, field: Field): string {
    match field
    case Name => form.name
    case ProjectId => form.projectId
    case Format => form.format
    case Deadline => form.deadline
    case AssignedTo => form.assignedTo
    case Description => form.description
  }

  /** `{ ...prev, [field]: value }`: only the named field takes the new value. */
  function With(form: DeliverableFormData, field: Field, value: string): (r: DeliverableFormData)
    ensures Get(r, field) == value
    ensures forall f :: f != field ==> Get(r, f) == Get(form, f)
  {
    match field
    case Name => form.(name := value)
    case ProjectId => form.(projectId := value)
    case Format => form.(format := value)
    case Deadline => form.(deadline := value)
    case AssignedTo => form.(assignedTo := value)
    case Description => form.(description := value)
  }

  // ---- Assignable users ----

  /** A user the modal offers as assignee: a plain user or a client. */
  predicate Assignable(u: UserOption) {
    u.role == "user" || u.role == "client"
  }

  /**
   * `getAvailableUsers()`. Both branches of the role test filter the same way,
   * so the role of the person creating the deliverable makes no difference.
   */
  function AvailableUsers(users: seq<UserOption>, currentUserRole: string): (r: seq<UserOption>)
    ensures forall u :: u in r <==> u in users && Assignable(u)
    ensures IsSubsequence(r, users)
  {
    FilterIsSubsequence(users, (u: UserOption) => Assignable(u));
    if currentUserRole == "super_admin" || currentUserRole == "admin" then
      Filter(users, (u: UserOption) => Assignable(u))
    else
      Filter(users, (u: UserOption) => Assignable(u))
  }

  /** Whoever opens the modal is offered the same users. */
  lemma AvailableUsersIgnoreRole(users: seq<UserOption>, role1: string, role2: string)
    ensures AvailableUsers(users, role1) == AvailableUsers(users, role2)
  {
  }

  // ---- The selected project ----

  /** `projects.find(p => p.id === formData.projectId)`. */
  function SelectedProject(projects: seq<Project>, id: string): (r: Option<Project>)
    ensures r.Some? ==> r.value in projects && r.value.id == id
    ensures r.None? <==> forall i :: 0 <= i < |projects| ==> projects[i].id != id
  {
    if projects == [] then None
    else if projects[0].id == id then Some(projects[0])
    else SelectedProject(projects[1..], id)
  }

  /** The project found is the first one with that id. */
  lemma {:induction false} SelectedProjectIsFirst(projects: seq<Project>, id: string, i: nat)
    requires i < |projects| && projects[i].id == id
    requires forall j :: 0 <= j < i ==> projects[j].id != id
    ensures SelectedProject(projects, id) == Some(projects[i])
  {
    if i > 0 {
      SelectedProjectIsFirst(projects[1..], id, i - 1);
    }
  }

  // ---- Validation ----

  const NameRequired := "Le nom du livrable est requis"
  const ProjectRequired := "Un projet doit être sélectionné"
  const FormatRequired := "Le format est requis"
  const DeadlineRequired := "La date limite est requise"
  const DeadlineInPast := "La date limite doit être dans le futur"
  const AssigneeRequired := "Un assignataire doit être sélectionné"

  /**
   * The error map `validateForm` builds, given the outcome of each check: a
   * field is recorded only when it fails, and a missing deadline is reported
   * before a past one.
   */
  function ErrorMap(nameBlank: bool, noProject: bool, noFormat: bool, noDeadline: bool,
                    deadlinePast: bool, noAssignee: bool): (m: map<Field, string>)
    ensures Name in m <==> nameBlank
    ensures ProjectId in m <==> noProject
    ensures Format in m <==> noFormat
    ensures Deadline in m <==> noDeadline || deadlinePast
    ensures AssignedTo in m <==> noAssignee
    ensures Description !in m
    ensures nameBlank ==> m[Name] == NameRequired
    ensures noProject ==> m[ProjectId] == ProjectRequired
    ensures noFormat ==> m[Format] == FormatRequired
    ensures noDeadline ==> m[Deadline] == DeadlineRequired
    ensures !noDeadline && deadlinePast ==> m[Deadline] == DeadlineInPast
    ensures noAssignee ==> m[AssignedTo] == AssigneeRequired
  {
    var e0: map<Field, string> := map[];
    var e1 := if nameBlank then e0[Name := NameRequired] else e0;
    var e2 := if noProject then e1[ProjectId := ProjectRequired] else e1;
    var e3 := if noFormat then e2[Format := FormatRequired] else e2;
    var e4 := if noDeadline then e3[Deadline := DeadlineRequired]
      else if deadlinePast then e3[Deadline := DeadlineInPast] else e3;
    if noAssignee then e4[AssignedTo := AssigneeRequired] else e4
  }

  /** `newErrors` filled field by field, in the order `validateForm` checks them. */
  method CollectErrors(nameBlank: bool, noProject: bool, noFormat: bool, noDeadline: bool,
                       deadlinePast: bool, noAssignee: bool) returns (newErrors: map<Field, string>)
    ensures newErrors == ErrorMap(nameBlank, noProject, noFormat, noDeadline, deadlinePast, noAssignee)
  {
    newErrors := map[];
    if nameBlank {
      newErrors := newErrors[Name := NameRequired];
    }
    if noProject {
      newErrors := newErrors[ProjectId := ProjectRequired];
    }
    if noFormat {
      newErrors := newErrors[Format := FormatRequired];
    }
    if noDeadline {
      newErrors := newErrors[Deadline := DeadlineRequired];
    } else if deadlinePast {
      newErrors := newErrors[Deadline := DeadlineInPast];
    }
    if noAssignee {
      newErrors := newErrors[AssignedTo := AssigneeRequired];
    }
  }

  /**
   * The errors `validateForm` reports, with `now` standing for `new Date()`
   * and `dayOf` for the instant `new Date(deadline)` denotes.
   */
  function FormErrors(form: DeliverableFormData, now: int, dayOf: string -> int): (errors: map<Field, string>)
    ensures Name in errors <==> AllSpace(form.name)
    ensures ProjectId in errors <==> form.projectId == ""
    ensures Format in errors <==> form.format == ""
    ensures Deadline in errors <==> form.deadline == "" || dayOf(form.deadline) < now
    ensures AssignedTo in errors <==> form.assignedTo == ""
    ensures Description !in errors
    ensures AllSpace(form.name) ==> errors[Name] == NameRequired
    ensures form.projectId == "" ==> errors[ProjectId] == ProjectRequired
    ensures form.format == "" ==> errors[Format] == FormatRequired
    ensures form.deadline == "" ==> errors[Deadline] == DeadlineRequired
    ensures form.deadline != "" && dayOf(form.deadline) < now ==> errors[Deadline] == DeadlineInPast
    ensures form.assignedTo == "" ==> errors[AssignedTo] == AssigneeRequired
  {
    ErrorMap(AllSpace(form.name), form.projectId == "", form.format == "", form.deadline == "",
             dayOf(form.deadline) < now, form.assignedTo == "")
  }

  /**
   * The form is accepted exactly when the name has text, a project, a format,
   * a deadline and an assignee are chosen, and the deadline is not in the past.
   */
  predicate Valid(form: DeliverableFormData, now: int, dayOf: string -> int) {
    && !AllSpace(form.name) && form.projectId != "" && form.format != ""
    && form.deadline != "" && dayOf(form.deadline) >= now && form.assignedTo != ""
  }

  lemma NoErrorsIffValid(form: DeliverableFormData, now: int, dayOf: string -> int)
    ensures |FormErrors(form, now, dayOf)| == 0 <==> Valid(form, now, dayOf)
  {
    var errors := FormErrors(form, now, dayOf);
    if !Valid(form, now, dayOf) {
      if AllSpace(form.name) { assert Name in errors; }
      else if form.projectId == "" { assert ProjectId in errors; }
      else if form.format == "" { assert Format in errors; }
      else if form.deadline == "" || dayOf(form.deadline) < now { assert Deadline in errors; }
      else { assert AssignedTo in errors; }
    } else {
      assert errors == map[];
    }
  }

  /** A missing deadline is reported as missing, whatever the time. */
  lemma MissingDeadlineIsRequired(form: DeliverableFormData, now: int, dayOf: string -> int)
    requires form.deadline == ""
    ensures Deadline in FormErrors(form, now, dayOf) && FormErrors(form, now, dayOf)[Deadline] == DeadlineRequired
  {
  }

  /** The description is optional: it never decides whether the form is accepted. */
  lemma DescriptionIgnored(form: DeliverableFormData, description: string, now: int, dayOf: string -> int)
    ensures Valid(form.(description := description), now, dayOf) <==> Valid(form, now, dayOf)
  {
  }

  /** The state of the modal: the form and the errors last reported. */
  class DeliverablesModal {
    var form: DeliverableFormData
    var errors: map<Field, string>

    constructor ()
      ensures form == EmptyForm && errors == map[]
    {
      form := EmptyForm;
      errors := map[];
    }

    /** `handleChange(field, value)`. */
    method HandleChange(field: Field, value: string)
      modifies this
      ensures form == With(old(form), field, value)
      ensures errors == ClearError(old(errors), field)
    {
      form := With(form, field, value);
      if field in errors && errors[field] != "" {
        errors := errors[field := ""];
      }
    }

    /** `validateForm()`: run each check, rebuild the errors from them and report whether there are none. */
    method ValidateForm(now: int, dayOf: string -> int) returns (ok: bool)
      modifies this`errors
      ensures errors == FormErrors(form, now, dayOf)
      ensures ok <==> Valid(form, now, dayOf)
    {
      var newErrors := CollectErrors(AllSpace(form.name), form.projectId == "", form.format == "",
                                     form.deadline == "", dayOf(form.deadline) < now, form.assignedTo == "");
      errors := newErrors;
      NoErrorsIffValid(form, now, dayOf);
      ok := |newErrors| == 0;
    }

    /** `handleClose()`: all six fields back to empty and no errors. */
    method HandleClose()
      modifies this
      ensures form == EmptyForm && errors == map[]
      ensures forall f :: Get(form, f) == ""
    {
      form := EmptyForm;
      errors := map[];
    }
  }
}
