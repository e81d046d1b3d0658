/**
 * components/CreateProjectModal.tsx: the project form, the participant
 * selection (toggle, remove, add, merge of the fetched users), the search
 * over participants and the field-by-field validation.
 */
module ProjectForm {
  import opened Wrappers
  import opened Strings
  import opened Seqs
  import opened Forms

  datatype Participant = Participant(id: string, name: string, email: string, role: string, avatarColor: string)

  /** A user as the parent component passes it in. */
  datatype UserSummary = UserSummary(id: string, name: string, email: string, role: string)

  /** The keys of `ProjectFormData`. */
  datatype ProjectField = Name | Description | Sector | StartDate | EndDate | Participants | Status

  datatype ProjectFormData = ProjectFormData(
    name: string, description: string, sector: string, startDate: DateInput, endDate: DateInput,
    participants: seq<string>, status: string)

  /** The participant being typed in the "Nouveau" panel. */
  datatype Draft = Draft(name: string, email: string, role: string)

  const EmptyProjectForm := ProjectFormData("", "", "", Blank, Blank, [], "Actif")
  const EmptyDraft := Draft("", "", "client")

  const PurpleAvatar := "bg-purple-100 text-purple-700"
  const BlueAvatar := "bg-blue-100 text-blue-700"
  const GreenAvatar := "bg-green-100 text-green-700"

  /** The participants the modal starts with. */
  const InitialParticipants := [
    Participant("1", "Marie Dubois", "superadmin@luxdev.lu", "super-admin", PurpleAvatar),
    Participant("2", "Sophie Martin", "admin@luxdev.lu", "admin", BlueAvatar),
    Participant("3", "Jean Dupont", "client@acme-corp.com", "client", GreenAvatar),
    Participant("4", "Pierre Lambert", "pierre@techcorp.com", "client", "bg-yellow-100 text-yellow-700"),
    Participant("5", "Lucie Bernard", "lucie@designstudio.com", "client", "bg-pink-100 text-pink-700"),
    Participant("6", "Thomas Moreau", "thomas@consulting.fr", "client", "bg-indigo-100 text-indigo-700")
  ]

  /** `getAvatarColor(role)`: purple for super-admins, blue for admins, green for everyone else. */
  function AvatarColor(role: string): (c: string)
    ensures role == "super-admin" ==> c == PurpleAvatar
    ensures role == "admin" ==> c == BlueAvatar
    ensures role != "super-admin" && role != "admin" ==> c == GreenAvatar
  {
    if role == "super-admin" then PurpleAvatar
    else if role == "admin" then BlueAvatar
    else GreenAvatar
  }

  /** The ids of a list of participants, in order. */
  function Ids(ps: seq<Participant>): (r: seq<string>)
    ensures |r| == |ps|
    ensures forall i :: 0 <= i < |ps| ==> r[i] == ps[i].id
  {
    if ps == [] then [] else [ps[0].id] + Ids(ps[1..])
  }

  /** No two participants share an id. */
  ghost predicate DistinctIds(ps: seq<Participant>) {
    forall i, j :: 0 <= i < j < |ps| ==> ps[i].id != ps[j].id
  }

  // ---- The selected ids ----

  /** `ids.filter(x => x !== id)`. */
  function Without(ids: seq<string>, id: string): (r: seq<string>)
    ensures |r| <= |ids|
  {
    if ids == [] then [] else (if ids[0] == id then [] else [ids[0]]) + Without(ids[1..], id)
  }

  /** Removal drops every occurrence of the id, keeps every other id, and keeps their order. */
  lemma {:induction false} WithoutSpec(ids: seq<string>, id: string)
    ensures id !in Without(ids, id)
    ensures forall x :: x in Without(ids, id) <==> x in ids && x != id
    ensures IsSubsequence(Without(ids, id), ids)
  {
    if ids != [] {
      WithoutSpec(ids[1..], id);
      var r := Without(ids, id);
      if ids[0] != id {
        assert r[0] == ids[0] && r[1..] == Without(ids[1..], id);
        assert IsSubsequence(r[1..], ids[1..]);
      } else {
        assert r == Without(ids[1..], id);
      }
    }
  }

  /** Removing an id that does not occur changes nothing. */
  lemma {:induction false} WithoutAbsent(ids: seq<string>, id: string)
    requires id !in ids
    ensures Without(ids, id) == ids
  {
    if ids != [] {
      WithoutAbsent(ids[1..], id);
      assert ids == [ids[0]] + ids[1..];
    }
  }

  /** Removal distributes over concatenation. */
  lemma {:induction false} WithoutAppend(a: seq<string>, b: seq<string>, id: string)
    ensures Without(a + b, id) == Without(a, id) + Without(b, id)
  {
    if a == [] {
      assert a + b == b;
    } else {
      assert (a + b)[0] == a[0] && (a + b)[1..] == a[1..] + b;
      WithoutAppend(a[1..], b, id);
    }
  }

  /** `handleToggleParticipant`: drop a selected id everywhere, or append an unselected one. */
  function Toggle(ids: seq<string>, id: string): (r: seq<string>)
    ensures id in ids ==> r == Without(ids, id)
    ensures id !in ids ==> r == ids + [id]
  {
    if id in ids then Without(ids, id) else ids + [id]
  }

  /** Toggling an unselected id twice gives the selection back. */
  lemma ToggleTwiceRestores(ids: seq<string>, id: string)
    requires id !in ids
    ensures Toggle(Toggle(ids, id), id) == ids
  {
    WithoutAppend(ids, [id], id);
    WithoutAbsent(ids, id);
    assert Without([id], id) == [];
  }

  /** Toggling decides membership: a selected id ends up absent, an unselected one present once at the end. */
  lemma ToggleFlipsMembership(ids: seq<string>, id: string)
    ensures id in Toggle(ids, id) <==> id !in ids
  {
    WithoutSpec(ids, id);
  }

  // ---- The list of participants ----

  /** A fetched user as a participant, coloured by role. */
  function FromUser(u: UserSummary): (p: Participant)
    ensures p.id == u.id && p.name == u.name && p.email == u.email && p.role == u.role
    ensures p.avatarColor == AvatarColor(u.role)
  {
    Participant(u.id, u.name, u.email, u.role, AvatarColor(u.role))
  }

  function FromUsers(users: seq<UserSummary>): (r: seq<Participant>)
    ensures |r| == |users|
    ensures forall i :: 0 <= i < |users| ==> r[i] == FromUser(users[i])
  {
    if users == [] then [] else [FromUser(users[0])] + FromUsers(users[1..])
  }

  /** `prev.filter(p => !userParticipants.some(up => up.id === p.id))`. */
  function DropIds(ps: seq<Participant>, ids: seq<string>): (r: seq<Participant>)
    ensures |r| <= |ps|
    ensures forall i :: 0 <= i < |r| ==> r[i] in ps && r[i].id !in ids
    ensures forall p :: p in ps && p.id !in ids ==> p in r
    ensures IsSubsequence(r, ps)
  {
    var keep := (p: Participant) => p.id !in ids;
    FilterIsSubsequence(ps, keep);
    Filter(ps, keep)
  }

  /** With distinct ids, no later participant shares the first one's id. */
  lemma HeadIdNotInTail(ps: seq<Participant>)
    requires DistinctIds(ps) && ps != []
    ensures forall p :: p in ps[1..] ==> p.id != ps[0].id
  {
    forall p | p in ps[1..] ensures p.id != ps[0].id {
      var m :| 0 <= m < |ps| - 1 && ps[1..][m] == p;
      assert ps[m + 1] == p;
    }
  }

  /** Dropping keeps distinct ids distinct. */
  lemma {:induction false} DropIdsDistinct(ps: seq<Participant>, ids: seq<string>)
    requires DistinctIds(ps)
    ensures DistinctIds(DropIds(ps, ids))
  {
    if ps != [] {
      var tail := ps[1..];
      DropIdsDistinct(tail, ids);
      var rest := DropIds(tail, ids);
      if ps[0].id !in ids {
        var r := DropIds(ps, ids);
        assert r == [ps[0]] + rest;
        HeadIdNotInTail(ps);
        forall i, j | 0 <= i < j < |r| ensures r[i].id != r[j].id {
          assert r[j] == rest[j - 1];
          if i > 0 {
            assert r[i] == rest[i - 1];
          } else {
            assert rest[j - 1] in tail;
          }
        }
      }
    }
  }

  /**
   * The users effect: when users arrived, they come first, followed by the
   * earlier participants whose id none of them has; with no users the list stays.
   */
  function MergeParticipants(users: seq<UserSummary>, prev: seq<Participant>): (r: seq<Participant>)
    ensures |users| == 0 ==> r == prev
    ensures |users| > 0 ==> |users| <= |r| <= |users| + |prev|
    ensures |users| > 0 ==> forall i :: 0 <= i < |users| ==> r[i] == FromUser(users[i])
    ensures |users| > 0 ==> forall i :: |users| <= i < |r| ==> r[i] in prev && r[i].id !in Ids(FromUsers(users))
    ensures |users| > 0 ==> forall p :: p in prev && p.id !in Ids(FromUsers(users)) ==> p in r
    ensures |users| > 0 ==> r[|users|..] == DropIds(prev, Ids(FromUsers(users)))
  {
    if |users| > 0 then
      var up := FromUsers(users);
      var r := up + DropIds(prev, Ids(up));
      assert forall p :: p in prev && p.id !in Ids(up) ==> p in r[|up|..];
      r
    else prev
  }

  /** With distinct user ids and distinct earlier ids, the merged list has no id twice. */
  lemma MergeIdsDistinct(users: seq<UserSummary>, prev: seq<Participant>)
    requires DistinctIds(FromUsers(users)) && DistinctIds(prev)
    ensures DistinctIds(MergeParticipants(users, prev))
  {
    if |users| > 0 {
      var up := FromUsers(users);
      var kept := DropIds(prev, Ids(up));
      DropIdsDistinct(prev, Ids(up));
      var r := MergeParticipants(users, prev);
      assert r == up + kept;
      forall i, j | 0 <= i < j < |r| ensures r[i].id != r[j].id {
        if j < |up| {
          assert r[i] == up[i] && r[j] == up[j];
        } else if i >= |up| {
          assert r[i] == kept[i - |up|] && r[j] == kept[j - |up|];
        } else {
          assert r[i] == up[i] && Ids(up)[i] == up[i].id;
          assert r[j] == kept[j - |up|] && kept[j - |up|].id !in Ids(up);
        }
      }
    }
  }

  /** `selectedParticipants`: the participants whose id is selected, in list order. */
  function Selected(all: seq<Participant>, chosen: seq<string>): (r: seq<Participant>)
    ensures forall p :: p in r <==> p in all && p.id in chosen
  {
    Filter(all, (p: Participant) => p.id in chosen)
  }

  /** `availableParticipants`: the participants not selected, in list order. */
  function Available(all: seq<Participant>, chosen: seq<string>): (r: seq<Participant>)
    ensures forall p :: p in r <==> p in all && p.id !in chosen
  {
    Filter(all, (p: Participant) => p.id !in chosen)
  }

  /** Selected and available split the participant list: each participant is in exactly one, and the sizes add up. */
  lemma SelectedAvailablePartition(all: seq<Participant>, chosen: seq<string>)
    ensures |Selected(all, chosen)| + |Available(all, chosen)| == |all|
    ensures forall p :: p in all ==> (p in Selected(all, chosen) <==> p !in Available(all, chosen))
  {
    FilterComplement(all, (p: Participant) => p.id in chosen, (p: Participant) => p.id !in chosen);
  }

  /** The search of the participant picker, case-insensitive, on name or email. */
  predicate MatchesSearch(p: Participant, query: string) {
    Contains(Lower(p.name), Lower(query)) || Contains(Lower(p.email), Lower(query))
  }

  /** `filteredParticipants`. */
  function Searched(all: seq<Participant>, query: string): (r: seq<Participant>)
    ensures forall i :: 0 <= i < |r| ==> r[i] in all && MatchesSearch(r[i], query)
    ensures forall p :: p in all && MatchesSearch(p, query) ==> p in r
  {
    Filter(all, (p: Participant) => MatchesSearch(p, query))
  }

  /** The dropdown entries: matching participants not yet selected, shown only while a query is typed. */
  function Dropdown(all: seq<Participant>, chosen: seq<string>, query: string, open: bool): (r: seq<Participant>)
    ensures !open || query == "" || |Available(all, chosen)| == 0 ==> r == []
    ensures forall i :: 0 <= i < |r| ==> r[i] in Available(all, chosen) && MatchesSearch(r[i], query)
    ensures open && query != "" && |Available(all, chosen)| > 0 ==>
      forall p :: p in all && p.id !in chosen && MatchesSearch(p, query) ==> p in r
  {
    if open && query != "" && |Available(all, chosen)| > 0 then
      Filter(Searched(all, query), (p: Participant) => p.id !in chosen)
    else []
  }

  // ---- Validation ----

  const NameRequired := "Le nom du projet est requis"
  const StartRequired := "La date de début est requise"
  const EndRequired := "La date de fin est requise"
  const EndBeforeStart := "La date de fin doit être après la date de début"

  /** The errors `validateForm` reports. */
  function FormErrors(form: ProjectFormData): (errors: map<ProjectField, string>)
    ensures Name in errors <==> AllSpace(form.name)
    ensures StartDate in errors <==> form.startDate.Blank?
    ensures EndDate in errors <==> form.endDate.Blank? || (form.startDate.Day? && form.endDate.day < form.startDate.day)
    ensures AllSpace(form.name) ==> errors[Name] == NameRequired
    ensures form.startDate.Blank? ==> errors[StartDate] == StartRequired
    ensures form.endDate.Blank? ==> errors[EndDate] == EndRequired
    ensures form.endDate.Day? && form.startDate.Day? && form.endDate.day < form.startDate.day ==>
      errors[EndDate] == EndBeforeStart
    ensures errors.Keys <= {Name, StartDate, EndDate}
  {
    var e0: map<ProjectField, string> := map[];
    var e1 := if AllSpace(form.name) then e0[Name := NameRequired] else e0;
    var e2 := if form.startDate.Blank? then e1[StartDate := StartRequired] else e1;
    if form.endDate.Blank? then e2[EndDate := EndRequired]
    else if form.startDate.Day? && form.endDate.day < form.startDate.day then e2[EndDate := EndBeforeStart]
    else e2
  }

  /** The form is accepted exactly when the name has text, both dates are set and the end is not before the start. */
  predicate Valid(form: ProjectFormData) {
    !AllSpace(form.name) && form.startDate.Day? && form.endDate.Day? && form.startDate.day <= form.endDate.day
  }

  lemma NoErrorsIffValid(form: ProjectFormData)
    ensures |FormErrors(form)| == 0 <==> Valid(form)
  {
    var errors := FormErrors(form);
    if !Valid(form) {
      if AllSpace(form.name) { assert Name in errors; }
      else if form.startDate.Blank? { assert StartDate in errors; }
      else { assert EndDate in errors; }
    } else {
      assert errors == map[];
    }
  }

  /** A missing end date is reported as missing, even when the start date is missing too. */
  lemma MissingEndIsRequired(form: ProjectFormData)
    requires form.endDate.Blank?
    ensures EndDate in FormErrors(form) && FormErrors(form)[EndDate] == EndRequired
  {
  }

  /** The participant `handleAddParticipant` creates from the draft. */
  function NewParticipant(id: string, draft: Draft): (p: Participant)
    ensures p.id == id && p.name == Trim(draft.name) && p.email == Trim(draft.email)
    ensures p.role == draft.role && p.avatarColor == AvatarColor(draft.role)
  {
    Participant(id, Trim(draft.name), Trim(draft.email), draft.role, AvatarColor(draft.role))
  }

  /** The state of the modal. */
  class CreateProjectModal {
    var form: ProjectFormData
    var allParticipants: seq<Participant>
    var draft: Draft
    var showAddParticipant: bool
    var newSector: string
    var showNewSector: bool
    var searchQuery: string
    var showDropdown: bool
    var errors: map<ProjectField, string>

    constructor ()
      ensures form == EmptyProjectForm && allParticipants == InitialParticipants && draft == EmptyDraft
      ensures !showAddParticipant && newSector == "" && !showNewSector && searchQuery == "" && !showDropdown
      ensures errors == map[]
    {
      form := EmptyProjectForm;
      allParticipants := InitialParticipants;
      draft := EmptyDraft;
      showAddParticipant := false;
      newSector := "";
      showNewSector := false;
      searchQuery := "";
      showDropdown := false;
      errors := map[];
    }

    /** The users effect. */
    method ReceiveUsers(users: seq<UserSummary>)
      modifies this`allParticipants
      ensures allParticipants == MergeParticipants(users, old(allParticipants))
    {
      if |users| > 0 {
        var userParticipants := FromUsers(users);
        allParticipants := userParticipants + DropIds(allParticipants, Ids(userParticipants));
      }
    }

    /** `handleChange('participants', ids)`. */
    method ChangeParticipants(ids: seq<string>)
      modifies this`form, this`errors
      ensures form == old(form).(participants := ids)
      ensures errors == ClearError(old(errors), Participants)
    {
      form := form.(participants := ids);
      if Participants in errors && errors[Participants] != "" {
        errors := errors[Participants := ""];
      }
    }

    /** `handleToggleParticipant(id)`. */
    method HandleToggleParticipant(id: string)
      modifies this`form, this`errors
      ensures form == old(form).(participants := Toggle(old(form).participants, id))
      ensures errors == ClearError(old(errors), Participants)
    {
      var next := if id in form.participants then Without(form.participants, id) else form.participants + [id];
      ChangeParticipants(next);
    }

    /** `handleRemoveParticipant(id)`. */
    method HandleRemoveParticipant(id: string)
      modifies this`form, this`errors
      ensures form == old(form).(participants := Without(old(form).participants, id))
      ensures errors == ClearError(old(errors), Participants)
    {
      ChangeParticipants(Without(form.participants, id));
    }

    /**
     * `handleAddParticipant()`, with `newId` standing for `Date.now().toString()`:
     * nothing happens unless the draft has a name and an email; otherwise the
     * new participant is appended, selected, and the draft is reset.
     */
    method HandleAddParticipant(newId: string)
      modifies this`allParticipants, this`form, this`errors, this`draft, this`showAddParticipant
      ensures AllSpace(old(draft).name) || AllSpace(old(draft).email) ==>
        && allParticipants == old(allParticipants) && form == old(form) && errors == old(errors)
        && draft == old(draft) && showAddParticipant == old(showAddParticipant)
      ensures !AllSpace(old(draft).name) && !AllSpace(old(draft).email) ==>
        && allParticipants == old(allParticipants) + [NewParticipant(newId, old(draft))]
        && form == old(form).(participants := old(form).participants + [newId])
        && errors == ClearError(old(errors), Participants)
        && draft == EmptyDraft && !showAddParticipant
    {
      if !AllSpace(draft.name) && !AllSpace(draft.email) {
        AddAndSelect(NewParticipant(newId, draft));
      }
    }

    /** The effect of `handleAddParticipant` once the draft is accepted. */
    method AddAndSelect(participant: Participant)
      modifies this`allParticipants, this`form, this`errors, this`draft, this`showAddParticipant
      ensures allParticipants == old(allParticipants) + [participant]
      ensures form == old(form).(participants := old(form).participants + [participant.id])
      ensures errors == ClearError(old(errors), Participants)
      ensures draft == EmptyDraft && !showAddParticipant
    {
      allParticipants := allParticipants + [participant];
      ChangeParticipants(form.participants + [participant.id]);
      draft := EmptyDraft;
      showAddParticipant := false;
    }

    /** `handleAddSector()`: a sector with text replaces the form's sector, trimmed. */
    method HandleAddSector()
      modifies this`form, this`errors, this`newSector, this`showNewSector
      ensures AllSpace(old(newSector)) ==>
        form == old(form) && errors == old(errors) && newSector == old(newSector) && showNewSector == old(showNewSector)
      ensures !AllSpace(old(newSector)) ==>
        && form == old(form).(sector := Trim(old(newSector))) && errors == ClearError(old(errors), Sector)
        && newSector == "" && !showNewSector
    {
      if !AllSpace(newSector) {
        form := form.(sector := Trim(newSector));
        if Sector in errors && errors[Sector] != "" {
          errors := errors[Sector := ""];
        }
        newSector := "";
        showNewSector := false;
      }
    }

    /** `validateForm()`. */
    method ValidateForm() returns (ok: bool)
      modifies this`errors
      ensures errors == FormErrors(form)
      ensures ok <==> Valid(form)
    {
      var newErrors: map<ProjectField, string> := map[];
      if AllSpace(form.name) {
        newErrors := newErrors[Name := NameRequired];
      }
      if form.startDate.Blank? {
        newErrors := newErrors[StartDate := StartRequired];
      }
      if form.endDate.Blank? {
        newErrors := newErrors[EndDate := EndRequired];
      } else if form.startDate.Day? && form.endDate.day < form.startDate.day {
        newErrors := newErrors[EndDate := EndBeforeStart];
      }
      errors := newErrors;
      NoErrorsIffValid(form);
      ok := |newErrors| == 0;
    }

    /** `handleClose()`: every piece of state back to its initial value, except the participant list. */
    method HandleClose()
      modifies this`form, this`draft, this`showAddParticipant, this`newSector, this`showNewSector
      modifies this`searchQuery, this`showDropdown, this`errors
      ensures form == EmptyProjectForm && draft == EmptyDraft && !showAddParticipant
      ensures newSector == "" && !showNewSector && searchQuery == "" && !showDropdown && errors == map[]
    {
      form := EmptyProjectForm;
      newSector := "";
      showNewSector := false;
      draft := EmptyDraft;
      showAddParticipant := false;
      searchQuery := "";
      showDropdown := false;
      errors := map[];
    }
  }
}
