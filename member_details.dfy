/** The member form controller (`MemberDetailsComponent`). */
module MemberDetails {
  import opened Wrappers
  import opened Numbers
  import opened Models
  import opened Events
  import opened Service

  /** The form's value: `id` starts as null, `status` as 'Inactive'. */
  datatype MemberForm = MemberForm(id: Option<int>, firstName: string, lastName: string,
                                   jobTitle: string, status: string, team: string)

  const InitialForm: MemberForm := MemberForm(None, "", "", "", "Inactive", "")

  const UpdateFailed: string := "Failed to update member"
  const AddFailed: string := "Failed to add member"

  /** `Validators.required` on a text control. */
  predicate Required(v: string) {
    v != ""
  }

  /**
   * JavaScript's `length` of a string: its count of UTF-16 code units, so a
   * character beyond U+FFFF, written as a surrogate pair, counts twice.
   */
  function Utf16Length(v: string): (n: nat)
    ensures |v| <= n <= 2 * |v|
    ensures n == 0 <==> v == ""
  {
    if v == [] then 0 else (if v[0] as int >= 0x1_0000 then 2 else 1) + Utf16Length(v[1..])
  }

  /** A string of characters from the Basic Multilingual Plane has one code unit per character. */
  lemma {:induction false} Utf16LengthOfBmp(v: string)
    requires forall i :: 0 <= i < |v| ==> v[i] as int < 0x1_0000
    ensures Utf16Length(v) == |v|
  {
    if v != [] {
      Utf16LengthOfBmp(v[1..]);
    }
  }

  /** `Validators.minLength(n)`: an empty value passes, leaving it to `required`. */
  predicate MinLength(v: string, n: nat) {
    v == "" || Utf16Length(v) >= n
  }

  /**
   * The form's validators combined: first and last name of length at least 2
   * in UTF-16 code units, job title and team present, id and status
   * unconstrained.
   */
  function FormValid(f: MemberForm): (valid: bool)
    ensures valid <==> Utf16Length(f.firstName) >= 2 && Utf16Length(f.lastName) >= 2
                       && f.jobTitle != "" && f.team != ""
  {
    && Required(f.firstName) && MinLength(f.firstName, 2)
    && Required(f.lastName) && MinLength(f.lastName, 2)
    && Required(f.jobTitle)
    && Required(f.team)
  }

  /** A first name of one character beyond U+FFFF has length 2, and so passes `minLength(2)`. */
  lemma AstralNameValid()
    ensures FormValid(MemberForm(None, "\U{1F600}", "Li", "QA", "Inactive", "Eng"))
    ensures !FormValid(MemberForm(None, "A", "Li", "QA", "Inactive", "Eng"))
  {
  }

  /** A fresh form cannot be submitted, and its status is 'Inactive'. */
  lemma InitialFormInvalid()
    ensures !FormValid(InitialForm) && InitialForm.status == "Inactive"
  {
  }

  /**
   * The member `onSubmit` builds: `id: formValue.id || 0`, so a null id
   * becomes 0, and every other field copied.
   */
  function SubmittedMember(f: MemberForm): (m: Member)
    ensures m.id > 0 <==> f.id.Some? && f.id.value > 0
    ensures m.id != 0 ==> f.id == Some(m.id)
    ensures f.id.None? ==> m.id == 0
    ensures WithoutId(m) == MemberDraft(f.firstName, f.lastName, f.jobTitle, f.team, f.status)
  {
    Member(if f.id.Some? then f.id.value else 0, f.firstName, f.lastName, f.jobTitle, f.team, f.status)
  }

  /** `patchValue` with the six fields of a fetched member. */
  function Patched(f: MemberForm, m: Member): (r: MemberForm)
    ensures SubmittedMember(r) == m
  {
    MemberForm(Some(m.id), m.firstName, m.lastName, m.jobTitle, m.status, m.team)
  }

  /** A lookup result the `if (existingMember)` test accepts. */
  predicate LookupFound(lookup: Reply<Option<Member>>) {
    lookup.Emitted? && lookup.value.Some?
  }

  /**
   * The callbacks of an update or an add: a value navigates to the list, an
   * error alerts the given message, completion without a value does nothing.
   */
  function WriteOutcome(write: Reply<Option<Member>>, failure: string): (r: seq<Event>)
    ensures r == [ToMembers] <==> write.Emitted?
    ensures r == [Alert(failure)] <==> write.Failed?
    ensures r == [] <==> write.Completed?
  {
    match write
    case Emitted(_) => [ToMembers]
    case Failed(_) => [Alert(failure)]
    case Completed => []
  }

  /**
   * The events of `onSubmit()` for a form value, the reply to the existence
   * lookup and the reply to the update or add.
   */
  function SubmitEvents(f: MemberForm, lookup: Reply<Option<Member>>, write: Reply<Option<Member>>): (r: seq<Event>)
    ensures !FormValid(f) ==> r == []
    ensures FormValid(f) && SubmittedMember(f).id > 0 ==>
      r != [] && r[0] == Call(GetMemberById(Finite(SubmittedMember(f).id)))
    ensures FormValid(f) && SubmittedMember(f).id <= 0 ==>
      r != [] && r[0] == Call(AddMember(SubmittedMember(f)))
    ensures Call(UpdateMember(SubmittedMember(f))) in r <==>
      FormValid(f) && SubmittedMember(f).id > 0 && LookupFound(lookup)
    ensures Call(AddMember(SubmittedMember(f))) in r <==> FormValid(f) && SubmittedMember(f).id <= 0
    ensures forall e :: e in r && e.Call? ==>
      e.call in {GetMemberById(Finite(SubmittedMember(f).id)), UpdateMember(SubmittedMember(f)),
                 AddMember(SubmittedMember(f))}
    ensures ToMembers in r <==>
      FormValid(f) && write.Emitted? && (SubmittedMember(f).id <= 0 || LookupFound(lookup))
    ensures Alert(UpdateFailed) in r <==>
      FormValid(f) && SubmittedMember(f).id > 0 && LookupFound(lookup) && write.Failed?
    ensures Alert(AddFailed) in r <==> FormValid(f) && SubmittedMember(f).id <= 0 && write.Failed?
    ensures forall e :: e in r ==> e.Call? || e == ToMembers || e == Alert(UpdateFailed) || e == Alert(AddFailed)
    ensures Call(GetMemberById(Finite(SubmittedMember(f).id))) in r <==> FormValid(f) && SubmittedMember(f).id > 0
    ensures |r| == if !FormValid(f) then 0
                   else if SubmittedMember(f).id > 0 then
                     (if LookupFound(lookup) then 2 + (if write.Completed? then 0 else 1) else 1)
                   else 1 + (if write.Completed? then 0 else 1)
    ensures FormValid(f) && SubmittedMember(f).id > 0 && LookupFound(lookup) ==>
      r[1] == Call(UpdateMember(SubmittedMember(f)))
  {
    if !FormValid(f) then []
    else
      var member := SubmittedMember(f);
      if member.id > 0 then
        [Call(GetMemberById(Finite(member.id)))] +
        if LookupFound(lookup) then [Call(UpdateMember(member))] + WriteOutcome(write, UpdateFailed) else []
      else
        [Call(AddMember(member))] + WriteOutcome(write, AddFailed)
  }

  /** A route id the list view writes for a saved member reads back as that id and passes the lookup check. */
  lemma EditRouteRoundTrip(id: int)
    requires id > 0
    ensures Decimal(id) != "" && ToNumber(Decimal(id)) == Finite(id)
    ensures CheckMemberId(ToNumber(Decimal(id))) == Success(id)
  {
    NumberOfDecimal(id);
  }

  /** Creating 'Bob Jones', QA, Engineering: one add without an id, then the list. */
  lemma CreateScenario(lookup: Reply<Option<Member>>, added: Option<Member>)
    ensures SubmitEvents(MemberForm(None, "Bob", "Jones", "QA", "Inactive", "Engineering"), lookup, Emitted(added))
            == [Call(AddMember(Member(0, "Bob", "Jones", "QA", "Engineering", "Inactive"))), ToMembers]
  {
  }

  /** Editing id 1 when the existence lookup fails: the lookup is the only call and nothing follows. */
  lemma FailedLookupStopsUpdate(f: MemberForm, e: HttpError, write: Reply<Option<Member>>)
    requires FormValid(f) && f.id == Some(1)
    ensures SubmitEvents(f, Failed(e), write) == [Call(GetMemberById(Finite(1)))]
  {
  }

  class MemberDetailsComponent {
    var teams: seq<Team>
    var isEditMode: bool
    var memberForm: MemberForm
    var log: seq<Event>

    constructor ()
      ensures teams == [] && !isEditMode && memberForm == InitialForm && log == []
    {
      teams, isEditMode, memberForm, log := [], false, InitialForm, [];
    }

    /**
     * `ngOnInit()`, with the route's `id` parameter and the replies to the
     * team and member requests as parameters. The team list is always
     * requested; a non-empty id enters edit mode and fetches `Number(id)`,
     * whose check throws (`thrown`) for NaN and ids below 1.
     */
    method NgOnInit(routeId: Option<string>, teamsReply: Reply<seq<Team>>, memberReply: Reply<Option<Member>>)
      returns (thrown: Option<string>)
      modifies this
      ensures teams == if teamsReply.Emitted? then teamsReply.value else old(teams)
      ensures isEditMode <==> old(isEditMode) || (routeId.Some? && routeId.value != "")
      ensures !(routeId.Some? && routeId.value != "") ==>
        log == old(log) + [Call(GetTeamList)] && memberForm == InitialForm && thrown.None?
      ensures routeId.Some? && routeId.value != "" ==>
        && log == old(log) + [Call(GetTeamList), Call(GetMemberById(ToNumber(routeId.value)))]
        && (thrown.Some? <==> CheckMemberId(ToNumber(routeId.value)).Failure?)
        && (thrown.Some? ==> thrown.value == InvalidMemberId)
        && memberForm == (if thrown.None? && LookupFound(memberReply) then Patched(InitialForm, memberReply.value.value)
                          else InitialForm)
    {
      memberForm := InitialForm;
      log := log + [Call(GetTeamList)];
      if teamsReply.Emitted? {
        teams := teamsReply.value;
      }
      thrown := None;
      if routeId.Some? && routeId.value != "" {
        isEditMode := true;
        var id := ToNumber(routeId.value);
        log := log + [Call(GetMemberById(id))];
        var check := CheckMemberId(id);
        if check.Failure? {
          return Some(check.error);
        }
        if memberReply.Emitted? && memberReply.value.Some? {
          memberForm := Patched(memberForm, memberReply.value.value);
        }
      }
    }

    /**
     * `onSubmit()`, with the replies to the lookup and to the update or add as
     * parameters. Only the logged events change.
     */
    method OnSubmit(lookup: Reply<Option<Member>>, write: Reply<Option<Member>>)
      modifies this
      ensures log == old(log) + SubmitEvents(old(memberForm), lookup, write)
      ensures memberForm == old(memberForm) && teams == old(teams) && isEditMode == old(isEditMode)
    {
      if !FormValid(memberForm) {
        return;
      }
      var member := SubmittedMember(memberForm);
      if member.id > 0 {
        log := log + [Call(GetMemberById(Finite(member.id)))];
        if lookup.Emitted? && lookup.value.Some? {
          log := log + [Call(UpdateMember(member))];
          match write
          case Emitted(_) => GoToMemberList();
          case Failed(_) => HandleError(UpdateFailed);
          case Completed =>
        }
      } else {
        log := log + [Call(AddMember(member))];
        match write
        case Emitted(_) => GoToMemberList();
        case Failed(_) => HandleError(AddFailed);
        case Completed =>
      }
    }

    /** `goToMemberList()` */
    method GoToMemberList()
      modifies this
      ensures log == old(log) + [ToMembers]
      ensures memberForm == old(memberForm) && teams == old(teams) && isEditMode == old(isEditMode)
    {
      log := log + [ToMembers];
    }

    /** `handleError(message)`: the alert. */
    method HandleError(message: string)
      modifies this
      ensures log == old(log) + [Alert(message)]
      ensures memberForm == old(memberForm) && teams == old(teams) && isEditMode == old(isEditMode)
    {
      log := log + [Alert(message)];
    }
  }
}
