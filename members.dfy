/** The member list controller (`MembersComponent`). */
module Members {
  import opened Wrappers
  import opened Numbers
  import opened Models
  import opened Events
  import opened Service

  /**
   * `members.filter(m => m.id !== id)`: every entry with that id dropped, the
   * others kept.
   */
  function RemoveById(ms: seq<Member>, id: int): (r: seq<Member>)
    ensures forall m :: m in r ==> m in ms && m.id != id
    ensures forall m :: m in ms && m.id != id ==> m in r
    ensures |r| <= |ms|
  {
    if ms == [] then []
    else (if ms[0].id == id then [] else [ms[0]]) + RemoveById(ms[1..], id)
  }

  /**
   * Filtering distributes over concatenation; with the one-element cases of
   * the definition this says the kept entries stay in their relative order.
   */
  lemma {:induction false} RemoveByIdAppend(a: seq<Member>, b: seq<Member>, id: int)
    ensures RemoveById(a + b, id) == RemoveById(a, id) + RemoveById(b, id)
  {
    if a == [] {
      assert a + b == b;
    } else {
      assert (a + b)[1..] == a[1..] + b;
      RemoveByIdAppend(a[1..], b, id);
    }
  }

  /** A list with no entry of that id is left exactly as it was. */
  lemma {:induction false} RemoveByIdAbsent(ms: seq<Member>, id: int)
    requires forall m :: m in ms ==> m.id != id
    ensures RemoveById(ms, id) == ms
  {
    if ms != [] {
      assert ms[0] in ms;
      assert forall m :: m in ms[1..] ==> m in ms;
      RemoveByIdAbsent(ms[1..], id);
      assert [ms[0]] + ms[1..] == ms;
    }
  }

  /** Removing the same id twice is removing it once. */
  lemma RemoveByIdIdempotent(ms: seq<Member>, id: int)
    ensures RemoveById(RemoveById(ms, id), id) == RemoveById(ms, id)
  {
    RemoveByIdAbsent(RemoveById(ms, id), id);
  }

  /** The list's own example: removing id 1 from [1, 2] leaves [2]. */
  lemma RemoveFirstOfTwo(first: Member, second: Member)
    requires first.id == 1 && second.id == 2
    ensures RemoveById([first, second], 1) == [second]
  {
  }

  class MembersComponent {
    var members: seq<Member>
    var teams: seq<Team>
    var log: seq<Event>
    const service: AppService

    constructor (service: AppService)
      ensures this.service == service
      ensures members == [] && teams == [] && log == []
    {
      this.service := service;
      members, teams, log := [], [], [];
    }

    /**
     * `ngOnInit()`: subscribing to the current user runs the handler at once
     * with the service's current value.
     */
    method NgOnInit(membersReply: Reply<seq<Member>>)
      modifies this
      ensures old(service.currentUser).None? ==> log == old(log) + [ToLogin] && members == old(members)
      ensures old(service.currentUser).Some? ==>
        log == old(log) + [Call(ServiceCall.GetMembers)]
        && members == (if membersReply.Emitted? then membersReply.value else old(members))
      ensures teams == old(teams)
    {
      OnCurrentUser(service.GetCurrentUser(), membersReply);
    }

    /**
     * The `currentUser$` handler, run for each value the service broadcasts:
     * no user redirects to the login view without fetching; a user fetches.
     */
    method OnCurrentUser(user: Option<User>, membersReply: Reply<seq<Member>>)
      modifies this
      ensures user.None? ==> log == old(log) + [ToLogin] && members == old(members)
      ensures user.Some? ==>
        log == old(log) + [Call(ServiceCall.GetMembers)]
        && members == (if membersReply.Emitted? then membersReply.value else old(members))
      ensures teams == old(teams)
    {
      if user.None? {
        log := log + [ToLogin];
      } else {
        GetMembers(membersReply);
      }
    }

    /** `goToAddMemberForm()` */
    method GoToAddMemberForm()
      modifies this
      ensures log == old(log) + [ToAddMember]
      ensures members == old(members) && teams == old(teams)
    {
      log := log + [ToAddMember];
    }

    /** `getMembers()`: the list is replaced wholesale by what the service emits. */
    method GetMembers(reply: Reply<seq<Member>>)
      modifies this
      ensures log == old(log) + [Call(ServiceCall.GetMembers)]
      ensures members == if reply.Emitted? then reply.value else old(members)
      ensures teams == old(teams)
    {
      log := log + [Call(ServiceCall.GetMembers)];
      if reply.Emitted? {
        members := reply.value;
      }
    }

    /** `goToMembersDetails(id)` */
    method GoToMembersDetails(id: int)
      modifies this
      ensures log == old(log) + [Navigate([Segment("/member-details"), Param(id)])]
      ensures members == old(members) && teams == old(teams)
    {
      log := log + [Navigate([Segment("/member-details"), Param(id)])];
    }

    /**
     * `removeMember(member, e)`: stops the click, asks the service to delete,
     * and filters the list when the delete emits. An id below 1 makes
     * `deleteMember` throw, leaving the list as it was.
     */
    method RemoveMember(member: Member, deleteReply: Reply<Option<Member>>) returns (thrown: Option<string>)
      modifies this
      ensures log == old(log) + [StopPropagation, Call(DeleteMember(Finite(member.id)))]
      ensures thrown.Some? <==> member.id <= 0
      ensures thrown.Some? ==> thrown.value == InvalidMemberId
      ensures members == if member.id > 0 && deleteReply.Emitted? then RemoveById(old(members), member.id)
                         else old(members)
      ensures teams == old(teams)
    {
      log := log + [StopPropagation];
      log := log + [Call(DeleteMember(Finite(member.id)))];
      var request := service.DeleteMember(Finite(member.id));
      if request.Failure? {
        return Some(request.error);
      }
      thrown := None;
      if deleteReply.Emitted? {
        members := RemoveById(members, member.id);
      }
    }
  }
}
