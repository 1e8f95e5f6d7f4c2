/**
 * The observable effects of the controllers: calls into the service, router
 * navigations, alerts and `stopPropagation`, appended to a log in order.
 */
module Events {
  import opened Numbers
  import opened Models

  /** A call a controller makes on the service, with its arguments. */
  datatype ServiceCall =
    | GetTeamList
    | GetMemberById(id: Num)
    | AddMember(member: Member)
    | UpdateMember(member: Member)
    | GetMembers
    | DeleteMember(id: Num)
    | LoginCall(username: string, password: string, rememberMe: bool)
    | SetUsername(name: string)

  /** One element of the command array given to `router.navigate`. */
  datatype RouteCommand = Segment(path: string) | Param(id: int)

  datatype Event =
    | Call(call: ServiceCall)
    | Navigate(commands: seq<RouteCommand>)
    | Alert(message: string)
    | StopPropagation

  /** `navigate(['/members'])` */
  const ToMembers: Event := Navigate([Segment("/members")])

  /** `navigate(['/login'])` */
  const ToLogin: Event := Navigate([Segment("/login")])

  /** `navigate(['/member-details'])` */
  const ToAddMember: Event := Navigate([Segment("/member-details")])
}
