/** The login form controller (`LoginComponent`). */
module Login {
  import opened Wrappers
  import opened Models
  import opened Events
  import opened Service

  const FieldsRequired: string := "Username and password are required"
  const LoginFailed: string := "Login failed"

  /** `err?.error?.message || 'Login failed'`: the server's message if it is non-empty. */
  function ErrorText(e: HttpError): (text: string)
    ensures text != ""
    ensures e.message.Some? && e.message.value != "" ==> text == e.message.value
    ensures text != LoginFailed ==> e.message == Some(text)
  {
    if e.message.Some? && e.message.value != "" then e.message.value else LoginFailed
  }

  /**
   * The events of `login()` for the given fields and service reply: nothing
   * when a field is empty; otherwise the service call, then on a value the
   * navigation to the member list, and on completion `setUsername`.
   */
  function LoginEvents(username: string, password: string, rememberMe: bool, reply: Reply<User>): (r: seq<Event>)
    ensures r == [] <==> username == "" || password == ""
    ensures r != [] ==> r[0] == Call(LoginCall(username, password, rememberMe))
    ensures ToMembers in r <==> r != [] && reply.Emitted?
    ensures Call(SetUsername(username)) in r <==> r != [] && !reply.Failed?
    ensures forall e :: e in r ==>
      e == Call(LoginCall(username, password, rememberMe)) || e == ToMembers || e == Call(SetUsername(username))
    ensures |r| == if r == [] then 0 else 1 + (if reply.Emitted? then 2 else if reply.Completed? then 1 else 0)
    ensures r != [] && reply.Emitted? ==> r[1] == ToMembers
  {
    if username == "" || password == "" then []
    else
      [Call(LoginCall(username, password, rememberMe))] +
      match reply
      case Emitted(_) => [ToMembers, Call(SetUsername(username))]
      case Completed => [Call(SetUsername(username))]
      case Failed(_) => []
  }

  class LoginComponent {
    var username: string
    var password: string
    var loading: bool
    var errorMessage: string
    var rememberMe: bool
    var log: seq<Event>
    const service: AppService

    constructor (service: AppService)
      ensures this.service == service
      ensures username == "" && password == "" && !loading && errorMessage == "" && !rememberMe
      ensures log == []
    {
      this.service := service;
      username, password, loading, errorMessage, rememberMe := "", "", false, "", false;
      log := [];
    }

    /**
     * `ngOnInit()`: a logged-in user is sent to the member list, and a
     * remembered user's name is prefilled either way.
     */
    method NgOnInit()
      modifies this
      ensures log == old(log) + (if service.IsLoggedIn() then [ToMembers] else [])
      ensures service.IsRemembered() && service.GetCurrentUser().Some? ==>
        username == service.GetCurrentUser().value.username && rememberMe
      ensures !(service.IsRemembered() && service.GetCurrentUser().Some?) ==>
        username == old(username) && rememberMe == old(rememberMe)
      ensures password == old(password) && loading == old(loading) && errorMessage == old(errorMessage)
    {
      if service.IsLoggedIn() {
        log := log + [ToMembers];
      }
      LoadRememberedUser();
    }

    /** `loadRememberedUser()` */
    method LoadRememberedUser()
      modifies this
      ensures service.IsRemembered() && service.GetCurrentUser().Some? ==>
        username == service.GetCurrentUser().value.username && rememberMe
      ensures !(service.IsRemembered() && service.GetCurrentUser().Some?) ==>
        username == old(username) && rememberMe == old(rememberMe)
      ensures password == old(password) && loading == old(loading) && errorMessage == old(errorMessage)
      ensures log == old(log)
    {
      if service.IsRemembered() {
        var currentUser := service.GetCurrentUser();
        if currentUser.Some? {
          username := currentUser.value.username;
          rememberMe := true;
        }
      }
    }

    /**
     * `login()`, with the service's reply as a parameter. An empty field sets
     * the error message and calls nothing; otherwise `loading` is set, the
     * service is called, and either callback clears `loading` again.
     */
    method Login(reply: Reply<User>)
      modifies this
      ensures log == old(log) + LoginEvents(old(username), old(password), old(rememberMe), reply)
      ensures username == old(username) && password == old(password) && rememberMe == old(rememberMe)
      ensures old(username) == "" || old(password) == "" ==>
        errorMessage == FieldsRequired && loading == old(loading)
      ensures old(username) != "" && old(password) != "" ==>
        !loading && errorMessage == (if reply.Failed? then ErrorText(reply.error) else old(errorMessage))
    {
      if username == "" || password == "" {
        errorMessage := FieldsRequired;
        return;
      }
      loading := true;
      log := log + [Call(LoginCall(username, password, rememberMe))];
      match reply
      case Emitted(_) =>
        log := log + [ToMembers];
        log := log + [Call(SetUsername(username))];
        loading := false;
      case Completed =>
        log := log + [Call(SetUsername(username))];
        loading := false;
      case Failed(err) =>
        errorMessage := ErrorText(err);
        loading := false;
    }
  }
}
