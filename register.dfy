/**
 * The registration form of the browser client: three checks in a fixed order
 * before anything is sent, then the handling of the server's answer.
 *
 * The HTTP request is returned to the caller instead of being sent; the
 * answer comes back through `OnNext` (a 2xx reply) or `OnError` (an error
 * reply). The redirect timer after a success is not modelled.
 */
module Register {
  import opened Records
  import RecentStore

  const AllRequired := "All fields are required"
  const Mismatch := "Passwords do not match"
  const TooShort := "Password must be at least 6 characters"
  const MinPasswordLength: nat := 6

  const Registered := "Registration successful! Redirecting to login..."
  const Rejected := "Registration failed"
  const AlreadyRegistered := "This Username is already registered"
  const Fallback := "Registration failed. Please try again."
  /** The detail the form singles out, "409: Username already exists", written in two
      pieces so that it lines up with the server's status prefix and detail. */
  const DuplicateDetail := "409: " + "Username already exists"

  datatype RegisterRequest = RegisterRequest(username: string, password: string)

  /** The body of a successful reply: its `success` flag and `message`. */
  datatype Reply = Reply(success: bool, message: Option<string>)

  /** The body of an error reply (`err.error`): its `message` and `detail`. */
  datatype ErrorBody = ErrorBody(message: Option<string>, detail: Option<string>)

  /** A JavaScript string that is truthy: present and non-empty. */
  predicate Truthy(s: Option<string>) {
    s.Some? && s.value != ""
  }

  /** The first check the form fails, if any. */
  function ValidationError(username: string, password: string, confirm: string): (r: Option<string>)
    ensures (username == "" || password == "" || confirm == "") <==> r == Some(AllRequired)
    ensures r == Some(Mismatch) <==> (username != "" && password != "" && confirm != "" && password != confirm)
    ensures r == Some(TooShort) <==>
      (username != "" && password != "" && password == confirm && |password| < MinPasswordLength)
    ensures r.None? <==> (username != "" && password == confirm && |password| >= MinPasswordLength)
  {
    if username == "" || password == "" || confirm == "" then Some(AllRequired)
    else if password != confirm then Some(Mismatch)
    else if |password| < MinPasswordLength then Some(TooShort)
    else None
  }

  /** The message shown for an error reply. */
  function ErrorMessage(body: Option<ErrorBody>): (r: string)
    ensures r != ""
    ensures (body.Some? && body.value.detail == Some(DuplicateDetail)) ==> r == AlreadyRegistered
    ensures (body.Some? && body.value.detail != Some(DuplicateDetail) && Truthy(body.value.message)) ==>
      r == body.value.message.value
    ensures (body.Some? && body.value.detail != Some(DuplicateDetail) && !Truthy(body.value.message) &&
      Truthy(body.value.detail)) ==> r == body.value.detail.value
    ensures (body.None? || (!Truthy(body.value.message) && !Truthy(body.value.detail))) ==> r == Fallback
  {
    if body.Some? && body.value.detail == Some(DuplicateDetail) then AlreadyRegistered
    else if body.Some? && Truthy(body.value.message) then body.value.message.value
    else if body.Some? && Truthy(body.value.detail) then body.value.detail.value
    else Fallback
  }

  class RegisterComponent {
    var username: string
    var password: string
    var confirmPassword: string
    var loading: bool
    var error: string
    var success: string

    constructor ()
      ensures username == "" && password == "" && confirmPassword == ""
      ensures !loading && error == "" && success == ""
    {
      username, password, confirmPassword := "", "", "";
      loading, error, success := false, "", "";
    }

    /** `onSubmit`: stop at the first failed check with its message; otherwise clear
        the error, show the loader and produce the request. */
    method OnSubmit() returns (request: Option<RegisterRequest>)
      modifies this
      ensures username == old(username) && password == old(password) && confirmPassword == old(confirmPassword)
      ensures success == old(success)
      ensures var v := ValidationError(old(username), old(password), old(confirmPassword));
        (v.Some? ==> request.None? && error == v.value && loading == old(loading)) &&
        (v.None? ==> request == Some(RegisterRequest(username, password)) && error == "" && loading)
    {
      if username == "" || password == "" || confirmPassword == "" {
        error := AllRequired;
        return None;
      }
      if password != confirmPassword {
        error := Mismatch;
        return None;
      }
      if |password| < MinPasswordLength {
        error := TooShort;
        return None;
      }
      error := "";
      loading := true;
      request := Some(RegisterRequest(username, password));
    }

    /** The `next` callback. */
    method OnNext(reply: Reply)
      modifies this
      ensures username == old(username) && password == old(password) && confirmPassword == old(confirmPassword)
      ensures !loading
      ensures reply.success ==> success == Registered && error == old(error)
      ensures !reply.success ==> (success == old(success) &&
        error == (if Truthy(reply.message) then reply.message.value else Rejected))
    {
      if reply.success {
        success := Registered;
      } else {
        error := if Truthy(reply.message) then reply.message.value else Rejected;
      }
      loading := false;
    }

    /** The `error` callback. */
    method OnError(body: Option<ErrorBody>)
      modifies this
      ensures username == old(username) && password == old(password) && confirmPassword == old(confirmPassword)
      ensures !loading && success == old(success) && error == ErrorMessage(body)
    {
      error := ErrorMessage(body);
      loading := false;
    }
  }

  /** The server's answer to a taken user name ({"detail": ...}) is shown as "already
      registered". */
  lemma DuplicateShownAsRegistered<Sent, Summ>(users: RecentStore.Users<Sent, Summ>, body: RecentStore.Body, hash: string -> string)
    requires "username" in body && body["username"] in users
    ensures var r := RecentStore.Register(users, body, hash).0;
      r.Err? && ErrorMessage(Some(ErrorBody(None, Some(r.error.detail)))) == AlreadyRegistered
  {
    RecentStore.RegisterDuplicate(users, body, hash);
  }
}
