/** The sign-in form of `src/components/Login.js`. */
module Login {
  import opened Base

  /** The credentials the form sends. */
  datatype Credentials = Credentials(email: string, password: string)

  /** The error a submit shows before any call: a message when either field
      is empty, none otherwise. */
  function Validate(email: string, password: string): (e: Option<string>)
    ensures e.Some? <==> email == "" || password == ""
    ensures e.Some? ==> e.value == "Please enter both email and password."
  {
    if email == "" || password == "" then Some("Please enter both email and password.") else None
  }

  class LoginForm {
    var email: string
    var password: string
    var error: string
    var loading: bool

    constructor()
      ensures email == "" && password == "" && error == "" && !loading
    {
      email := "";
      password := "";
      error := "";
      loading := false;
    }

    /** `handleSubmit` up to the sign-in call: clear the error, validate, and
        return the credentials it signs in with, or `None` when it stops. */
    method BeginSubmit() returns (request: Option<Credentials>)
      modifies this
      ensures email == old(email) && password == old(password)
      ensures Validate(email, password).Some? ==>
        request == None && error == Validate(email, password).value && loading == old(loading)
      ensures Validate(email, password).None? ==>
        request == Some(Credentials(email, password)) && error == "" && loading
    {
      error := "";
      var invalid := Validate(email, password);
      if invalid.Some? {
        error := invalid.value;
        return None;
      }
      loading := true;
      request := Some(Credentials(email, password));
    }

    /** The rest of `handleSubmit` once the call has ended; returns whether it
        calls `onClose`. */
    method EndSubmit(reply: CallReply) returns (close: bool)
      modifies this
      ensures !loading && email == old(email) && password == old(password)
      ensures close <==> reply.Accepted?
      ensures reply.Accepted? ==> error == old(error)
      ensures reply.Rejected? ==> error == reply.message
      ensures reply.Thrown? ==> error == "An unexpected error occurred."
    {
      close := false;
      match reply {
        case Accepted =>
          close := true;
        case Rejected(message) =>
          error := message;
        case Thrown =>
          error := "An unexpected error occurred.";
      }
      loading := false;
    }

    /** A whole submit whose sign-in call (if it is made) ends with `reply`. */
    method HandleSubmit(reply: CallReply) returns (request: Option<Credentials>, close: bool)
      modifies this
      ensures email == old(email) && password == old(password)
      ensures request.None? ==> loading == old(loading)
      ensures request.Some? ==> !loading
      ensures request.Some? <==> Validate(email, password).None?
      ensures request.None? ==> !close && error == "Please enter both email and password."
      ensures request.Some? ==>
        && request.value == Credentials(email, password)
        && (close <==> reply.Accepted?)
        && error == (match reply
                     case Accepted => ""
                     case Rejected(message) => message
                     case Thrown => "An unexpected error occurred.")
    {
      close := false;
      request := BeginSubmit();
      if request.Some? {
        close := EndSubmit(reply);
      }
    }
  }
}
