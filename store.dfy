/**
 * The application's state container: the signed-in user and the cached,
 * ordered list of chat messages. Each setter overwrites one field and
 * leaves the other as it was.
 */
module Store {
  import opened JsValues

  /** The identity the authentication provider reports for a signed-in user. */
  datatype User = User(uid: string, displayName: Value, photoURL: Value)

  class State {
    var user: Option<User>
    var messages: seq<Record>

    /** No one is signed in and no message is cached. */
    constructor ()
      ensures user == None && messages == []
    {
      user := None;
      messages := [];
    }

    /** `setUser`: replaces the user; the messages stay. */
    method SetUser(u: Option<User>)
      modifies this
      ensures user == u
      ensures messages == old(messages)
    {
      user := u;
    }

    /** `setMessages`: replaces the whole list; the user stays. */
    method SetMessages(xs: seq<Record>)
      modifies this
      ensures messages == xs
      ensures user == old(user)
    {
      messages := xs;
    }

    /** `addMessage`: appends one message after the cached ones; the user stays. */
    method AddMessage(m: Record)
      modifies this
      ensures |messages| == |old(messages)| + 1
      ensures messages[|messages| - 1] == m
      ensures messages[..|old(messages)|] == old(messages)
      ensures user == old(user)
    {
      messages := messages + [m];
    }
  }
}
