/** The template context processor that supplies the signed-in user's initials. */
module ContextProcessors {
  /** What `get_initials` returns: a context dict `{'initials': ...}`, or the empty string. */
  datatype InitialsContext = Initials(initials: string) | EmptyString

  const DummyUser: string := "dummy_user"

  /** `get_initials`, given the request's user name. */
  function GetInitials(username: string): (r: InitialsContext)
    ensures username == DummyUser ==> r == Initials("-")
    ensures username != DummyUser && |username| > 0 ==> r == Initials([username[0]])
    ensures r == EmptyString <==> username == ""
  {
    if username == DummyUser then Initials("-")
    else if |username| > 0 then Initials([username[0]])
    else EmptyString
  }

  /** The initials are always one character, and for a real user they begin the user name. */
  lemma InitialsShape(username: string)
    ensures GetInitials(username).Initials? ==> |GetInitials(username).initials| == 1
    ensures username != DummyUser && GetInitials(username).Initials? ==> GetInitials(username).initials <= username
  {
  }

  /** The dummy-user test comes first: its first letter `d` is not used. */
  lemma DummyUserPrecedence()
    ensures GetInitials(DummyUser) == Initials("-")
    ensures GetInitials(DummyUser) != Initials([DummyUser[0]])
  {
  }
}
