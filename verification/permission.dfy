/** The permission gate at the top of `dAPIReadHandler`. Each optional
    model hook is represented by the answer it gives for the current request;
    `None` means the model does not implement that hook. */
module Permission {
  import opened Base

  /** The session's user. `access(m)` is what the role lookup
      `GetAccess(m).Read` reports for model `m`. */
  datatype User = User(username: string, access: string -> bool)

  /** Answers of the `APIDisabledRead` and `APIPublicRead` hooks. */
  datatype ReadHooks = ReadHooks(disabledRead: Option<bool>, publicRead: Option<bool>)

  /** Whether the role lookup grants `session` read access to `modelName`. */
  predicate RoleGrants(session: Option<User>, modelName: string)
  {
    session.Some? && session.value.access(modelName)
  }

  /** The read decision, taken in the handler's order:
      1. a disable hook answering true denies at once; answering false sets
         allow to true;
      2. a public hook's answer replaces allow;
      3. only if allow is still false and there is a session is the role
         lookup asked. */
  function ReadAllowed(hooks: ReadHooks, session: Option<User>, modelName: string): (allow: bool)
    // an explicit disable wins over everything
    ensures hooks.disabledRead == Some(true) ==> !allow
    // a disable hook answering false with no public hook opens the model to
    // everyone, whatever the session or the role table say
    ensures hooks.disabledRead == Some(false) && hooks.publicRead.None? ==> allow
    // a public hook answering true grants access, even without a session
    ensures hooks.disabledRead != Some(true) && hooks.publicRead == Some(true) ==> allow
    // the role lookup grants access whenever the model is not disabled
    ensures hooks.disabledRead != Some(true) && RoleGrants(session, modelName) ==> allow
    // and nothing else grants access
    ensures allow ==>
              || hooks.publicRead == Some(true)
              || (hooks.disabledRead == Some(false) && hooks.publicRead.None?)
              || RoleGrants(session, modelName)
  {
    if hooks.disabledRead == Some(true) then false
    else
      var afterDisable := hooks.disabledRead.Some? && !hooks.disabledRead.value;
      var afterPublic := if hooks.publicRead.Some? then hooks.publicRead.value else afterDisable;
      if !afterPublic && session.Some? then session.value.access(modelName) else afterPublic
  }

  /** The role lookup is reached only when no hook has granted access and
      there is a session. */
  predicate RoleLookupReached(hooks: ReadHooks, session: Option<User>)
  {
    && hooks.disabledRead != Some(true)
    && hooks.publicRead != Some(true)
    && !(hooks.disabledRead == Some(false) && hooks.publicRead.None?)
    && session.Some?
  }

  /** When the role lookup is not reached, its answer cannot matter: two
      sessions whose users differ only in their role table get the same
      decision. */
  lemma RoleIgnoredUnlessReached(hooks: ReadHooks, u1: User, u2: User, modelName: string)
    requires !RoleLookupReached(hooks, Some(u1))
    ensures ReadAllowed(hooks, Some(u1), modelName) == ReadAllowed(hooks, Some(u2), modelName)
  {
  }

  /** Without a session, access comes from a hook or not at all. */
  lemma AnonymousNeedsHook(hooks: ReadHooks, modelName: string)
    ensures ReadAllowed(hooks, None, modelName) <==>
              || (hooks.disabledRead != Some(true) && hooks.publicRead == Some(true))
              || (hooks.disabledRead == Some(false) && hooks.publicRead.None?)
  {
  }

  /** A public hook answering false withdraws the grant a disable hook
      answering false gave, handing the decision back to the role lookup. */
  lemma PublicFalseDefersToRole(session: Option<User>, modelName: string)
    ensures ReadAllowed(ReadHooks(Some(false), Some(false)), session, modelName) == RoleGrants(session, modelName)
    ensures ReadAllowed(ReadHooks(None, Some(false)), session, modelName) == RoleGrants(session, modelName)
  {
  }
}
