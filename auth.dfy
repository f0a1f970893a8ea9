/**
 * The signed-in user: the provider's state, the browser store it is saved
 * in under "financeUser", the restore at start-up, sign-in and sign-out,
 * the organisation name shown, and the guard on using the context outside
 * a provider.
 */
module Auth {
  import opened Common
  import opened Text

  /** The user record; an empty `hd` or `organizationName` stands for the
      field being absent. */
  datatype User = User(email: string, hd: string, organizationName: string)

  /** A value in the browser store under a key: the text of a saved user,
      text that does not parse, or the empty string. */
  datatype Stored = UserJson(user: User) | Unparseable | Blank

  const UserKey := "financeUser"

  /** The part of an e-mail address after the first "@", when there is one
      (`email.split("@")[1]`). */
  function EmailDomain(email: string): (d: Option<string>)
    ensures d.Some? ==> '@' !in d.value
  {
    var parts := Split(email, '@');
    if |parts| > 1 then Some(parts[1]) else None
  }

  /** `getOrganizationName`. */
  function OrganizationName(user: Option<User>): (name: string)
    ensures user.None? ==> name == "Personal Use"
    ensures user.Some? && user.value.hd != "" && EmailDomain(user.value.email) != Some(user.value.hd) ==>
      name == user.value.hd
    ensures user.Some? && (user.value.hd == "" || EmailDomain(user.value.email) == Some(user.value.hd)) ==>
      name == (if user.value.organizationName != "" then user.value.organizationName else "Personal Use")
  {
    if user.None? then "Personal Use"
    else if user.value.hd != "" && EmailDomain(user.value.email) != Some(user.value.hd) then user.value.hd
    else if user.value.organizationName != "" then user.value.organizationName
    else "Personal Use"
  }

  /** A hosted domain that is the e-mail's own domain is not shown: the
      organisation name is used instead. */
  lemma OwnDomainHidden(local: string, domain: string, org: string)
    requires '@' !in local && '@' !in domain && domain != ""
    ensures OrganizationName(Some(User(local + "@" + domain, domain, org))) ==
      (if org != "" then org else "Personal Use")
  {
    SplitOnce(local, domain);
  }

  lemma SplitOnce(local: string, domain: string)
    requires '@' !in local && '@' !in domain
    ensures Split(local + "@" + domain, '@') == [local, domain]
  {
    SplitJoin([local, domain], '@');
    assert Join([local, domain], "@") == local + "@" + domain by {
      assert Join([domain], "@") == domain;
    }
  }

  /** `useAuth`: the context's value, or the error it throws outside a
      provider. */
  datatype Result<T> = Ok(value: T) | Err(message: string)

  function UseAuth<T>(context: Option<T>): (r: Result<T>)
    ensures r.Ok? <==> context.Some?
    ensures r.Ok? ==> r.value == context.value
    ensures r.Err? ==> r.message == "useAuth must be used within an AuthProvider"
  {
    if context.None? then Err("useAuth must be used within an AuthProvider") else Ok(context.value)
  }

  /** `AuthProvider`: the user, the loading flag, and the browser store it
      reads and writes. */
  class AuthProvider {
    var user: Option<User>
    var loading: bool
    var store: map<string, Stored>

    /** A fresh provider over the store as the browser has it: no user yet,
        still loading. */
    constructor(store: map<string, Stored>)
      ensures this.user.None? && this.loading && this.store == store
    {
      this.user := None;
      this.loading := true;
      this.store := store;
    }

    /** `isAuthenticated`. */
    function IsAuthenticated(): bool
      reads this
    {
      user.Some?
    }

    /** The start-up effect: a saved user that parses is restored, one that
        does not is removed from the store, an empty one is ignored; loading
        ends in every case. */
    method Restore()
      modifies this
      ensures !loading
      ensures UserKey in old(store) && old(store)[UserKey].UserJson? ==>
        user == Some(old(store)[UserKey].user) && store == old(store)
      ensures UserKey in old(store) && old(store)[UserKey].Unparseable? ==>
        user == old(user) && store == old(store) - {UserKey}
      ensures (UserKey !in old(store) || old(store)[UserKey].Blank?) ==>
        user == old(user) && store == old(store)
    {
      if UserKey in store {
        var saved := store[UserKey];
        match saved
        case UserJson(u) =>
          user := Some(u);
        case Unparseable =>
          store := store - {UserKey};
        case Blank =>
      }
      loading := false;
    }

    /** `login`: the user is set and saved. */
    method Login(u: User)
      modifies this
      ensures user == Some(u) && IsAuthenticated()
      ensures store == old(store)[UserKey := UserJson(u)]
      ensures loading == old(loading)
    {
      user := Some(u);
      store := store[UserKey := UserJson(u)];
    }

    /** `logout`: the user is cleared and the saved copy removed. */
    method Logout()
      modifies this
      ensures user.None? && !IsAuthenticated()
      ensures store == old(store) - {UserKey}
      ensures loading == old(loading)
    {
      user := None;
      store := store - {UserKey};
    }

    /** `getOrganizationName` on the current user. */
    function Organization(): string
      reads this
    {
      OrganizationName(user)
    }
  }

  /** A user saved by signing in is the one a later start-up restores. */
  method LoginSurvivesRestart(u: User, store: map<string, Stored>) returns (restored: Option<User>)
    ensures restored == Some(u)
  {
    var first := new AuthProvider(store);
    first.Login(u);
    var second := new AuthProvider(first.store);
    second.Restore();
    restored := second.user;
  }

  /** After signing out, a restart finds nobody signed in. */
  method LogoutSurvivesRestart(store: map<string, Stored>) returns (restored: Option<User>, organization: string)
    ensures restored.None? && organization == "Personal Use"
  {
    var first := new AuthProvider(store);
    first.Logout();
    var second := new AuthProvider(first.store);
    second.Restore();
    restored := second.user;
    organization := second.Organization();
  }
}
