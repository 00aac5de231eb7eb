/**
 * The dashboard of a user who is not a developer: the signed-in user's own
 * tasks, fetched once a user is in the store, with descriptions shortened
 * to 100 units on the cards.
 */
module UserDashboard {
  import opened Wrappers
  import opened JsText
  import opened Types
  import opened Store

  /** The card text: descriptions over 100 units are cut to 100 and marked with `...`. */
  function CardDescription(description: JsString): (text: JsString)
    ensures |description| <= 100 ==> text == description
    ensures |description| > 100 ==> text == description[..100] + Str("...")
  {
    Truncate(description, 100)
  }

  /**
   * The fetch, as a function of the store user and the answer of the query
   * for tasks submitted by that user: the store after it, and whether the
   * fetch ran and so ended the loading state.
   */
  function FetchResult(s: StoreState, listBySubmitter: JsString -> Result<seq<Task>>): (r: (StoreState, bool))
    ensures s.user.None? ==> r == (s, false)
    ensures s.user.Some? ==> r.1 && r.0.user == s.user && r.0.isLoading == s.isLoading
    ensures s.user.Some? && listBySubmitter(s.user.value.id).Success? ==>
      r.0.tasks == listBySubmitter(s.user.value.id).value
    ensures s.user.Some? && listBySubmitter(s.user.value.id).Failure? ==> r.0 == s
  {
    if s.user.None? then (s, false)
    else match listBySubmitter(s.user.value.id)
      case Success(ts) => (Step(s, SetTasks(ts)), true)
      case Failure(_) => (s, true)
  }

  /**
   * Without a user the fetch returns at once, so the page stays in its
   * loading state until a user arrives: when the account lookup failed, it
   * never leaves it.
   */
  lemma NoUserKeepsLoading(s: StoreState, listBySubmitter: JsString -> Result<seq<Task>>)
    requires s.user.None?
    ensures !FetchResult(s, listBySubmitter).1
    ensures FetchResult(s, listBySubmitter).0 == s
  {}

  /** After the user is set from an account, the fetch asks for that account's tasks and only those. */
  lemma FetchAfterSignIn(s: StoreState, a: Account, listBySubmitter: JsString -> Result<seq<Task>>)
    requires listBySubmitter(a.id).Success?
    ensures var signedIn := Step(s, SetUser(Some(UserFromAccount(a, false))));
      FetchResult(signedIn, listBySubmitter).0.tasks == listBySubmitter(a.id).value
      && FetchResult(signedIn, listBySubmitter).1
      && !IsDeveloper(FetchResult(signedIn, listBySubmitter).0.user.value)
  {
    var signedIn := Step(s, SetUser(Some(UserFromAccount(a, false))));
    assert signedIn.user.value.id == a.id;
  }

  /** The component's own state: the loading flag, true until a fetch for a user settles. */
  class UserDashboardView {
    var isLoading: bool

    constructor ()
      ensures isLoading
    {
      isLoading := true;
    }

    /** `initializeUser`: a found account becomes the store user, never a developer; a failure changes nothing. */
    method InitializeUser(store: AppStore, account: Result<Account>)
      modifies store
      ensures account.Success? ==> store.State() == Step(old(store.State()), SetUser(Some(UserFromAccount(account.value, false))))
      ensures account.Failure? ==> store.State() == old(store.State())
    {
      if account.Success? {
        store.SetUser(Some(UserFromAccount(account.value, false)));
      }
    }

    /**
     * `fetchUserTasks`: without a store user nothing happens; otherwise the
     * tasks submitted by that user replace the store's list when the query
     * succeeds, and loading ends either way. `queried` is the submitter id
     * the query was made for.
     */
    method FetchUserTasks(store: AppStore, listBySubmitter: JsString -> Result<seq<Task>>)
      returns (queried: Option<JsString>)
      modifies this, store
      ensures old(store.user).None? ==> queried == None && isLoading == old(isLoading)
      ensures old(store.user).Some? ==> queried == Some(old(store.user).value.id) && !isLoading
      ensures store.State() == FetchResult(old(store.State()), listBySubmitter).0
    {
      queried := None;
      if store.user.Some? {
        var id := store.user.value.id;
        queried := Some(id);
        var listing := listBySubmitter(id);
        if listing.Success? {
          store.SetTasks(listing.value);
        }
        isLoading := false;
      }
    }
  }
}
