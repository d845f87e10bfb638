/** `useCategories`: the user's category lists behind a module-level cache that every
    mounted hook shares. */
module UseCategories {
  import opened Ledger

  datatype UserCategories = UserCategories(expense: seq<string>, income: seq<string>)

  /** The module-level `categoryCache` and `hasFetched`. */
  class CategoryCache {
    var cache: Option<UserCategories>
    var hasFetched: bool

    /** The two are set together and cleared together. */
    ghost predicate Valid()
      reads this
    {
      hasFetched <==> cache.Some?
    }

    /** Whether a fetch is answered without the backend (`categoryCache && hasFetched`). */
    predicate Hit()
      reads this
    {
      cache.Some? && hasFetched
    }

    constructor ()
      ensures Valid() && cache == None && !hasFetched
    {
      cache := None;
      hasFetched := false;
    }

    /** `categoryCache = null; hasFetched = false`. */
    method Reset()
      modifies this
      ensures Valid() && cache == None && !hasFetched && !Hit()
    {
      cache := None;
      hasFetched := false;
    }
  }

  /** One mounted `useCategories`; `defaults` stands for `defaultExpenseCategories` and
      `defaultIncomeCategories`, which are not part of this model. */
  class CategoriesHook {
    var categories: UserCategories
    var loading: bool
    const cache: CategoryCache
    const defaults: UserCategories

    constructor (cache: CategoryCache, defaults: UserCategories)
      ensures this.cache == cache && this.defaults == defaults
      ensures categories == defaults && loading
    {
      this.cache := cache;
      this.defaults := defaults;
      categories := defaults;
      loading := true;
    }

    /** `fetchCategories`; `outcome` is what `getUserCategories` gives if it is called. */
    method Fetch(outcome: Outcome<UserCategories>) returns (calledBackend: bool)
      requires cache.Valid()
      modifies this, cache
      ensures cache.Valid() && !loading
      ensures calledBackend == !old(cache.Hit())
      ensures old(cache.Hit()) ==>
        categories == old(cache.cache.value) && cache.cache == old(cache.cache)
        && cache.hasFetched == old(cache.hasFetched)
      ensures !old(cache.Hit()) && outcome.Succeeded? ==>
        categories == outcome.value && cache.cache == Some(outcome.value) && cache.hasFetched
      ensures !old(cache.Hit()) && outcome.Failed? ==>
        categories == defaults && cache.cache == old(cache.cache) && !cache.hasFetched
    {
      if cache.cache.Some? && cache.hasFetched {
        categories := cache.cache.value;
        loading := false;
        return false;
      }
      loading := true;
      calledBackend := true;
      if outcome.Succeeded? {
        categories := outcome.value;
        cache.cache := Some(outcome.value);
        cache.hasFetched := true;
      } else {
        categories := defaults;
      }
      loading := false;
    }

    /** The effect on `user`: a signed-in user clears the cache and fetches; no user
        means the defaults. */
    method UserChanged(signedIn: bool, outcome: Outcome<UserCategories>) returns (calledBackend: bool)
      requires cache.Valid()
      modifies this, cache
      ensures cache.Valid() && !loading
      ensures calledBackend == signedIn
      ensures signedIn && outcome.Succeeded? ==> categories == outcome.value && cache.cache == Some(outcome.value)
      ensures signedIn && outcome.Failed? ==> categories == defaults && cache.cache == None
      ensures !signedIn ==>
        categories == defaults && cache.cache == old(cache.cache) && cache.hasFetched == old(cache.hasFetched)
    {
      if signedIn {
        cache.Reset();
        calledBackend := Fetch(outcome);
      } else {
        categories := defaults;
        loading := false;
        calledBackend := false;
      }
    }

    /** `mutate`: invalidate, then fetch, which therefore always asks the backend. */
    method Mutate(outcome: Outcome<UserCategories>) returns (calledBackend: bool)
      requires cache.Valid()
      modifies this, cache
      ensures cache.Valid() && !loading && calledBackend
      ensures outcome.Succeeded? ==> categories == outcome.value && cache.cache == Some(outcome.value)
      ensures outcome.Failed? ==> categories == defaults && cache.cache == None
    {
      cache.Reset();
      calledBackend := Fetch(outcome);
    }
  }

  /** A second user never sees the first user's cached lists: whatever the first user's
      fetch stored, the second user's lists come from the backend or the defaults. */
  method SwitchUser(defaults: UserCategories, first: UserCategories, second: Outcome<UserCategories>)
    returns (shown: UserCategories)
    ensures second.Succeeded? ==> shown == second.value
    ensures second.Failed? ==> shown == defaults
  {
    var cache := new CategoryCache();
    var hook := new CategoriesHook(cache, defaults);
    var _ := hook.UserChanged(true, Succeeded(first));
    var _ := hook.UserChanged(true, second);
    shown := hook.categories;
  }

  /** A second hook mounted after the first one's load, as the code is written: its own
      `user` effect clears the shared cache before fetching, so it asks the backend again
      and never shows what the first hook stored. */
  method SecondMountRefetches(defaults: UserCategories, fetched: UserCategories,
                              later: Outcome<UserCategories>)
    returns (calledBackend: bool, shown: UserCategories)
    ensures calledBackend
    ensures later.Succeeded? ==> shown == later.value
    ensures later.Failed? ==> shown == defaults
  {
    var cache := new CategoryCache();
    var first := new CategoriesHook(cache, defaults);
    var _ := first.UserChanged(true, Succeeded(fetched));
    var second := new CategoriesHook(cache, defaults);
    calledBackend := second.UserChanged(true, later);
    shown := second.categories;
  }

  /** The user the shared cache was filled for: the module-level variable the corrected
      effect keeps beside `categoryCache`. */
  class CacheOwner {
    var user: Option<string>

    constructor ()
      ensures user == None
    {
      user := None;
    }
  }

  /** The `user` effect as intended by "avoid re-fetching on every component mount": the
      cache is cleared only when the signed-in user differs from the one it was filled
      for, and the fetch then reads it when it holds that user's lists. */
  method UserChangedFixed(hook: CategoriesHook, owner: CacheOwner, user: Option<string>,
                          outcome: Outcome<UserCategories>)
    returns (calledBackend: bool)
    requires hook.cache.Valid()
    modifies hook, hook.cache, owner
    ensures hook.cache.Valid() && !hook.loading
    ensures user.Some? ==> owner.user == user
    ensures user.None? ==> owner.user == old(owner.user) && hook.categories == hook.defaults
    ensures calledBackend <==> user.Some? && !(old(owner.user) == user && old(hook.cache.Hit()))
    ensures user.Some? && old(owner.user) == user && old(hook.cache.Hit()) ==>
      hook.categories == old(hook.cache.cache.value) && hook.cache.cache == old(hook.cache.cache)
    ensures calledBackend && outcome.Succeeded? ==>
      hook.categories == outcome.value && hook.cache.cache == Some(outcome.value)
    ensures calledBackend && outcome.Failed? ==> hook.categories == hook.defaults
  {
    if user.Some? {
      if owner.user != user {
        hook.cache.Reset();
        owner.user := user;
      }
      calledBackend := hook.Fetch(outcome);
    } else {
      calledBackend := hook.UserChanged(false, outcome);
    }
  }

  /** With the corrected effect, a second hook mounted for the same user reads the shared
      cache the first hook filled and does not call the backend. */
  method SecondMountReadsCache(defaults: UserCategories, user: string, fetched: UserCategories,
                               later: Outcome<UserCategories>)
    returns (calledBackend: bool, shown: UserCategories)
    ensures !calledBackend && shown == fetched
  {
    var cache := new CategoryCache();
    var owner := new CacheOwner();
    var first := new CategoriesHook(cache, defaults);
    var _ := UserChangedFixed(first, owner, Some(user), Succeeded(fetched));
    var second := new CategoriesHook(cache, defaults);
    calledBackend := UserChangedFixed(second, owner, Some(user), later);
    shown := second.categories;
  }

  /** A failed load shows the defaults; the settings dialog's save then calls `mutate`,
      which clears the cache and asks the backend whatever the load gave. */
  method FailureRetries(defaults: UserCategories, later: Outcome<UserCategories>)
    returns (firstShown: UserCategories, retried: bool, shown: UserCategories)
    ensures firstShown == defaults && retried
    ensures later.Succeeded? ==> shown == later.value
    ensures later.Failed? ==> shown == defaults
  {
    var cache := new CategoryCache();
    var hook := new CategoriesHook(cache, defaults);
    var _ := hook.UserChanged(true, Failed);
    firstShown := hook.categories;
    retried := hook.Mutate(later);
    shown := hook.categories;
  }
}
