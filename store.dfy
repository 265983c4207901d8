/**
 * The budget store: every table of the application, and the requests that
 * change it. Each request is made by a logged-in user (`actor`), who sees and
 * changes only their own records: another user's record is reported as not
 * found, exactly like a missing one. The administrator's requests are refused
 * unless the actor is a superuser.
 */
module Store {
  import opened Common
  import opened Models
  import opened Forms
  import opened Reports

  /** The categories every new account starts with. */
  const DefaultCategories: seq<string> := ["Salary", "Food", "Rent", "Books", "Party"]

  /**
   * The database after categories of `owner` named `names` are inserted one
   * after the other: each gets the next free id, and nothing else changes.
   */
  function WithCategories(db: Db, owner: UserId, names: seq<string>): (r: Db)
    requires forall c :: c in db.categories ==> c < db.nextCategory
    ensures r == db.(categories := r.categories, nextCategory := db.nextCategory + |names|)
    ensures forall c :: c in r.categories <==> c in db.categories || db.nextCategory <= c < r.nextCategory
    ensures forall c :: c in db.categories ==> r.categories[c] == db.categories[c]
    ensures forall k :: 0 <= k < |names| ==> r.categories[db.nextCategory + k] == Category(owner, names[k])
  {
    if names == [] then db
    else WithCategory(WithCategories(db, owner, names[..|names| - 1]), owner, names[|names| - 1])
  }

  /** The database after the account registered with `f` and its profile are created under the next user id. */
  function WithAccount(db: Db, f: RegistrationInput): Db {
    db.(users := db.users[db.nextUser := NewUser(f)],
        profiles := db.profiles[db.nextUser := Profile(DefaultCurrency)],
        nextUser := db.nextUser + 1)
  }

  /** The database after the registration with `f`: the account, its profile and its default categories. */
  function Registered(db: Db, f: RegistrationInput): Db
    requires forall c :: c in db.categories ==> c < db.nextCategory
  {
    WithCategories(WithAccount(db, f), db.nextUser, DefaultCategories)
  }

  /** Inserting categories of one owner under distinct, non-empty names that owner does not use yet keeps the database consistent. */
  lemma {:induction false} WithCategoriesConsistent(db: Db, owner: UserId, names: seq<string>)
    requires Consistent(db) && owner in db.users
    requires forall k :: 0 <= k < |names| ==> names[k] != ""
    requires forall j, k :: 0 <= j < k < |names| ==> names[j] != names[k]
    requires forall c :: c in db.categories && db.categories[c].owner == owner ==> db.categories[c].name !in names
    ensures Consistent(WithCategories(db, owner, names))
  {
    if names != [] {
      var p := names[..|names| - 1];
      var last := names[|names| - 1];
      WithCategoriesConsistent(db, owner, p);
      var q := WithCategories(db, owner, p);
      forall c | c in q.categories && q.categories[c].owner == owner
        ensures q.categories[c].name != last
      {
        if c !in db.categories {
          var k := c - db.nextCategory;
          assert q.categories[c] == Category(owner, p[k]);
        }
      }
      WithCategoryConsistent(q, owner, last);
    }
  }

  /** A registration accepted against `db` keeps the database consistent. */
  lemma RegisteredConsistent(db: Db, f: RegistrationInput)
    requires Consistent(db) && RegistrationError(f, UsernamesOf(db)).None?
    ensures Consistent(Registered(db, f))
  {
    var a := WithAccount(db, f);
    var uid := db.nextUser;
    assert uid !in db.users;
    assert UsernamesUnique(a) by {
      assert forall u :: u in db.users ==> db.users[u].username in UsernamesOf(db);
    }
    assert forall j, k :: 0 <= j < k < |DefaultCategories| ==> DefaultCategories[j][0] != DefaultCategories[k][0];
    WithCategoriesConsistent(a, uid, DefaultCategories);
  }

  /**
   * A registration accepted against `db` adds exactly: the account under the
   * next user id, its profile in the default currency, and the five default
   * categories owned by it under the next category ids.
   */
  lemma RegisteredShape(db: Db, f: RegistrationInput)
    requires Consistent(db)
    ensures db.nextUser !in db.users
    ensures Registered(db, f).users == db.users[db.nextUser := NewUser(f)]
    ensures Registered(db, f).profiles == db.profiles[db.nextUser := Profile(DefaultCurrency)]
    ensures Registered(db, f).nextUser == db.nextUser + 1
    ensures Registered(db, f).nextCategory == db.nextCategory + |DefaultCategories|
    ensures (Registered(db, f).transactions, Registered(db, f).goals) == (db.transactions, db.goals)
    ensures (Registered(db, f).nextTransaction, Registered(db, f).nextGoal) == (db.nextTransaction, db.nextGoal)
    ensures forall c :: c in db.categories ==> c in Registered(db, f).categories && Registered(db, f).categories[c] == db.categories[c]
    ensures forall k :: 0 <= k < |DefaultCategories| ==>
      Registered(db, f).categories[db.nextCategory + k] == Category(db.nextUser, DefaultCategories[k])
    ensures forall c :: c in Registered(db, f).categories && Registered(db, f).categories[c].owner == db.nextUser <==> db.nextCategory <= c < Registered(db, f).nextCategory
  {
    var r := Registered(db, f);
    forall c | db.nextCategory <= c < r.nextCategory
      ensures c in r.categories && r.categories[c].owner == db.nextUser
    {
      assert r.categories[db.nextCategory + (c - db.nextCategory)] == Category(db.nextUser, DefaultCategories[c - db.nextCategory]);
    }
  }

  /** The usernames of every account but `u`. */
  function OtherUsernamesOf(db: Db, u: UserId): (r: set<string>)
    ensures forall name :: name in r <==> exists v :: v in db.users && v != u && db.users[v].username == name
  {
    set v | v in db.users && v != u :: db.users[v].username
  }

  /** The database after the administrator's form `f` is applied to account `u`. */
  function WithUserUpdate(db: Db, u: UserId, f: UserUpdateInput): Db
    requires u in db.users
  {
    db.(users := db.users[u := ApplyUserUpdate(db.users[u], f)])
  }

  /** An accepted edit of an account keeps the database consistent: usernames stay unique. */
  lemma WithUserUpdateConsistent(db: Db, u: UserId, f: UserUpdateInput)
    requires Consistent(db) && u in db.users && UserUpdateValid(f, OtherUsernamesOf(db, u))
    ensures Consistent(WithUserUpdate(db, u, f))
  {
    assert forall v :: v in db.users && v != u ==> db.users[v].username in OtherUsernamesOf(db, u);
  }

  /** The ids of `owner`'s transactions below `n`, in increasing order. */
  function OwnedIds(txs: map<TransactionId, Transaction>, owner: UserId, n: nat): (ids: seq<TransactionId>)
    ensures forall i :: 0 <= i < |ids| ==> ids[i] in txs && ids[i] < n && txs[ids[i]].owner == owner
    ensures forall id :: id in txs && id < n && txs[id].owner == owner ==> id in ids
    ensures forall i, j :: 0 <= i < j < |ids| ==> ids[i] < ids[j]
  {
    if n == 0 then []
    else
      var ids := OwnedIds(txs, owner, n - 1);
      if n - 1 in txs && txs[n - 1].owner == owner then ids + [n - 1] else ids
  }

  /** The records with the given ids, in that order. */
  function Select(txs: map<TransactionId, Transaction>, ids: seq<TransactionId>): (s: seq<Transaction>)
    requires forall i :: 0 <= i < |ids| ==> ids[i] in txs
    ensures |s| == |ids| && forall i :: 0 <= i < |ids| ==> s[i] == txs[ids[i]]
  {
    seq(|ids|, i requires 0 <= i < |ids| => txs[ids[i]])
  }

  /**
   * The goal's current amount after a positive adjustment: "add" raises it by
   * the amount with no cap at the target, "subtract" lowers it but never below
   * 0, and any other action leaves it as it was.
   */
  function AdjustedAmount(current: Cents, amount: Cents, action: string): (r: Cents)
    requires amount > 0
    ensures action == "add" ==> r == current + amount
    ensures action == "subtract" ==> r >= 0 && (r == current - amount || (r == 0 && current < amount))
    ensures action != "add" && action != "subtract" ==> r == current
  {
    if action == "add" then current + amount
    else if action == "subtract" then (if current - amount < 0 then 0 else current - amount)
    else current
  }

  /** Subtracting what was just added gives back a non-negative amount; adding back what was subtracted does so only when nothing was clamped. */
  lemma AdjustRoundTrip(current: Cents, amount: Cents)
    requires amount > 0
    ensures current >= 0 ==> AdjustedAmount(AdjustedAmount(current, amount, "add"), amount, "subtract") == current
    ensures AdjustedAmount(AdjustedAmount(current, amount, "subtract"), amount, "add") == current <==> current >= amount
  {
  }

  /** Writes the header row, then one row per transaction, one at a time. */
  method WriteRows(cats: map<CategoryId, Category>, listing: seq<Transaction>) returns (rows: seq<ExportRow>)
    ensures rows == Export(cats, listing)
  {
    rows := [Header(ExportHeader)];
    for i := 0 to |listing|
      invariant rows == [Header(ExportHeader)] + Records(cats, listing[..i])
    {
      assert listing[..i + 1][..i] == listing[..i];
      rows := rows + [ExportRecord(cats, listing[i])];
    }
    assert listing[..|listing|] == listing;
  }

  class BudgetStore {
    var users: map<UserId, User>
    var profiles: map<UserId, Profile>
    var categories: map<CategoryId, Category>
    var transactions: map<TransactionId, Transaction>
    var goals: map<GoalId, SavingGoal>
    var nextUser: nat
    var nextCategory: nat
    var nextTransaction: nat
    var nextGoal: nat

    /** All tables at once. */
    function State(): Db
      reads this
    {
      Db(users, profiles, categories, transactions, goals, nextUser, nextCategory, nextTransaction, nextGoal)
    }

    ghost predicate Valid()
      reads this
    {
      Consistent(State())
    }

    /**
     * A store holding accounts created before profiles existed: they have no
     * profile yet, and nothing else is stored.
     */
    constructor (accounts: map<UserId, User>, firstFreeId: nat)
      requires forall u :: u in accounts ==> u < firstFreeId
      requires forall u, v :: u in accounts && v in accounts && u != v ==> accounts[u].username != accounts[v].username
      ensures Valid()
      ensures State() == Db(accounts, map[], map[], map[], map[], firstFreeId, 0, 0, 0)
    {
      users, profiles, categories, transactions, goals := accounts, map[], map[], map[], map[];
      nextUser, nextCategory, nextTransaction, nextGoal := firstFreeId, 0, 0, 0;
    }

    // -------------------------------------------------------------------------
    // Queries
    // -------------------------------------------------------------------------

    predicate NameTaken(owner: UserId, name: string)
      reads this
    {
      exists c :: c in categories && categories[c].owner == owner && categories[c].name == name
    }

    /** The ids of `owner`'s transactions, oldest id first. */
    function LedgerIds(owner: UserId): (ids: seq<TransactionId>)
      reads this
      ensures forall i :: 0 <= i < |ids| ==> ids[i] in transactions && transactions[ids[i]].owner == owner
      ensures forall id :: id in transactions && id < nextTransaction && transactions[id].owner == owner ==> id in ids
      ensures forall i, j :: 0 <= i < j < |ids| ==> ids[i] < ids[j]
    {
      OwnedIds(transactions, owner, nextTransaction)
    }

    /** `owner`'s transactions, oldest id first. */
    function Ledger(owner: UserId): (s: seq<Transaction>)
      reads this
      ensures |s| == |LedgerIds(owner)| && forall i :: 0 <= i < |s| ==> s[i].owner == owner
      ensures forall i :: 0 <= i < |s| ==> s[i] == transactions[LedgerIds(owner)[i]]
    {
      Select(transactions, LedgerIds(owner))
    }

    /** In a valid store, every transaction of `owner` is in the ledger, under its own id. */
    lemma LedgerComplete(owner: UserId)
      requires Valid()
      ensures forall id :: id in transactions && transactions[id].owner == owner ==>
        exists i :: 0 <= i < |Ledger(owner)| && LedgerIds(owner)[i] == id && Ledger(owner)[i] == transactions[id]
    {
      var ids := LedgerIds(owner);
      forall id | id in transactions && transactions[id].owner == owner
        ensures exists i :: 0 <= i < |Ledger(owner)| && ids[i] == id && Ledger(owner)[i] == transactions[id]
      {
        assert id < nextTransaction;
        assert id in ids;
        var i :| 0 <= i < |ids| && ids[i] == id;
        assert Ledger(owner)[i] == transactions[id];
      }
    }

    /** The actor's categories (the list on the profile and category pages). */
    function OwnedCategories(actor: UserId): (r: set<CategoryId>)
      reads this
      ensures forall c :: c in r <==> c in categories && categories[c].owner == actor
    {
      CategoryChoices(categories, actor)
    }

    /** The actor's saving goals (the savings page). */
    function OwnedGoals(actor: UserId): (r: set<GoalId>)
      reads this
      ensures forall g :: g in r <==> g in goals && goals[g].owner == actor
    {
      set g | g in goals && goals[g].owner == actor
    }

    /** The dashboard: five most recent transactions, totals and expense chart. */
    function Dashboard(actor: UserId): Reports.Dashboard
      reads this
    {
      DashboardOf(categories, Ledger(actor))
    }

    /** The income or expense history page. */
    function HistoryOf(actor: UserId, kind: TxType): seq<Transaction>
      reads this
    {
      History(Ledger(actor), kind)
    }

    /** The progress shown for one of the actor's goals; reading it changes nothing. */
    method GoalProgress(actor: UserId, id: GoalId) returns (r: Result<real>)
      ensures id !in goals || goals[id].owner != actor ==> r == Err(NotFound)
      ensures id in goals && goals[id].owner == actor ==> r == Ok(ProgressPercentage(goals[id]))
    {
      if id !in goals || goals[id].owner != actor {
        return Err(NotFound);
      }
      r := Ok(ProgressPercentage(goals[id]));
    }

    /** The administrator's user list. */
    method AdminUserList(admin: UserId) returns (r: Result<set<UserId>>)
      requires admin in users
      ensures !users[admin].isSuperuser ==> r == Err(Forbidden)
      ensures users[admin].isSuperuser ==> r == Ok(users.Keys)
    {
      if !users[admin].isSuperuser {
        return Err(Forbidden);
      }
      r := Ok(users.Keys);
    }

    /** The CSV export of the actor's transactions, in listing order. */
    method ExportCsv(actor: UserId) returns (rows: seq<ExportRow>)
      ensures rows == Export(categories, SortListing(Ledger(actor)))
      ensures |rows| == |LedgerIds(actor)| + 1
    {
      var ledger := Ledger(actor);
      var listing := SortListing(ledger);
      rows := WriteRows(categories, listing);
      assert |listing| == |multiset(listing)| == |multiset(ledger)| == |ledger|;
    }

    // -------------------------------------------------------------------------
    // Accounts and profiles
    // -------------------------------------------------------------------------

    /**
     * The post-save handlers of an account: a profile with the default
     * currency is created for a new account and backfilled for an existing
     * one that has none.
     */
    method UserSaved(u: UserId)
      requires Valid() && u in users
      modifies this
      ensures Valid() && u in profiles
      ensures State() == old(State()).(profiles := if u in old(profiles) then old(profiles) else old(profiles)[u := Profile(DefaultCurrency)])
    {
      if u !in profiles {
        var db := WithProfile(State(), u, DefaultCurrency);
        WithProfileConsistent(State(), u, DefaultCurrency);
        profiles := db.profiles;
      }
    }

    /** Inserts one category row; the caller has checked that the owner has no category of that name. */
    method InsertCategory(owner: UserId, name: string) returns (id: CategoryId)
      requires Valid() && owner in users && name != "" && !NameTaken(owner, name)
      modifies this
      ensures Valid() && id == old(nextCategory)
      ensures State() == WithCategory(old(State()), owner, name)
    {
      var db := WithCategory(State(), owner, name);
      WithCategoryConsistent(State(), owner, name);
      id := nextCategory;
      categories, nextCategory := db.categories, db.nextCategory;
    }

    /** Inserts the default categories of the new account `uid`, one row per name. */
    method AddDefaultCategories(uid: UserId)
      requires forall c :: c in categories ==> c < nextCategory
      modifies this
      ensures State() == WithCategories(old(State()), uid, DefaultCategories)
    {
      var i := 0;
      while i < |DefaultCategories|
        invariant 0 <= i <= |DefaultCategories|
        invariant State() == WithCategories(old(State()), uid, DefaultCategories[..i])
      {
        assert DefaultCategories[..i + 1][..i] == DefaultCategories[..i];
        var next := WithCategory(State(), uid, DefaultCategories[i]);
        categories, nextCategory := next.categories, next.nextCategory;
        i := i + 1;
      }
      assert DefaultCategories[..i] == DefaultCategories;
    }

    /**
     * Registration: on a valid form, the new account, the profile its
     * post-save handler creates, and its default categories.
     */
    method Register(f: RegistrationInput) returns (r: Result<UserId>)
      requires Valid()
      modifies this
      ensures Valid()
      ensures RegistrationError(f, old(UsernamesOf(State()))).Some? ==>
        r == Err(RegistrationError(f, old(UsernamesOf(State()))).value) && State() == old(State())
      ensures RegistrationError(f, old(UsernamesOf(State()))).None? ==>
        r == Ok(old(nextUser)) && State() == Registered(old(State()), f)
    {
      var e := RegistrationError(f, UsernamesOf(State()));
      if e.Some? {
        return Err(e.value);
      }
      ghost var before := State();
      var uid := nextUser;
      var db := WithAccount(State(), f);
      users, profiles, nextUser := db.users, db.profiles, db.nextUser;
      AddDefaultCategories(uid);
      assert State() == Registered(before, f);
      RegisteredConsistent(before, f);
      r := Ok(uid);
    }

    /**
     * The currency preference: only the three offered codes are accepted;
     * a missing profile is created first. Any other value changes nothing.
     */
    method SetCurrency(actor: UserId, code: string) returns (ok: bool)
      requires Valid() && actor in users
      modifies this
      ensures Valid()
      ensures ok <==> code in Currencies
      ensures ok ==> State() == WithProfile(old(State()), actor, code)
      ensures !ok ==> State() == old(State())
    {
      ghost var before := State();
      if code in [Forint, Dollar, Euro] {
        assert code in Currencies;
        if actor !in profiles {
          var created := WithProfile(State(), actor, DefaultCurrency);
          WithProfileConsistent(State(), actor, DefaultCurrency);
          profiles := created.profiles;
          WithProfileTwice(before, actor, DefaultCurrency, code);
        }
        var updated := WithProfile(State(), actor, code);
        WithProfileConsistent(State(), actor, code);
        profiles := updated.profiles;
        ok := true;
      } else {
        assert code !in Currencies;
        ok := false;
      }
    }

    /** The administrator edits another account's username, email and active flag, then the account's post-save handlers run. */
    method AdminEditUser(admin: UserId, id: UserId, f: UserUpdateInput) returns (o: Outcome)
      requires Valid() && admin in users
      modifies this
      ensures Valid()
      ensures !old(users[admin].isSuperuser) ==> o == Failed(Forbidden) && State() == old(State())
      ensures old(users[admin].isSuperuser) && id !in old(users) ==> o == Failed(NotFound) && State() == old(State())
      ensures old(users[admin].isSuperuser) && id in old(users) && !UserUpdateValid(f, old(OtherUsernamesOf(State(), id))) ==>
        o == Failed(InvalidForm) && State() == old(State())
      ensures old(users[admin].isSuperuser) && id in old(users) && UserUpdateValid(f, old(OtherUsernamesOf(State(), id))) ==>
        && o == Applied
        && State() == old(State()).(
             users := old(users)[id := ApplyUserUpdate(old(users)[id], f)],
             profiles := if id in old(profiles) then old(profiles) else old(profiles)[id := Profile(DefaultCurrency)])
    {
      if !users[admin].isSuperuser {
        return Failed(Forbidden);
      }
      if id !in users {
        return Failed(NotFound);
      }
      if !UserUpdateValid(f, OtherUsernamesOf(State(), id)) {
        return Failed(InvalidForm);
      }
      var db := WithUserUpdate(State(), id, f);
      WithUserUpdateConsistent(State(), id, f);
      users := db.users;
      UserSaved(id);
      o := Applied;
    }

    /**
     * The administrator deletes an account with everything it owns. Deleting
     * one's own account is refused, and only a POST deletes.
     */
    method AdminDeleteUser(admin: UserId, id: UserId, post: bool) returns (o: Outcome)
      requires Valid() && admin in users
      modifies this
      ensures Valid()
      ensures !old(users[admin].isSuperuser) ==> o == Failed(Forbidden) && State() == old(State())
      ensures old(users[admin].isSuperuser) && id !in old(users) ==> o == Failed(NotFound) && State() == old(State())
      ensures old(users[admin].isSuperuser) && id in old(users) && !post ==> o == NotPost && State() == old(State())
      ensures old(users[admin].isSuperuser) && id in old(users) && post && id == admin ==>
        o == Failed(SelfDeletion) && State() == old(State())
      ensures old(users[admin].isSuperuser) && id in old(users) && post && id != admin ==>
        o == Applied && State() == WithoutUser(old(State()), id)
    {
      if !users[admin].isSuperuser {
        return Failed(Forbidden);
      }
      if id !in users {
        return Failed(NotFound);
      }
      if !post {
        return NotPost;
      }
      if id == admin {
        return Failed(SelfDeletion);
      }
      var db := WithoutUser(State(), id);
      WithoutUserConsistent(State(), id);
      users, profiles, categories, transactions, goals := db.users, db.profiles, db.categories, db.transactions, db.goals;
      o := Applied;
    }

    // -------------------------------------------------------------------------
    // Categories
    // -------------------------------------------------------------------------

    /**
     * Adds a category for the actor. A name the actor already uses violates
     * the unique (owner, name) constraint at save time, and nothing is saved.
     */
    method CreateCategory(actor: UserId, f: CategoryInput) returns (r: Result<CategoryId>)
      requires Valid() && actor in users
      modifies this
      ensures Valid()
      ensures !CategoryFormValid(f) ==> r == Err(InvalidForm) && State() == old(State())
      ensures CategoryFormValid(f) && old(NameTaken(actor, f.name)) ==> r == Err(DuplicateName) && State() == old(State())
      ensures CategoryFormValid(f) && !old(NameTaken(actor, f.name)) ==>
        && r == Ok(old(nextCategory))
        && State() == old(State()).(categories := old(categories)[r.value := Category(actor, f.name)],
                                    nextCategory := old(nextCategory) + 1)
    {
      if !CategoryFormValid(f) {
        return Err(InvalidForm);
      }
      if NameTaken(actor, f.name) {
        return Err(DuplicateName);
      }
      var id := InsertCategory(actor, f.name);
      r := Ok(id);
    }

    /** Deletes one of the actor's categories on POST; its transactions stay, uncategorised. */
    method DeleteCategory(actor: UserId, id: CategoryId, post: bool) returns (o: Outcome)
      requires Valid()
      modifies this
      ensures Valid()
      ensures (id !in old(categories) || old(categories[id].owner) != actor) ==> o == Failed(NotFound) && State() == old(State())
      ensures id in old(categories) && old(categories[id].owner) == actor && !post ==> o == NotPost && State() == old(State())
      ensures id in old(categories) && old(categories[id].owner) == actor && post ==>
        o == Applied && State() == WithoutCategory(old(State()), id)
    {
      if id !in categories || categories[id].owner != actor {
        return Failed(NotFound);
      }
      if !post {
        return NotPost;
      }
      WithoutCategoryConsistent(State(), id);
      categories := categories - {id};
      transactions := SetNull(transactions, id);
      o := Applied;
    }

    // -------------------------------------------------------------------------
    // Transactions
    // -------------------------------------------------------------------------

    /** Adds a transaction of the actor, stamped with the current time `now`. */
    method AddTransaction(actor: UserId, f: TransactionInput, now: Timestamp) returns (r: Result<TransactionId>)
      requires Valid() && actor in users
      modifies this
      ensures Valid()
      ensures !TransactionFormValid(old(categories), actor, f) ==> r == Err(InvalidForm) && State() == old(State())
      ensures TransactionFormValid(old(categories), actor, f) ==>
        && r == Ok(old(nextTransaction))
        && State() == old(State()).(transactions := old(transactions)[r.value := NewTransaction(actor, f, now)],
                                    nextTransaction := old(nextTransaction) + 1)
    {
      if !TransactionFormValid(categories, actor, f) {
        return Err(InvalidForm);
      }
      var id := nextTransaction;
      transactions := transactions[id := NewTransaction(actor, f, now)];
      nextTransaction := nextTransaction + 1;
      r := Ok(id);
    }

    /** Overwrites the form's fields of one of the actor's transactions. */
    method EditTransaction(actor: UserId, id: TransactionId, f: TransactionInput) returns (o: Outcome)
      requires Valid()
      modifies this
      ensures Valid()
      ensures (id !in old(transactions) || old(transactions[id].owner) != actor) ==> o == Failed(NotFound) && State() == old(State())
      ensures id in old(transactions) && old(transactions[id].owner) == actor && !TransactionFormValid(old(categories), actor, f) ==>
        o == Failed(InvalidForm) && State() == old(State())
      ensures id in old(transactions) && old(transactions[id].owner) == actor && TransactionFormValid(old(categories), actor, f) ==>
        o == Applied && State() == old(State()).(transactions := old(transactions)[id := ApplyTransactionForm(old(transactions[id]), f)])
    {
      if id !in transactions || transactions[id].owner != actor {
        return Failed(NotFound);
      }
      if !TransactionFormValid(categories, actor, f) {
        return Failed(InvalidForm);
      }
      transactions := transactions[id := ApplyTransactionForm(transactions[id], f)];
      o := Applied;
    }

    /** Deletes one of the actor's transactions on POST; categories are not touched. */
    method DeleteTransaction(actor: UserId, id: TransactionId, post: bool) returns (o: Outcome)
      requires Valid()
      modifies this
      ensures Valid()
      ensures (id !in old(transactions) || old(transactions[id].owner) != actor) ==> o == Failed(NotFound) && State() == old(State())
      ensures id in old(transactions) && old(transactions[id].owner) == actor && !post ==> o == NotPost && State() == old(State())
      ensures id in old(transactions) && old(transactions[id].owner) == actor && post ==>
        o == Applied && State() == old(State()).(transactions := old(transactions) - {id})
    {
      if id !in transactions || transactions[id].owner != actor {
        return Failed(NotFound);
      }
      if !post {
        return NotPost;
      }
      transactions := transactions - {id};
      o := Applied;
    }

    // -------------------------------------------------------------------------
    // Saving goals
    // -------------------------------------------------------------------------

    method AddGoal(actor: UserId, f: GoalInput) returns (r: Result<GoalId>)
      requires Valid() && actor in users
      modifies this
      ensures Valid()
      ensures !GoalFormValid(f) ==> r == Err(InvalidForm) && State() == old(State())
      ensures GoalFormValid(f) ==>
        && r == Ok(old(nextGoal))
        && State() == old(State()).(goals := old(goals)[r.value := ApplyGoalForm(actor, f)], nextGoal := old(nextGoal) + 1)
    {
      if !GoalFormValid(f) {
        return Err(InvalidForm);
      }
      var id := nextGoal;
      goals := goals[id := ApplyGoalForm(actor, f)];
      nextGoal := nextGoal + 1;
      r := Ok(id);
    }

    /** Overwrites every form field of one of the actor's goals. */
    method EditGoal(actor: UserId, id: GoalId, f: GoalInput) returns (o: Outcome)
      requires Valid()
      modifies this
      ensures Valid()
      ensures (id !in old(goals) || old(goals[id].owner) != actor) ==> o == Failed(NotFound) && State() == old(State())
      ensures id in old(goals) && old(goals[id].owner) == actor && !GoalFormValid(f) ==> o == Failed(InvalidForm) && State() == old(State())
      ensures id in old(goals) && old(goals[id].owner) == actor && GoalFormValid(f) ==>
        o == Applied && State() == old(State()).(goals := old(goals)[id := ApplyGoalForm(actor, f)])
    {
      if id !in goals || goals[id].owner != actor {
        return Failed(NotFound);
      }
      if !GoalFormValid(f) {
        return Failed(InvalidForm);
      }
      goals := goals[id := ApplyGoalForm(actor, f)];
      o := Applied;
    }

    method DeleteGoal(actor: UserId, id: GoalId, post: bool) returns (o: Outcome)
      requires Valid()
      modifies this
      ensures Valid()
      ensures (id !in old(goals) || old(goals[id].owner) != actor) ==> o == Failed(NotFound) && State() == old(State())
      ensures id in old(goals) && old(goals[id].owner) == actor && !post ==> o == NotPost && State() == old(State())
      ensures id in old(goals) && old(goals[id].owner) == actor && post ==>
        o == Applied && State() == old(State()).(goals := old(goals) - {id})
    {
      if id !in goals || goals[id].owner != actor {
        return Failed(NotFound);
      }
      if !post {
        return NotPost;
      }
      goals := goals - {id};
      o := Applied;
    }

    /**
     * Adds to or subtracts from one of the actor's goals on POST. `amount` is
     * the submitted amount in cents, None when it is not a number. A
     * non-number, a non-positive amount or an unknown action leaves the goal
     * as it was.
     */
    method AdjustSaving(actor: UserId, id: GoalId, post: bool, amount: Option<Cents>, action: string) returns (o: Outcome)
      requires Valid()
      modifies this
      ensures Valid()
      ensures (id !in old(goals) || old(goals[id].owner) != actor) ==> o == Failed(NotFound) && State() == old(State())
      ensures id in old(goals) && old(goals[id].owner) == actor && !post ==> o == NotPost && State() == old(State())
      ensures id in old(goals) && old(goals[id].owner) == actor && post && amount.None? ==>
        o == Failed(InvalidInput) && State() == old(State())
      ensures id in old(goals) && old(goals[id].owner) == actor && post && amount.Some? && amount.value <= 0 ==>
        o == Failed(InvalidAmount) && State() == old(State())
      ensures id in old(goals) && old(goals[id].owner) == actor && post && amount.Some? && amount.value > 0 ==>
        && o == Applied
        && State() == old(State()).(goals := old(goals)[id := old(goals[id]).(current := AdjustedAmount(old(goals[id].current), amount.value, action))])
    {
      if id !in goals || goals[id].owner != actor {
        return Failed(NotFound);
      }
      if !post {
        return NotPost;
      }
      if amount.None? {
        return Failed(InvalidInput);
      }
      var a := amount.value;
      if a <= 0 {
        return Failed(InvalidAmount);
      }
      var goal := goals[id];
      if action == "add" {
        goal := goal.(current := goal.current + a);
      } else if action == "subtract" {
        goal := goal.(current := goal.current - a);
        if goal.current < 0 {
          goal := goal.(current := 0);
        }
      }
      goals := goals[id := goal];
      o := Applied;
    }
  }
}
