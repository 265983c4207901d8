/**
 * The budget tracker's records and the database rules declared on them:
 * the one-to-one profile with its currency, categories unique per owner,
 * transactions whose category is cleared when the category goes, records
 * deleted together with their owner, the listing order of transactions and
 * a saving goal's progress percentage.
 */
module Models {
  import opened Common

  type UserId = nat
  type CategoryId = nat
  type TransactionId = nat
  type GoalId = nat

  /** A calendar date, as a day number. */
  type Date = int
  /** A creation timestamp, as a tick count of the server clock. */
  type Timestamp = int
  /** A fixed-point amount with two decimal places, in cents. */
  type Cents = int

  /** The account record of the authentication framework (credentials are not modelled). */
  datatype User = User(username: string, email: string, isActive: bool, isStaff: bool, isSuperuser: bool)

  const Forint: string := "Ft"
  const Dollar: string := "$"
  /** The euro code exactly as the source spells it: three characters, a mis-encoded euro sign. */
  const Euro: string := "\U{00E2}\U{201A}\U{00AC}"
  const Currencies: set<string> := {Forint, Dollar, Euro}
  const DefaultCurrency: string := Forint

  datatype Profile = Profile(currency: string)

  /** How a transaction without a category is shown: the empty choice of the transaction form and the chart label. */
  const UncategorizedLabel: string := "Uncategorized"

  datatype Category = Category(owner: UserId, name: string)

  datatype TxType = Income | Expense

  datatype Transaction = Transaction(
    owner: UserId,
    category: Option<CategoryId>,
    title: string,
    amount: Cents,
    kind: TxType,
    date: Date,
    createdAt: Timestamp)

  datatype SavingGoal = SavingGoal(
    owner: UserId,
    name: string,
    target: Cents,
    current: Cents,
    deadline: Option<Date>)

  // ---------------------------------------------------------------------------
  // Progress of a saving goal
  // ---------------------------------------------------------------------------

  /**
   * Percentage of the target saved so far, capped at 100; 0 when the target
   * is not positive. There is no lower bound: a negative current amount gives
   * a negative percentage.
   */
  function ProgressPercentage(g: SavingGoal): (p: real)
    ensures g.target <= 0 ==> p == 0.0
    ensures g.target > 0 && g.current >= g.target ==> p == 100.0
    ensures g.target > 0 && g.current < g.target ==> p == (g.current as real) * 100.0 / (g.target as real)
    ensures p <= 100.0
  {
    if g.target > 0 then
      var percent := (g.current as real) / (g.target as real) * 100.0;
      assert g.current >= g.target ==> percent >= 100.0 by {
        if g.current >= g.target {
          assert (g.current as real) / (g.target as real) >= 1.0;
        }
      }
      if percent < 100.0 then percent else 100.0
    else
      0.0
  }

  /** Saving more never lowers the progress shown. */
  lemma ProgressMonotone(g: SavingGoal, more: Cents)
    requires g.current <= more
    ensures ProgressPercentage(g) <= ProgressPercentage(g.(current := more))
  {
    if g.target > 0 && more < g.target {
      var t := g.target as real;
      assert (g.current as real) * 100.0 <= (more as real) * 100.0;
      assert (g.current as real) * 100.0 / t <= (more as real) * 100.0 / t;
    }
  }

  /** Dividing by a positive number keeps a strict upper bound: a < b·t gives a / t < b. */
  lemma DivBelow(a: real, t: real, b: real)
    requires t > 0.0 && a < b * t
    ensures a / t < b
  {
    var q := a / t;
    assert q * t == a;
    if q >= b {
      assert q * t >= b * t;
    }
  }

  /** With a positive target, the progress is negative exactly when the current amount is. */
  lemma ProgressSign(g: SavingGoal)
    requires g.target > 0
    ensures ProgressPercentage(g) < 0.0 <==> g.current < 0
    ensures ProgressPercentage(g) == 100.0 <==> g.current >= g.target
  {
    var c := g.current as real;
    var t := g.target as real;
    if g.current < g.target {
      assert c * 100.0 < 100.0 * t;
      DivBelow(c * 100.0, t, 100.0);
      if g.current < 0 {
        DivBelow(c * 100.0, t, 0.0);
      } else {
        assert c * 100.0 >= 0.0;
      }
    }
  }

  // ---------------------------------------------------------------------------
  // Listing order of transactions: newest date first, then newest creation time
  // ---------------------------------------------------------------------------

  /** `a` may be listed before `b`. */
  predicate ListedBefore(a: Transaction, b: Transaction) {
    a.date > b.date || (a.date == b.date && a.createdAt >= b.createdAt)
  }

  predicate InListingOrder(s: seq<Transaction>) {
    forall i, j :: 0 <= i < j < |s| ==> ListedBefore(s[i], s[j])
  }

  /** Inserts `t` into a listing already in order. */
  function InsertListed(t: Transaction, s: seq<Transaction>): (r: seq<Transaction>)
    requires InListingOrder(s)
    ensures InListingOrder(r)
    ensures multiset(r) == multiset(s) + multiset{t}
  {
    if s == [] then [t]
    else if ListedBefore(t, s[0]) then [t] + s
    else
      var rest := InsertListed(t, s[1..]);
      assert s == [s[0]] + s[1..];
      assert forall k :: 0 <= k < |rest| ==> ListedBefore(s[0], rest[k]) by {
        forall k | 0 <= k < |rest|
          ensures ListedBefore(s[0], rest[k])
        {
          assert rest[k] in multiset(rest);
          assert rest[k] == t || rest[k] in multiset(s[1..]);
        }
      }
      [s[0]] + rest
  }

  /** The transactions of `s` in listing order (insertion sort; of two tied transactions, the later in `s` comes first). */
  function SortListing(s: seq<Transaction>): (r: seq<Transaction>)
    ensures InListingOrder(r)
    ensures multiset(r) == multiset(s)
  {
    if s == [] then []
    else
      assert s == s[..|s| - 1] + [s[|s| - 1]];
      InsertListed(s[|s| - 1], SortListing(s[..|s| - 1]))
  }

  // ---------------------------------------------------------------------------
  // The database: tables, integrity rules, and the deletes that cascade
  // ---------------------------------------------------------------------------

  /** All tables of the application, each keyed by its auto-increment id, with the next free id of each. */
  datatype Db = Db(
    users: map<UserId, User>,
    profiles: map<UserId, Profile>,
    categories: map<CategoryId, Category>,
    transactions: map<TransactionId, Transaction>,
    goals: map<GoalId, SavingGoal>,
    nextUser: nat,
    nextCategory: nat,
    nextTransaction: nat,
    nextGoal: nat)

  /** The one-to-one profile refers to an existing user and holds one of the offered currencies. */
  ghost predicate ProfilesConsistent(db: Db) {
    && db.profiles.Keys <= db.users.Keys
    && forall u :: u in db.profiles ==> db.profiles[u].currency in Currencies
  }

  /** The usernames in use. */
  function UsernamesOf(db: Db): (r: set<string>)
    ensures forall name :: name in r <==> exists u :: u in db.users && db.users[u].username == name
  {
    set u | u in db.users :: db.users[u].username
  }

  ghost predicate UsernamesUnique(db: Db) {
    forall u, v :: u in db.users && v in db.users && u != v ==> db.users[u].username != db.users[v].username
  }

  /** Each category belongs to an existing user, and no owner has two categories of the same name. */
  ghost predicate CategoriesConsistent(db: Db) {
    && (forall c :: c in db.categories ==> db.categories[c].owner in db.users && db.categories[c].name != "")
    && (forall c, d :: c in db.categories && d in db.categories && c != d && db.categories[c].owner == db.categories[d].owner
          ==> db.categories[c].name != db.categories[d].name)
  }

  /** A transaction belongs to an existing user, and its category, if any, exists and has the same owner. */
  ghost predicate CategoryOwnedBy(db: Db, cat: Option<CategoryId>, owner: UserId) {
    cat.Some? ==> cat.value in db.categories && db.categories[cat.value].owner == owner
  }

  ghost predicate TransactionsConsistent(db: Db) {
    forall t :: t in db.transactions ==>
      db.transactions[t].owner in db.users && CategoryOwnedBy(db, db.transactions[t].category, db.transactions[t].owner)
  }

  ghost predicate GoalsConsistent(db: Db) {
    forall g :: g in db.goals ==> db.goals[g].owner in db.users
  }

  /** Every id in use is below its table's next free id. */
  ghost predicate IdsBelowNext(db: Db) {
    && (forall u :: u in db.users ==> u < db.nextUser)
    && (forall c :: c in db.categories ==> c < db.nextCategory)
    && (forall t :: t in db.transactions ==> t < db.nextTransaction)
    && (forall g :: g in db.goals ==> g < db.nextGoal)
  }

  ghost predicate Consistent(db: Db) {
    && ProfilesConsistent(db)
    && UsernamesUnique(db)
    && CategoriesConsistent(db)
    && TransactionsConsistent(db)
    && GoalsConsistent(db)
    && IdsBelowNext(db)
  }

  /** The database after user `u`'s profile is set to hold `currency`, and created first if missing. */
  function WithProfile(db: Db, u: UserId, currency: string): (r: Db)
    ensures u in r.profiles && r.profiles[u].currency == currency
    ensures r == db.(profiles := r.profiles) && r.profiles.Keys == db.profiles.Keys + {u}
    ensures forall v :: v in db.profiles && v != u ==> r.profiles[v] == db.profiles[v]
  {
    db.(profiles := db.profiles[u := Profile(currency)])
  }

  /** Setting a profile twice is setting it once to the second value. */
  lemma WithProfileTwice(db: Db, u: UserId, first: string, second: string)
    ensures WithProfile(WithProfile(db, u, first), u, second) == WithProfile(db, u, second)
  {
    assert db.profiles[u := Profile(first)][u := Profile(second)] == db.profiles[u := Profile(second)];
  }

  /** A profile of an existing user holding one of the offered currencies keeps the database consistent. */
  lemma WithProfileConsistent(db: Db, u: UserId, currency: string)
    requires Consistent(db) && u in db.users && currency in Currencies
    ensures Consistent(WithProfile(db, u, currency))
  {
  }

  /** The database after a category row for `owner` named `name` is inserted under the next free id. */
  function WithCategory(db: Db, owner: UserId, name: string): (r: Db)
    ensures r.categories.Keys == db.categories.Keys + {db.nextCategory} && r.categories[db.nextCategory] == Category(owner, name)
    ensures r.nextCategory == db.nextCategory + 1
    ensures r == db.(categories := r.categories, nextCategory := r.nextCategory)
    ensures forall c :: c in db.categories && c != db.nextCategory ==> r.categories[c] == db.categories[c]
  {
    db.(categories := db.categories[db.nextCategory := Category(owner, name)], nextCategory := db.nextCategory + 1)
  }

  /** A new category of an existing user, under a name that user does not use yet, keeps the database consistent. */
  lemma WithCategoryConsistent(db: Db, owner: UserId, name: string)
    requires Consistent(db) && owner in db.users && name != ""
    requires forall c :: c in db.categories && db.categories[c].owner == owner ==> db.categories[c].name != name
    ensures Consistent(WithCategory(db, owner, name))
  {
    var r := WithCategory(db, owner, name);
    assert db.nextCategory !in db.categories;
    forall t | t in r.transactions
      ensures CategoryOwnedBy(r, r.transactions[t].category, r.transactions[t].owner)
    {
      assert CategoryOwnedBy(db, db.transactions[t].category, db.transactions[t].owner);
    }
  }

  /**
   * The transactions after category `c` is deleted: the ones that referred to
   * `c` lose their category, and nothing else changes.
   */
  function SetNull(txs: map<TransactionId, Transaction>, c: CategoryId): (r: map<TransactionId, Transaction>)
    ensures r.Keys == txs.Keys
    ensures forall t :: t in txs ==> r[t].category == (if txs[t].category == Some(c) then None else txs[t].category)
    ensures forall t :: t in txs ==> r[t].(category := txs[t].category) == txs[t]
    ensures forall t :: t in r ==> r[t].category != Some(c)
  {
    map t | t in txs :: if txs[t].category == Some(c) then txs[t].(category := None) else txs[t]
  }

  /** The database after category `c` is deleted (its transactions are kept, uncategorised). */
  function WithoutCategory(db: Db, c: CategoryId): Db {
    db.(categories := db.categories - {c}, transactions := SetNull(db.transactions, c))
  }

  lemma WithoutCategoryConsistent(db: Db, c: CategoryId)
    requires Consistent(db)
    ensures Consistent(WithoutCategory(db, c))
  {
    var r := WithoutCategory(db, c);
    forall t | t in r.transactions
      ensures CategoryOwnedBy(r, r.transactions[t].category, r.transactions[t].owner)
    {
      assert CategoryOwnedBy(db, db.transactions[t].category, db.transactions[t].owner);
    }
  }

  /**
   * The database after user `u` is deleted: the user, their profile, and
   * every category, transaction and goal they own are gone; every other
   * record is kept as it was.
   */
  function WithoutUser(db: Db, u: UserId): (r: Db)
    ensures r.users.Keys == db.users.Keys - {u} && r.profiles.Keys == db.profiles.Keys - {u}
    ensures forall c :: c in r.categories <==> c in db.categories && db.categories[c].owner != u
    ensures forall t :: t in r.transactions <==> t in db.transactions && db.transactions[t].owner != u
    ensures forall g :: g in r.goals <==> g in db.goals && db.goals[g].owner != u
    ensures forall v :: v in r.users ==> r.users[v] == db.users[v]
    ensures forall v :: v in r.profiles ==> r.profiles[v] == db.profiles[v]
    ensures forall c :: c in r.categories ==> r.categories[c] == db.categories[c]
    ensures forall t :: t in r.transactions ==> r.transactions[t] == db.transactions[t]
    ensures forall g :: g in r.goals ==> r.goals[g] == db.goals[g]
    ensures r.nextUser == db.nextUser && r.nextCategory == db.nextCategory
    ensures r.nextTransaction == db.nextTransaction && r.nextGoal == db.nextGoal
  {
    db.(users := db.users - {u},
        profiles := db.profiles - {u},
        categories := map c | c in db.categories && db.categories[c].owner != u :: db.categories[c],
        transactions := map t | t in db.transactions && db.transactions[t].owner != u :: db.transactions[t],
        goals := map g | g in db.goals && db.goals[g].owner != u :: db.goals[g])
  }

  /** Deleting a user keeps the database consistent and leaves no record owned by that user. */
  lemma WithoutUserConsistent(db: Db, u: UserId)
    requires Consistent(db)
    ensures Consistent(WithoutUser(db, u))
    ensures forall c :: c in WithoutUser(db, u).categories ==> WithoutUser(db, u).categories[c].owner != u
    ensures forall t :: t in WithoutUser(db, u).transactions ==> WithoutUser(db, u).transactions[t].owner != u
    ensures forall g :: g in WithoutUser(db, u).goals ==> WithoutUser(db, u).goals[g].owner != u
  {
    var r := WithoutUser(db, u);
    forall t | t in r.transactions
      ensures r.transactions[t].owner in r.users
      ensures CategoryOwnedBy(r, r.transactions[t].category, r.transactions[t].owner)
    {
      assert CategoryOwnedBy(db, db.transactions[t].category, db.transactions[t].owner);
    }
  }
}
