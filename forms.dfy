/**
 * The input forms: which fields each form accepts, when it is valid, and how
 * an accepted form becomes a record. Typed fields (decimals, dates, choices)
 * arrive already parsed; a field that fails to parse makes the form invalid,
 * which the store treats like any other invalid form.
 */
module Forms {
  import opened Common
  import opened Models

  /**
   * Registration: username, email, password and its confirmation.
   * `emailValid` is the framework's email validator's verdict on `email`; it
   * matters only for a non-empty email.
   */
  datatype RegistrationInput = RegistrationInput(username: string, email: string, emailValid: bool, password: string, confirmPassword: string)

  /** The email is optional, but one that is given must pass the email validator. */
  predicate EmailAccepted(email: string, emailValid: bool) {
    email == "" || emailValid
  }

  /**
   * Why a registration form is refused, if it is. `taken` holds the usernames
   * already in use.
   */
  function RegistrationError(f: RegistrationInput, taken: set<string>): (e: Option<Failure>)
    ensures e.None? <==>
      f.username != "" && EmailAccepted(f.email, f.emailValid) && f.password != "" && f.confirmPassword != ""
      && f.password == f.confirmPassword && f.username !in taken
    ensures f.password != f.confirmPassword ==> e.Some?
    ensures e.Some? ==> e.value in {InvalidForm, PasswordMismatch, UsernameTaken}
  {
    if f.username == "" || !EmailAccepted(f.email, f.emailValid) || f.password == "" || f.confirmPassword == "" then Some(InvalidForm)
    else if f.password != f.confirmPassword then Some(PasswordMismatch)
    else if f.username in taken then Some(UsernameTaken)
    else None
  }

  /** A newly registered account: active, neither staff nor superuser. */
  function NewUser(f: RegistrationInput): (u: User)
    ensures u.username == f.username && u.email == f.email
    ensures u.isActive && !u.isStaff && !u.isSuperuser
  {
    User(f.username, f.email, true, false, false)
  }

  /**
   * The administrator's user form sets username, email and the active flag,
   * and nothing else; `emailValid` is the email validator's verdict on `email`.
   */
  datatype UserUpdateInput = UserUpdateInput(username: string, email: string, emailValid: bool, isActive: bool)

  /** `taken` holds the usernames of the other accounts. */
  predicate UserUpdateValid(f: UserUpdateInput, taken: set<string>) {
    f.username != "" && EmailAccepted(f.email, f.emailValid) && f.username !in taken
  }

  function ApplyUserUpdate(u: User, f: UserUpdateInput): (r: User)
    ensures r.username == f.username && r.email == f.email && r.isActive == f.isActive
    ensures r.(username := u.username, email := u.email, isActive := u.isActive) == u
  {
    u.(username := f.username, email := f.email, isActive := f.isActive)
  }

  /** The category form has the name only; the owner always comes from the request. */
  datatype CategoryInput = CategoryInput(name: string)

  predicate CategoryFormValid(f: CategoryInput) {
    f.name != ""
  }

  /** The transaction form; `category` None is the empty choice, shown as `UncategorizedLabel`. */
  datatype TransactionInput = TransactionInput(title: string, amount: Cents, kind: TxType, category: Option<CategoryId>, date: Date)

  /** The categories the transaction form offers to `user`: exactly the user's own. */
  function CategoryChoices(cats: map<CategoryId, Category>, user: UserId): (r: set<CategoryId>)
    ensures forall c :: c in r <==> c in cats && cats[c].owner == user
  {
    set c | c in cats && cats[c].owner == user
  }

  /** The title is required; the category is optional but must be one of the offered choices. */
  predicate TransactionFormValid(cats: map<CategoryId, Category>, user: UserId, f: TransactionInput) {
    f.title != "" && (f.category.None? || f.category.value in CategoryChoices(cats, user))
  }

  /** A valid transaction form never names another user's category, and leaving the category empty is always allowed. */
  lemma TransactionFormScoped(cats: map<CategoryId, Category>, user: UserId, f: TransactionInput)
    ensures TransactionFormValid(cats, user, f) && f.category.Some? ==> f.category.value in cats && cats[f.category.value].owner == user
    ensures f.title != "" ==> TransactionFormValid(cats, user, f.(category := None))
  {
  }

  /** A new transaction of `owner`, created at `now`. */
  function NewTransaction(owner: UserId, f: TransactionInput, now: Timestamp): (t: Transaction)
    ensures t.owner == owner && t.createdAt == now
    ensures (t.title, t.amount, t.kind, t.category, t.date) == (f.title, f.amount, f.kind, f.category, f.date)
  {
    Transaction(owner, f.category, f.title, f.amount, f.kind, f.date, now)
  }

  /** An edited transaction: the form's fields are overwritten; owner and creation time are kept. */
  function ApplyTransactionForm(t: Transaction, f: TransactionInput): (r: Transaction)
    ensures r.owner == t.owner && r.createdAt == t.createdAt
    ensures r == NewTransaction(t.owner, f, t.createdAt)
  {
    t.(title := f.title, amount := f.amount, kind := f.kind, category := f.category, date := f.date)
  }

  /**
   * The saving-goal form: name, target, current amount and optional deadline.
   * The current amount is taken as entered, negative values included.
   */
  datatype GoalInput = GoalInput(name: string, target: Cents, current: Cents, deadline: Option<Date>)

  predicate GoalFormValid(f: GoalInput) {
    f.name != ""
  }

  function ApplyGoalForm(owner: UserId, f: GoalInput): (g: SavingGoal)
    ensures g.owner == owner
    ensures (g.name, g.target, g.current, g.deadline) == (f.name, f.target, f.current, f.deadline)
  {
    SavingGoal(owner, f.name, f.target, f.current, f.deadline)
  }

  /** The goal form admits a negative current amount, so the progress shown can be negative. */
  lemma GoalFormAllowsNegativeProgress(owner: UserId)
    ensures GoalFormValid(GoalInput("Trip", 10000, -5000, None))
    ensures ProgressPercentage(ApplyGoalForm(owner, GoalInput("Trip", 10000, -5000, None))) == -50.0
  {
  }
}
