/** The data model of the shared-budget contract: budgets, their spending
    rules and contributions, the caps checked at creation, the error codes
    and the notifications. */
module BudgetTypes {
  import opened Host

  /** The member cap checked when a budget is created. */
  const MAX_BUDGET_MEMBERS: int := 20
  /** The rule cap checked when a budget is created. */
  const MAX_SPENDING_RULES: int := 10

  /** A limit on what one member may spend at once without approval. */
  datatype BudgetSpendingRule = BudgetSpendingRule(
    applicableTo: Address,
    /** A percentage of the total contributed; unsigned, so never negative. */
    percentageThreshold: U32,
    requiresApproval: bool,
    description: Symbol)

  /** A pool of funds shared by its members. */
  datatype Budget = Budget(
    id: U64,
    name: Symbol,
    creator: Address,
    token: Address,
    members: seq<Address>,
    balance: I128,
    totalContributed: I128,
    spendingRules: seq<BudgetSpendingRule>,
    isActive: bool,
    createdAt: U64)

  /** One recorded contribution. */
  datatype BudgetContribution = BudgetContribution(
    budgetId: U64,
    contributor: Address,
    amount: I128,
    timestamp: U64)

  /** `SharedBudgetError`, numbered 1 to 13. */
  datatype SharedBudgetError =
    | NotInitialized
    | Unauthorized
    | BudgetNotFound
    | MemberAlreadyExists
    | MemberNotFound
    | RuleNotFound
    | InvalidAmount
    | InsufficientBalance
    | InvalidPercentage
    | BudgetAlreadyActive
    | BudgetNotActive
    | TooManyMembers
    | TooManyRules
  {
    function Code(): U32 {
      match this
      case NotInitialized => 1
      case Unauthorized => 2
      case BudgetNotFound => 3
      case MemberAlreadyExists => 4
      case MemberNotFound => 5
      case RuleNotFound => 6
      case InvalidAmount => 7
      case InsufficientBalance => 8
      case InvalidPercentage => 9
      case BudgetAlreadyActive => 10
      case BudgetNotActive => 11
      case TooManyMembers => 12
      case TooManyRules => 13
    }
  }

  /** The notifications of the budget operations. */
  datatype BudgetEvent =
    | BudgetCreated(budgetId: U64, creator: Address, members: seq<Address>, token: Address)
    | ContributionAdded(budgetId: U64, contributor: Address, amount: I128)
    | ExpenseIncurred(budgetId: U64, spender: Address, recipient: Address, amount: I128)
}
