/** The shared-budget contract: budgets created with their members and
    spending rules, funded by contributions and drawn down by members, with
    the admin bookkeeping and the getters. Every public call either returns
    Ok with its writes made, or Err with the storage as it was before. */
module SharedBudgets {
  import opened Host
  import opened BudgetTypes
  import opened BudgetValidation

  const NOT_INITIALIZED: string := "Contract not initialized"
  const ALREADY_INITIALIZED: string := "Contract already initialized"

  /** The member flags after `BudgetMember(budgetId, m)` is set for each `m`
      of `members`, in order. */
  function AddMembers(flags: map<(U64, Address), bool>, budgetId: U64, members: seq<Address>)
    : map<(U64, Address), bool>
  {
    if members == [] then flags
    else AddMembers(flags, budgetId, members[..|members| - 1])[(budgetId, members[|members| - 1]) := true]
  }

  /** Setting the member flags of a budget sets exactly the flags of its
      listed members, and leaves every other flag as it was. */
  lemma {:induction false} AddMembersContents(flags: map<(U64, Address), bool>, budgetId: U64,
                                              members: seq<Address>, key: (U64, Address))
    ensures key in AddMembers(flags, budgetId, members) <==> key in flags || (key.0 == budgetId && key.1 in members)
    ensures key.0 == budgetId && key.1 in members ==> AddMembers(flags, budgetId, members)[key]
    ensures !(key.0 == budgetId && key.1 in members) && key in flags ==>
      AddMembers(flags, budgetId, members)[key] == flags[key]
  {
    if members != [] {
      var prefix := members[..|members| - 1];
      AddMembersContents(flags, budgetId, prefix, key);
      assert members == prefix + [members[|members| - 1]];
    }
  }

  /** The amount above which a rule blocks a spend. `threshold(total, pct)`
      stands for the floating-point `total * (pct / 100)` truncated to an
      integer, which is not part of this model; with nothing contributed
      the threshold is 0. */
  function RuleThreshold(totalContributed: I128, percentage: U32, threshold: (I128, U32) -> I128): I128
  {
    if totalContributed > 0 then threshold(totalContributed, percentage) else 0
  }

  /** Whether `rule` blocks a spend of `amount` by `spender`: it names the
      spender, the amount is over its threshold and it does not ask for
      approval. */
  predicate Blocks(rule: BudgetSpendingRule, totalContributed: I128, spender: Address, amount: I128,
                   threshold: (I128, U32) -> I128)
  {
    && rule.applicableTo == spender
    && amount > RuleThreshold(totalContributed, rule.percentageThreshold, threshold)
    && !rule.requiresApproval
  }

  /** With nothing contributed yet, a rule that names the spender and does
      not ask for approval blocks every positive spend, whatever its
      percentage. */
  lemma NoContributionsBlocks(rule: BudgetSpendingRule, totalContributed: I128, spender: Address, amount: I128,
                              threshold: (I128, U32) -> I128)
    requires totalContributed <= 0 && amount > 0
    requires rule.applicableTo == spender && !rule.requiresApproval
    ensures Blocks(rule, totalContributed, spender, amount, threshold)
  {
  }

  /** `enforce_spending_rules`: look through the budget's rules in order and
      refuse the spend at the first rule that blocks it. */
  method EnforceSpendingRules(budget: Budget, spender: Address, amount: I128, threshold: (I128, U32) -> I128)
    returns (r: Result<(), SharedBudgetError>)
    ensures r.Err? <==> exists k :: 0 <= k < |budget.spendingRules|
                          && Blocks(budget.spendingRules[k], budget.totalContributed, spender, amount, threshold)
    ensures r.Err? ==> r.error == Unauthorized
  {
    var rules := budget.spendingRules;
    var i := 0;
    while i < |rules|
      invariant 0 <= i <= |rules|
      invariant forall k :: 0 <= k < i ==> !Blocks(rules[k], budget.totalContributed, spender, amount, threshold)
    {
      var rule := rules[i];
      if rule.applicableTo == spender {
        var thresholdAmount := if budget.totalContributed > 0
          then threshold(budget.totalContributed, rule.percentageThreshold)
          else 0;
        if amount > thresholdAmount && !rule.requiresApproval {
          assert Blocks(rules[i], budget.totalContributed, spender, amount, threshold);
          return Err(Unauthorized);
        }
      }
      i := i + 1;
    }
    r := Ok(());
  }

  /** The loop of `create_budget` that validates the percentage of each
      rule, in order, stopping at the first invalid one. */
  method CheckRulePercentages(rules: seq<BudgetSpendingRule>) returns (r: Result<(), SharedBudgetError>)
    ensures r.Ok? <==> forall k :: 0 <= k < |rules| ==> ValidatePercentage(rules[k].percentageThreshold).Ok?
    ensures r.Err? ==> r.error == InvalidPercentage
  {
    for i := 0 to |rules|
      invariant forall k :: 0 <= k < i ==> ValidatePercentage(rules[k].percentageThreshold).Ok?
    {
      if ValidatePercentage(rules[i].percentageThreshold).Err? {
        return Err(InvalidPercentage);
      }
    }
    r := Ok(());
  }

  /** The loop of `create_budget` that sets `BudgetMember(budgetId, m)` for
      each listed member `m`, in order. */
  method FlagMembers(flags: map<(U64, Address), bool>, budgetId: U64, members: seq<Address>)
    returns (flagged: map<(U64, Address), bool>)
    ensures flagged == AddMembers(flags, budgetId, members)
  {
    flagged := flags;
    for i := 0 to |members|
      invariant flagged == AddMembers(flags, budgetId, members[..i])
    {
      assert members[..i + 1][..i] == members[..i];
      flagged := flagged[(budgetId, members[i]) := true];
    }
    assert members[..|members|] == members;
  }

  /** What creation checks of each budget and every call keeps: within the
      caps, rules of at most 100 percent, and a balance between 0 and what
      was contributed. */
  ghost predicate WellFormed(b: Budget)
  {
    && 0 <= b.balance <= b.totalContributed
    && |b.members| <= MAX_BUDGET_MEMBERS
    && |b.spendingRules| <= MAX_SPENDING_RULES
    && (forall k :: 0 <= k < |b.spendingRules| ==> b.spendingRules[k].percentageThreshold <= 100)
  }

  class SharedBudgetContract {
    /** The contract's own address, which holds the pooled tokens. */
    const contractAddress: Address

    // Instance storage.
    var admin: Option<Address>
    var totalBudgetsCreated: U64
    var totalContributionsProcessed: U64

    // Persistent storage: `Budget(id)`, `BudgetMember(id, address)` and
    // `Contribution(id)`; the three key kinds never address the same slot.
    var budgets: map<U64, Budget>
    var memberFlags: map<(U64, Address), bool>
    var contributions: map<U64, BudgetContribution>

    ghost var transfers: seq<Transfer>
    ghost var events: seq<BudgetEvent>

    /** Budgets are numbered 1 to `totalBudgetsCreated` and stored under their
        id; contributions are numbered 1 to `totalContributionsProcessed` and
        belong to a stored budget; a member flag is only ever set, and only
        for a listed member of a stored budget. */
    ghost predicate Valid()
      reads this
    {
      && (forall id {:trigger id in budgets} :: id in budgets ==>
            1 <= id <= totalBudgetsCreated && budgets[id].id == id && WellFormed(budgets[id]))
      && (forall cid {:trigger cid in contributions} :: cid in contributions ==>
            1 <= cid <= totalContributionsProcessed
            && contributions[cid].budgetId in budgets && contributions[cid].amount > 0)
      && (forall key {:trigger key in memberFlags} :: key in memberFlags ==>
            memberFlags[key] && key.0 in budgets && key.1 in budgets[key.0].members)
    }

    constructor (contractAddress: Address)
      ensures Valid()
      ensures this.contractAddress == contractAddress
      ensures admin == None && totalBudgetsCreated == 0 && totalContributionsProcessed == 0
      ensures budgets == map[] && memberFlags == map[] && contributions == map[]
      ensures transfers == [] && events == []
    {
      this.contractAddress := contractAddress;
      admin := None;
      totalBudgetsCreated, totalContributionsProcessed := 0, 0;
      budgets, memberFlags, contributions := map[], map[], map[];
      transfers, events := [], [];
    }

    /** `initialize` as written: store the admin and RESET both counters to
        0. Budgets created before it (creation needs no admin) keep their
        ids, which the reset counter hands out again. */
    method Initialize(newAdmin: Address) returns (r: Result<(), Abort<SharedBudgetError>>)
      requires Valid()
      modifies this
      ensures old(admin).Some? <==> r.Err?
      ensures r.Err? ==> r.error == HostPanic(ALREADY_INITIALIZED) && unchanged(this)
      ensures r.Ok? ==>
        && admin == Some(newAdmin)
        && totalBudgetsCreated == 0 && totalContributionsProcessed == 0
        && budgets == old(budgets) && memberFlags == old(memberFlags) && contributions == old(contributions)
        && transfers == old(transfers) && events == old(events)
      ensures old(budgets) == map[] && old(contributions) == map[] ==> Valid()
    {
      if admin.Some? {
        return Err(HostPanic(ALREADY_INITIALIZED));
      }
      admin := Some(newAdmin);
      totalBudgetsCreated := 0;
      totalContributionsProcessed := 0;
      r := Ok(());
    }

    /** `initialize` as evidently intended: store the admin and leave the
        counters, which already read as 0 on a fresh contract, as they are. */
    method InitializeKeepingCounters(newAdmin: Address) returns (r: Result<(), Abort<SharedBudgetError>>)
      requires Valid()
      modifies this
      ensures Valid()
      ensures old(admin).Some? <==> r.Err?
      ensures r.Err? ==> r.error == HostPanic(ALREADY_INITIALIZED) && unchanged(this)
      ensures r.Ok? ==>
        && admin == Some(newAdmin)
        && totalBudgetsCreated == old(totalBudgetsCreated)
        && totalContributionsProcessed == old(totalContributionsProcessed)
        && budgets == old(budgets) && memberFlags == old(memberFlags) && contributions == old(contributions)
        && transfers == old(transfers) && events == old(events)
    {
      if admin.Some? {
        return Err(HostPanic(ALREADY_INITIALIZED));
      }
      admin := Some(newAdmin);
      r := Ok(());
    }

    /** `require_admin`: the caller must be the stored admin. */
    function RequireAdmin(caller: Address): (r: Result<(), Abort<SharedBudgetError>>)
      reads this
      ensures r.Ok? <==> admin == Some(caller)
      ensures admin.None? ==> r == Err(HostPanic(NOT_INITIALIZED))
      ensures admin.Some? && admin.value != caller ==> r == Err(ContractError(Unauthorized))
    {
      match admin
      case None => Err(HostPanic(NOT_INITIALIZED))
      case Some(a) => if caller != a then Err(ContractError(Unauthorized)) else Ok(())
    }

    method SetAdmin(currentAdmin: Address, newAdmin: Address) returns (r: Result<(), Abort<SharedBudgetError>>)
      requires Valid()
      modifies this
      ensures Valid()
      ensures r.Err? <==> old(RequireAdmin(currentAdmin)).Err?
      ensures r.Err? ==> r == old(RequireAdmin(currentAdmin)) && unchanged(this)
      ensures r.Ok? ==>
        && admin == Some(newAdmin)
        && totalBudgetsCreated == old(totalBudgetsCreated)
        && totalContributionsProcessed == old(totalContributionsProcessed)
        && budgets == old(budgets) && memberFlags == old(memberFlags) && contributions == old(contributions)
        && transfers == old(transfers) && events == old(events)
    {
      r := RequireAdmin(currentAdmin);
      if r.Err? {
        return;
      }
      admin := Some(newAdmin);
    }

    function GetAdmin(): (r: Result<Address, Abort<SharedBudgetError>>)
      reads this
      ensures r.Ok? <==> admin.Some?
      ensures r.Ok? ==> RequireAdmin(r.value).Ok?
      ensures r.Err? ==> r.error == HostPanic(NOT_INITIALIZED)
    {
      match admin
      case None => Err(HostPanic(NOT_INITIALIZED))
      case Some(a) => Ok(a)
    }

    /** `create_budget` at ledger time `now`: check the caps and the rule
        percentages, store an active empty budget under the next id and flag
        every listed member. */
    method CreateBudget(creator: Address, name: Symbol, members: seq<Address>, token: Address,
                        rules: seq<BudgetSpendingRule>, now: U64)
      returns (r: Result<U64, Abort<SharedBudgetError>>)
      requires Valid()
      modifies this
      ensures Valid()
      ensures |members| > MAX_BUDGET_MEMBERS ==> r == Err(ContractError(TooManyMembers))
      ensures |members| <= MAX_BUDGET_MEMBERS && |rules| > MAX_SPENDING_RULES ==> r == Err(ContractError(TooManyRules))
      ensures (|members| <= MAX_BUDGET_MEMBERS && |rules| <= MAX_SPENDING_RULES
               && exists k :: 0 <= k < |rules| && rules[k].percentageThreshold > 100)
              ==> r == Err(ContractError(InvalidPercentage))
      ensures r.Ok? <==>
        && |members| <= MAX_BUDGET_MEMBERS && |rules| <= MAX_SPENDING_RULES
        && (forall k :: 0 <= k < |rules| ==> ValidatePercentage(rules[k].percentageThreshold).Ok?)
        && old(totalBudgetsCreated) < U64_MAX
      ensures r.Err? ==> unchanged(this)
      ensures r.Ok? ==>
        var id := r.value;
        && id == old(totalBudgetsCreated) + 1 == totalBudgetsCreated
        && id !in old(budgets)
        && budgets == old(budgets)[id := Budget(id, name, creator, token, members, 0, 0, rules, true, now)]
        && memberFlags == AddMembers(old(memberFlags), id, members)
        && (forall m :: m in members ==> (id, m) in memberFlags && memberFlags[(id, m)])
        && admin == old(admin) && contributions == old(contributions)
        && totalContributionsProcessed == old(totalContributionsProcessed)
        && transfers == old(transfers)
        && events == old(events) + [BudgetCreated(id, creator, members, token)]
    {
      if |members| > MAX_BUDGET_MEMBERS {
        return Err(ContractError(TooManyMembers));
      }
      if |rules| > MAX_SPENDING_RULES {
        return Err(ContractError(TooManyRules));
      }
      var checked := CheckRulePercentages(rules);
      if checked.Err? {
        return Err(ContractError(checked.error));
      }
      if totalBudgetsCreated == U64_MAX {
        return Err(HostPanic(ADD_OVERFLOW));
      }
      var budgetId := totalBudgetsCreated + 1;
      var budget := Budget(budgetId, name, creator, token, members, 0, 0, rules, true, now);
      StoreBudget(budget);
      r := Ok(budgetId);
    }

    /** The writes of a creation that passed its checks: the budget under the
        next id, the counter, a flag for each member and the notification. */
    method StoreBudget(budget: Budget)
      requires Valid()
      requires WellFormed(budget) && budget.balance == 0 && budget.totalContributed == 0
      requires budget.id == totalBudgetsCreated + 1
      modifies this
      ensures Valid()
      ensures totalBudgetsCreated == budget.id
      ensures budget.id !in old(budgets)
      ensures budgets == old(budgets)[budget.id := budget]
      ensures memberFlags == AddMembers(old(memberFlags), budget.id, budget.members)
      ensures forall m :: m in budget.members ==> (budget.id, m) in memberFlags && memberFlags[(budget.id, m)]
      ensures admin == old(admin) && contributions == old(contributions)
      ensures totalContributionsProcessed == old(totalContributionsProcessed)
      ensures transfers == old(transfers)
      ensures events == old(events) + [BudgetCreated(budget.id, budget.creator, budget.members, budget.token)]
    {
      var budgetId := budget.id;
      budgets := budgets[budgetId := budget];
      totalBudgetsCreated := budgetId;

      ghost var flagsBefore := memberFlags;
      memberFlags := FlagMembers(memberFlags, budgetId, budget.members);
      FlagsAfterCreation(flagsBefore, budgetId, budget.members);

      events := events + [BudgetCreated(budgetId, budget.creator, budget.members, budget.token)];
    }

    /** The flags written by a creation belong to the new budget, whose id no
        earlier flag uses, so every flag still belongs to a listed member of
        a stored budget. */
    lemma FlagsAfterCreation(flagsBefore: map<(U64, Address), bool>, budgetId: U64, members: seq<Address>)
      requires budgetId in budgets && budgets[budgetId].members == members
      requires forall key {:trigger key in flagsBefore} :: key in flagsBefore ==>
        flagsBefore[key] && key.0 in budgets && key.0 != budgetId && key.1 in budgets[key.0].members
      requires memberFlags == AddMembers(flagsBefore, budgetId, members)
      ensures forall key {:trigger key in memberFlags} :: key in memberFlags ==>
        memberFlags[key] && key.0 in budgets && key.1 in budgets[key.0].members
      ensures forall m :: m in members ==> (budgetId, m) in memberFlags && memberFlags[(budgetId, m)]
    {
      forall key | key in memberFlags
        ensures memberFlags[key] && key.0 in budgets && key.1 in budgets[key.0].members
      {
        AddMembersContents(flagsBefore, budgetId, members, key);
      }
      forall m | m in members
        ensures (budgetId, m) in memberFlags && memberFlags[(budgetId, m)]
      {
        AddMembersContents(flagsBefore, budgetId, members, (budgetId, m));
      }
    }

    /** `contribute_to_budget` at ledger time `now`: move `amount` from the
        contributor to the contract, raise the balance and the total
        contributed by it, and record the contribution under the next id. */
    method ContributeToBudget(contributor: Address, budgetId: U64, amount: I128, now: U64)
      returns (r: Result<(), Abort<SharedBudgetError>>)
      requires Valid()
      modifies this
      ensures Valid()
      ensures amount <= 0 ==> r == Err(ContractError(InvalidAmount))
      ensures amount > 0 && budgetId !in old(budgets) ==> r == Err(ContractError(BudgetNotFound))
      ensures (amount > 0 && budgetId in old(budgets) && !old(budgets)[budgetId].isActive)
              ==> r == Err(ContractError(BudgetNotActive))
      ensures r.Err? ==> unchanged(this)
      ensures (amount > 0 && budgetId in old(budgets) && old(budgets)[budgetId].isActive) ==>
        var b := old(budgets)[budgetId];
        var contributionId := old(totalContributionsProcessed) + 1;
        && (r.Err? <==> b.totalContributed + amount > I128_MAX || old(totalContributionsProcessed) == U64_MAX)
        && (r.Err? ==> r.error == HostPanic(ADD_OVERFLOW))
        && (r.Ok? ==>
              && budgets == old(budgets)[budgetId := b.(balance := b.balance + amount,
                                                        totalContributed := b.totalContributed + amount)]
              && contributionId == totalContributionsProcessed
              && contributionId !in old(contributions)
              && contributions == old(contributions)[contributionId := BudgetContribution(budgetId, contributor, amount, now)]
              && transfers == old(transfers) + [Transfer(b.token, contributor, contractAddress, amount)]
              && events == old(events) + [ContributionAdded(budgetId, contributor, amount)])
      ensures r.Ok? ==>
        && admin == old(admin) && memberFlags == old(memberFlags)
        && totalBudgetsCreated == old(totalBudgetsCreated)
    {
      if ValidateAmount(amount).Err? {
        return Err(ContractError(InvalidAmount));
      }
      if budgetId !in budgets {
        return Err(ContractError(BudgetNotFound));
      }
      var budget := budgets[budgetId];
      if !budget.isActive {
        return Err(ContractError(BudgetNotActive));
      }
      r := CreditBudget(contributor, budgetId, budget, amount, now);
    }

    /** The writes of a contribution to the active budget `budget` stored
        under `budgetId`: the transfer in, the raised balance and total, and
        the contribution record under the next id, all undone when one of
        the additions overflows. */
    method CreditBudget(contributor: Address, budgetId: U64, budget: Budget, amount: I128, now: U64)
      returns (r: Result<(), Abort<SharedBudgetError>>)
      requires Valid()
      requires amount > 0 && budgetId in budgets && budgets[budgetId] == budget
      modifies this
      ensures Valid()
      ensures r.Err? ==> r.error == HostPanic(ADD_OVERFLOW) && unchanged(this)
      ensures var contributionId := old(totalContributionsProcessed) + 1;
        && (r.Err? <==> budget.totalContributed + amount > I128_MAX || old(totalContributionsProcessed) == U64_MAX)
        && (r.Ok? ==>
              && budgets == old(budgets)[budgetId := budget.(balance := budget.balance + amount,
                                                             totalContributed := budget.totalContributed + amount)]
              && contributionId == totalContributionsProcessed
              && contributionId !in old(contributions)
              && contributions == old(contributions)[contributionId := BudgetContribution(budgetId, contributor, amount, now)]
              && transfers == old(transfers) + [Transfer(budget.token, contributor, contractAddress, amount)]
              && events == old(events) + [ContributionAdded(budgetId, contributor, amount)]
              && admin == old(admin) && memberFlags == old(memberFlags)
              && totalBudgetsCreated == old(totalBudgetsCreated))
    {
      // The transfer and the writes come before the additions in the call,
      // but an abort in either addition discards them; they are made here
      // once both have passed.
      // The balance never exceeds the total contributed, so the second
      // addition overflows whenever the first one does.
      if budget.balance + amount > I128_MAX || budget.totalContributed + amount > I128_MAX {
        return Err(HostPanic(ADD_OVERFLOW));
      }
      var credited := budget.(balance := budget.balance + amount);
      credited := credited.(totalContributed := credited.totalContributed + amount);
      if totalContributionsProcessed == U64_MAX {
        return Err(HostPanic(ADD_OVERFLOW));
      }
      var contributionId := totalContributionsProcessed + 1;
      var contribution := BudgetContribution(budgetId, contributor, amount, now);

      transfers := transfers + [Transfer(budget.token, contributor, contractAddress, amount)];
      budgets := budgets[budgetId := credited];
      contributions := contributions[contributionId := contribution];
      totalContributionsProcessed := contributionId;
      events := events + [ContributionAdded(budgetId, contributor, amount)];
      r := Ok(());
    }

    /** `spend_from_budget`: a member moves `amount` from the budget to
        `recipient`, if the balance covers it and no spending rule blocks it.
        `threshold` is the rule threshold (see RuleThreshold). */
    method SpendFromBudget(spender: Address, budgetId: U64, recipient: Address, amount: I128,
                           threshold: (I128, U32) -> I128)
      returns (r: Result<(), Abort<SharedBudgetError>>)
      requires Valid()
      modifies this
      ensures Valid()
      ensures r.Err? ==> unchanged(this)
      ensures amount <= 0 ==> r == Err(ContractError(InvalidAmount))
      ensures amount > 0 && budgetId !in old(budgets) ==> r == Err(ContractError(BudgetNotFound))
      ensures amount > 0 && budgetId in old(budgets) ==>
        var b := old(budgets)[budgetId];
        var member := (budgetId, spender) in old(memberFlags) && old(memberFlags)[(budgetId, spender)];
        var blocked := exists k :: 0 <= k < |b.spendingRules|
                         && Blocks(b.spendingRules[k], b.totalContributed, spender, amount, threshold);
        && (!b.isActive ==> r == Err(ContractError(BudgetNotActive)))
        && (b.isActive && !member ==> r == Err(ContractError(MemberNotFound)))
        && (b.isActive && member && b.balance < amount ==> r == Err(ContractError(InsufficientBalance)))
        && (b.isActive && member && b.balance >= amount && blocked ==> r == Err(ContractError(Unauthorized)))
        && (r.Ok? <==> b.isActive && member && b.balance >= amount && !blocked)
        && (r.Ok? ==>
              && budgets == old(budgets)[budgetId := b.(balance := b.balance - amount)]
              && transfers == old(transfers) + [Transfer(b.token, contractAddress, recipient, amount)]
              && events == old(events) + [ExpenseIncurred(budgetId, spender, recipient, amount)])
      ensures r.Ok? ==>
        && admin == old(admin) && memberFlags == old(memberFlags) && contributions == old(contributions)
        && totalBudgetsCreated == old(totalBudgetsCreated)
        && totalContributionsProcessed == old(totalContributionsProcessed)
    {
      if ValidateAmount(amount).Err? {
        return Err(ContractError(InvalidAmount));
      }
      if budgetId !in budgets {
        return Err(ContractError(BudgetNotFound));
      }
      var budget := budgets[budgetId];
      if !budget.isActive {
        return Err(ContractError(BudgetNotActive));
      }
      var isMember := IsBudgetMember(budgetId, spender);
      if !isMember {
        return Err(ContractError(MemberNotFound));
      }
      if budget.balance < amount {
        return Err(ContractError(InsufficientBalance));
      }
      var allowed := EnforceSpendingRules(budget, spender, amount, threshold);
      if allowed.Err? {
        return Err(ContractError(allowed.error));
      }

      transfers := transfers + [Transfer(budget.token, contractAddress, recipient, amount)];
      // Cannot underflow: 0 < amount <= balance.
      budget := budget.(balance := budget.balance - amount);
      budgets := budgets[budgetId := budget];
      events := events + [ExpenseIncurred(budgetId, spender, recipient, amount)];
      r := Ok(());
    }

    /** `get_budget`: the stored budget, or `BudgetNotFound`. */
    function GetBudget(budgetId: U64): (r: Result<Budget, SharedBudgetError>)
      reads this
      requires Valid()
      ensures r.Ok? <==> budgetId in budgets
      ensures r.Ok? ==> r.value == budgets[budgetId] && r.value.id == budgetId
      ensures r.Ok? ==> 0 <= r.value.balance <= r.value.totalContributed
      ensures r.Err? ==> r.error == BudgetNotFound
    {
      if budgetId in budgets then Ok(budgets[budgetId]) else Err(BudgetNotFound)
    }

    /** `is_budget_member`: the stored member flag, false when never set.
        Only listed members of a stored budget are ever flagged. */
    function IsBudgetMember(budgetId: U64, member: Address): (r: bool)
      reads this
      requires Valid()
      ensures r <==> (budgetId, member) in memberFlags
      ensures r ==> budgetId in budgets && member in budgets[budgetId].members
    {
      var key := (budgetId, member);
      if key in memberFlags then memberFlags[key] else false
    }

    /** `get_contribution`: the recorded contribution; a missing one is
        reported with the code `RuleNotFound`. */
    function GetContribution(contributionId: U64): (r: Result<BudgetContribution, SharedBudgetError>)
      reads this
      requires Valid()
      ensures r.Ok? <==> contributionId in contributions
      ensures r.Ok? ==> r.value == contributions[contributionId] && r.value.budgetId in budgets && r.value.amount > 0
      ensures r.Err? ==> r.error == RuleNotFound
    {
      if contributionId in contributions then Ok(contributions[contributionId]) else Err(RuleNotFound)
    }

    /** The number of budgets created, which bounds every budget id. */
    function GetTotalBudgetsCreated(): (n: U64)
      reads this
      requires Valid()
      ensures forall id :: id in budgets ==> 1 <= id <= n
    {
      totalBudgetsCreated
    }

    /** The number of contributions recorded, which bounds every contribution id. */
    function GetTotalContribsProcessed(): (n: U64)
      reads this
      requires Valid()
      ensures forall id :: id in contributions ==> 1 <= id <= n
    {
      totalContributionsProcessed
    }
  }

  /** Scenario: a budget of two members with one rule gets id 1, starts
      active and empty with both members flagged; a second budget gets id 2. */
  method CreateBudgetScenario(self: Address, admin: Address, creator: Address, member1: Address, member2: Address,
                              stranger: Address, token: Address, name: Symbol, rule: BudgetSpendingRule)
    returns (first: Result<U64, Abort<SharedBudgetError>>, second: Result<U64, Abort<SharedBudgetError>>,
             budget: Budget, flagged1: bool, flagged2: bool, flaggedStranger: bool)
    requires stranger != member1 && stranger != member2
    requires rule.percentageThreshold <= 100
    ensures first == Ok(1) && second == Ok(2)
    ensures budget.balance == 0 && budget.totalContributed == 0 && budget.isActive
    ensures budget.creator == creator && budget.token == token && budget.name == name
    ensures flagged1 && flagged2 && !flaggedStranger
  {
    var c := new SharedBudgetContract(self);
    var init := c.Initialize(admin);
    first := c.CreateBudget(creator, name, [member1, member2], token, [rule], 0);
    budget := c.GetBudget(1).value;
    flagged1 := c.IsBudgetMember(1, member1);
    flagged2 := c.IsBudgetMember(1, member2);
    flaggedStranger := c.IsBudgetMember(1, stranger);
    second := c.CreateBudget(creator, name, [member1], token, [], 0);
  }

  /** Scenario: a contribution of 100 000 000 to a new budget raises its
      balance and its total contributed alike and is contribution 1. */
  method ContributeScenario(self: Address, creator: Address, member: Address, contributor: Address,
                            token: Address, name: Symbol)
    returns (contributed: Result<(), Abort<SharedBudgetError>>, afterContribution: Budget,
             contribution: Result<BudgetContribution, SharedBudgetError>)
    ensures contributed.Ok?
    ensures afterContribution.balance == 100_000_000 && afterContribution.totalContributed == 100_000_000
    ensures contribution == Ok(BudgetContribution(1, contributor, 100_000_000, 0))
  {
    var c := new SharedBudgetContract(self);
    var created := c.CreateBudget(creator, name, [member], token, [], 0);
    assert created == Ok(1);
    contributed := c.ContributeToBudget(contributor, 1, 100_000_000, 0);
    afterContribution := c.GetBudget(1).value;
    contribution := c.GetContribution(1);
  }

  /** Scenario: from a budget holding 100 000 000, a member spends
      50 000 000, which lowers the balance and leaves the total contributed
      as it was. */
  method SpendScenario(self: Address, creator: Address, member: Address, contributor: Address,
                       recipient: Address, token: Address, name: Symbol, threshold: (I128, U32) -> I128)
    returns (spent: Result<(), Abort<SharedBudgetError>>, afterSpend: Budget)
    ensures spent.Ok?
    ensures afterSpend.balance == 50_000_000 && afterSpend.totalContributed == 100_000_000
  {
    var c := new SharedBudgetContract(self);
    var created := c.CreateBudget(creator, name, [member], token, [], 0);
    assert created == Ok(1);
    var contributed := c.ContributeToBudget(contributor, 1, 100_000_000, 0);
    assert c.budgets[1].balance == 100_000_000;
    assert (1, member) in c.memberFlags;
    spent := c.SpendFromBudget(member, 1, recipient, 50_000_000, threshold);
    afterSpend := c.GetBudget(1).value;
  }

  /** Scenario: a spend by someone who is not a member is refused, and so is
      a member's spend above the balance. */
  method RefusedSpendScenario(self: Address, creator: Address, member: Address, outsider: Address,
                              recipient: Address, token: Address, name: Symbol, threshold: (I128, U32) -> I128)
    returns (nonMember: Result<(), Abort<SharedBudgetError>>, overdraft: Result<(), Abort<SharedBudgetError>>)
    requires outsider != member
    ensures nonMember == Err(ContractError(MemberNotFound))
    ensures overdraft == Err(ContractError(InsufficientBalance))
  {
    var c := new SharedBudgetContract(self);
    var created := c.CreateBudget(creator, name, [member], token, [], 0);
    assert created == Ok(1);
    var contributed := c.ContributeToBudget(outsider, 1, 100, 0);
    assert c.budgets[1].balance == 100;
    assert (1, member) in c.memberFlags && (1, outsider) !in c.memberFlags;
    nonMember := c.SpendFromBudget(outsider, 1, recipient, 1, threshold);
    overdraft := c.SpendFromBudget(member, 1, recipient, 101, threshold);
  }

  /** Scenario: before anything is contributed, a rule naming a member without
      approval blocks that member's spends, while a rule that asks for
      approval, or names someone else, never does. */
  method RuleScenario(member: Address, other: Address, token: Address, name: Symbol, description: Symbol,
                      threshold: (I128, U32) -> I128)
    returns (strict: Result<(), SharedBudgetError>, approval: Result<(), SharedBudgetError>,
             elsewhere: Result<(), SharedBudgetError>)
    requires other != member
    ensures strict == Err(Unauthorized)
    ensures approval.Ok? && elsewhere.Ok?
  {
    var strictRule := BudgetSpendingRule(member, 10, false, description);
    var approvalRule := BudgetSpendingRule(member, 20, true, description);
    var otherRule := BudgetSpendingRule(other, 10, false, description);
    var budget := Budget(1, name, member, token, [member, other], 0, 0, [strictRule], true, 0);
    NoContributionsBlocks(strictRule, 0, member, 1, threshold);
    assert budget.spendingRules[0] == strictRule;
    strict := EnforceSpendingRules(budget, member, 1, threshold);
    approval := EnforceSpendingRules(budget.(spendingRules := [approvalRule]), member, 1, threshold);
    elsewhere := EnforceSpendingRules(budget.(spendingRules := [otherRule]), member, 1, threshold);
  }

  /** As written, a budget created before `initialize` (creation needs no
      admin) keeps id 1 while `initialize` resets the counter, so the next
      creation is handed id 1 again and would overwrite that budget. */
  method ReinitializeScenario(self: Address, admin: Address, creator: Address, member: Address,
                              token: Address, name: Symbol)
    returns (nextId: int, taken: bool)
    ensures nextId == 1 && taken
  {
    var c := new SharedBudgetContract(self);
    var created := c.CreateBudget(creator, name, [member], token, [], 0);
    var init := c.Initialize(admin);
    nextId := c.totalBudgetsCreated + 1;
    taken := nextId in c.budgets;
  }

  /** With the counters kept, the next creation after `initialize` gets a
      fresh id, so no budget is overwritten. */
  method KeptCountersScenario(self: Address, admin: Address, creator: Address, member: Address,
                              token: Address, name: Symbol)
    returns (first: Result<U64, Abort<SharedBudgetError>>, second: Result<U64, Abort<SharedBudgetError>>,
             original: Budget)
    ensures first == Ok(1) && second == Ok(2)
    ensures original == Budget(1, name, creator, token, [member], 0, 0, [], true, 0)
  {
    var c := new SharedBudgetContract(self);
    first := c.CreateBudget(creator, name, [member], token, [], 0);
    var init := c.InitializeKeepingCounters(admin);
    second := c.CreateBudget(creator, name, [member], token, [], 0);
    original := c.GetBudget(1).value;
  }
}
