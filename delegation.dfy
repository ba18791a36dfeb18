/** The delegation contract: an owner lets a delegate spend up to a limit on
    the owner's behalf, and the delegate draws that allowance down. One
    allowance record per (owner, delegate) pair. */
module Delegations {
  import opened Host

  /** `DelegationError`, numbered 1 to 4. */
  datatype DelegationError = InvalidAddress | InvalidAmount | Unauthorized | AmountTooLarge
  {
    function Code(): U32 {
      match this
      case InvalidAddress => 1
      case InvalidAmount => 2
      case Unauthorized => 3
      case AmountTooLarge => 4
    }
  }

  /** The allowance of one delegate: its cap and what has been drawn. */
  datatype Delegation = Delegation(limit: I128, spent: I128)

  datatype DelegationEvent =
    | DelegationSet(owner: Address, delegate: Address, limit: I128)
    | DelegationRevoked(owner: Address, delegate: Address)
    | AllowanceConsumed(owner: Address, delegate: Address, amount: I128)

  class DelegationContract {
    /** `Allowance(owner, delegate)` records. */
    var allowances: map<(Address, Address), Delegation>
    ghost var events: seq<DelegationEvent>

    /** No one delegates to themselves, every stored limit is positive and
        nothing drawn is negative. (`spent <= limit` is NOT kept: setting a
        lower limit leaves what was already drawn.) */
    ghost predicate Valid()
      reads this
    {
      forall key :: key in allowances ==>
        key.0 != key.1 && allowances[key].limit > 0 && allowances[key].spent >= 0
    }

    constructor ()
      ensures Valid()
      ensures allowances == map[] && events == []
    {
      allowances := map[];
      events := [];
    }

    /** `set_delegation`: set the cap of `delegate`, keeping what it has
        already drawn (nothing, for a new allowance). */
    method SetDelegation(owner: Address, delegate: Address, limit: I128) returns (r: Result<(), DelegationError>)
      requires Valid()
      modifies this
      ensures Valid()
      ensures owner == delegate ==> r == Err(InvalidAddress)
      ensures owner != delegate && limit <= 0 ==> r == Err(InvalidAmount)
      ensures r.Ok? <==> owner != delegate && limit > 0
      ensures r.Err? ==> unchanged(this)
      ensures r.Ok? ==>
        var spent := if (owner, delegate) in old(allowances) then old(allowances)[(owner, delegate)].spent else 0;
        && allowances == old(allowances)[(owner, delegate) := Delegation(limit, spent)]
        && events == old(events) + [DelegationSet(owner, delegate, limit)]
    {
      if owner == delegate {
        return Err(InvalidAddress);
      }
      if limit <= 0 {
        return Err(InvalidAmount);
      }
      var key := (owner, delegate);
      var delegation := if key in allowances then allowances[key] else Delegation(0, 0);
      delegation := delegation.(limit := limit);
      allowances := allowances[key := delegation];
      events := events + [DelegationSet(owner, delegate, limit)];
      r := Ok(());
    }

    /** `revoke_delegation`: remove the allowance; nothing happens when there
        is none. */
    method RevokeDelegation(owner: Address, delegate: Address)
      requires Valid()
      modifies this
      ensures Valid()
      ensures allowances == old(allowances) - {(owner, delegate)}
      ensures events == old(events) + if (owner, delegate) in old(allowances) then [DelegationRevoked(owner, delegate)] else []
    {
      var key := (owner, delegate);
      if key in allowances {
        allowances := allowances - {key};
        events := events + [DelegationRevoked(owner, delegate)];
      }
    }

    /** `consume_allowance`: draw `amount` from the allowance. The new drawn
        total is `spent + amount`, or i128::MAX when that overflows; it is
        accepted only if it does not exceed the limit. */
    method ConsumeAllowance(owner: Address, delegate: Address, amount: I128) returns (r: Result<(), DelegationError>)
      requires Valid()
      modifies this
      ensures Valid()
      ensures amount <= 0 ==> r == Err(InvalidAmount)
      ensures amount > 0 && (owner, delegate) !in old(allowances) ==> r == Err(Unauthorized)
      ensures r.Err? ==> unchanged(this)
      ensures amount > 0 && (owner, delegate) in old(allowances) ==>
        var d := old(allowances)[(owner, delegate)];
        var newSpent := if d.spent + amount <= I128_MAX then d.spent + amount else I128_MAX;
        && (r.Ok? <==> newSpent <= d.limit)
        && (r.Err? ==> r.error == AmountTooLarge)
        && (r.Ok? ==>
              && allowances == old(allowances)[(owner, delegate) := d.(spent := newSpent)]
              && events == old(events) + [AllowanceConsumed(owner, delegate, amount)])
      // Drawing never takes an allowance past its limit.
      ensures r.Ok? ==> allowances[(owner, delegate)].spent <= allowances[(owner, delegate)].limit
    {
      if amount <= 0 {
        return Err(InvalidAmount);
      }
      var key := (owner, delegate);
      if key !in allowances {
        return Err(Unauthorized);
      }
      var delegation := allowances[key];
      var newSpent := AddOrMax(delegation.spent, amount);
      if newSpent > delegation.limit {
        return Err(AmountTooLarge);
      }
      delegation := delegation.(spent := newSpent);
      allowances := allowances[key := delegation];
      events := events + [AllowanceConsumed(owner, delegate, amount)];
      r := Ok(());
    }

    /** `get_delegation`: the allowance of the pair, if any. */
    function GetDelegation(owner: Address, delegate: Address): (r: Option<Delegation>)
      reads this
      requires Valid()
      ensures r.Some? <==> (owner, delegate) in allowances
      ensures r.Some? ==> r.value == allowances[(owner, delegate)] && r.value.limit > 0 && r.value.spent >= 0
      ensures owner == delegate ==> r.None?
    {
      var key := (owner, delegate);
      if key in allowances then Some(allowances[key]) else None
    }
  }

  /** Scenario: a 1000 allowance is created with nothing drawn; 500 is drawn;
      a draw of 1500 is refused, as are a self-delegation and a draw by a
      delegate without an allowance; after revocation nothing is stored. */
  method AllowanceScenario(owner: Address, delegate: Address, stranger: Address)
    returns (created: Option<Delegation>, drawn: Option<Delegation>,
             overspend: Result<(), DelegationError>, selfDelegation: Result<(), DelegationError>,
             unauthorized: Result<(), DelegationError>, revoked: Option<Delegation>)
    requires owner != delegate && stranger != delegate
    ensures created == Some(Delegation(1000, 0))
    ensures drawn == Some(Delegation(1000, 500))
    ensures overspend == Err(AmountTooLarge) && overspend.error.Code() == 4
    ensures selfDelegation == Err(InvalidAddress) && selfDelegation.error.Code() == 1
    ensures unauthorized == Err(Unauthorized) && unauthorized.error.Code() == 3
    ensures revoked == None
  {
    var c := new DelegationContract();
    var ok := c.SetDelegation(owner, delegate, 1000);
    created := c.GetDelegation(owner, delegate);
    ok := c.ConsumeAllowance(owner, delegate, 500);
    drawn := c.GetDelegation(owner, delegate);
    overspend := c.ConsumeAllowance(owner, delegate, 1500);
    selfDelegation := c.SetDelegation(owner, owner, 1000);
    unauthorized := c.ConsumeAllowance(owner, stranger, 500);
    c.RevokeDelegation(owner, delegate);
    revoked := c.GetDelegation(owner, delegate);
  }

  /** Scenario: lowering a limit below what was already drawn is accepted and
      keeps the drawn total, which then exceeds the limit; every further draw
      is refused. */
  method LoweredLimitScenario(owner: Address, delegate: Address)
    returns (lowered: Option<Delegation>, further: Result<(), DelegationError>)
    requires owner != delegate
    ensures lowered == Some(Delegation(500, 800)) && lowered.value.spent > lowered.value.limit
    ensures further == Err(AmountTooLarge)
  {
    var c := new DelegationContract();
    var ok := c.SetDelegation(owner, delegate, 1000);
    ok := c.ConsumeAllowance(owner, delegate, 800);
    ok := c.SetDelegation(owner, delegate, 500);
    lowered := c.GetDelegation(owner, delegate);
    further := c.ConsumeAllowance(owner, delegate, 1);
  }

  /** Scenario: with a limit of i128::MAX the drawn total saturates, so once
      it reaches i128::MAX every further draw is accepted and leaves it there. */
  method SaturatedAllowanceScenario(owner: Address, delegate: Address)
    returns (first: Result<(), DelegationError>, second: Result<(), DelegationError>, after: Option<Delegation>)
    requires owner != delegate
    ensures first.Ok? && second.Ok?
    ensures after == Some(Delegation(I128_MAX, I128_MAX))
  {
    var c := new DelegationContract();
    var ok := c.SetDelegation(owner, delegate, I128_MAX);
    assert c.allowances[(owner, delegate)] == Delegation(I128_MAX, 0);
    first := c.ConsumeAllowance(owner, delegate, I128_MAX);
    assert c.allowances[(owner, delegate)] == Delegation(I128_MAX, I128_MAX);
    assert I128_MAX + 1000 > I128_MAX;
    second := c.ConsumeAllowance(owner, delegate, 1000);
    after := c.GetDelegation(owner, delegate);
  }
}
