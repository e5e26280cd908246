/** Buyer approvals: a stored deadline per buyer, slid forward by gated purchases. */
module Approvals {
  import opened Types

  type Deadlines = map<Address, nat>

  function DeadlineOf(m: Deadlines, a: Address): nat {
    if a in m then m[a] else 0
  }

  // A revocation overwrites the deadline with zero.
  function Write(m: Deadlines, now: nat, a: Address, allowed: bool): Deadlines {
    m[a := if allowed then now + BUYER_APPROVAL_WINDOW else 0]
  }

  predicate IsApproved(m: Deadlines, now: nat, a: Address) {
    now < DeadlineOf(m, a)
  }

  // Only a live approval renews itself, and only when it would move far enough.
  function Touch(m: Deadlines, now: nat, a: Address): Deadlines {
    var current := DeadlineOf(m, a);
    if now < current && now + BUYER_APPROVAL_WINDOW - current >= BUYER_APPROVAL_REFRESH_INTERVAL
    then m[a := now + BUYER_APPROVAL_WINDOW]
    else m
  }
}
