/** The escalation gate: a first-match decision chain over an action's amount,
    sensitivity flag and type, with two fixed thresholds and a denylist. */
module Escalation {
  import opened Models

  datatype Verdict = Proceed | Confirm | Block

  const BudgetThreshold: real := 500.0
  const CriticalThreshold: real := 2000.0

  /** The action types the gate refuses outright (its "never" rules). */
  const NeverTypes: seq<string> := ["BANK_TRANSFER", "DELETE_DATABASE"]

  /** `EscalationHandler.check_action`, rules tried in order: amount above the critical
      threshold, amount above the budget threshold, the sensitive flag, the denylist.
      The contract gives, for each verdict, the exact set of actions that receive it. */
  function CheckAction(a: Action): (r: Verdict)
    ensures r == Block <==>
              a.amount > CriticalThreshold
              || (a.amount <= BudgetThreshold && !a.sensitive && a.kind in NeverTypes)
    ensures r == Confirm <==>
              (BudgetThreshold < a.amount <= CriticalThreshold)
              || (a.amount <= BudgetThreshold && a.sensitive)
    ensures r == Proceed <==>
              a.amount <= BudgetThreshold && !a.sensitive && a.kind !in NeverTypes
  {
    if a.amount > CriticalThreshold then Block
    else if a.amount > BudgetThreshold then Confirm
    else if a.sensitive then Confirm
    else if a.kind in NeverTypes then Block
    else Proceed
  }

  /** `EscalationHandler.requires_confirmation`: the action needs a yes from the user. */
  function RequiresConfirmation(a: Action): (r: bool)
    ensures r <==> (BudgetThreshold < a.amount <= CriticalThreshold) || (a.amount <= BudgetThreshold && a.sensitive)
  {
    CheckAction(a) == Confirm
  }

  /** Above the critical threshold the verdict is `Block`, whatever the flag and type. */
  lemma CriticalAmountBlocks(a: Action)
    requires a.amount > CriticalThreshold
    ensures CheckAction(a) == Block
  {
  }

  /** Between the thresholds the verdict is `Confirm`, even for a denylisted type:
      the budget rule is tried before the denylist. */
  lemma BudgetTierBeforeDenylist(a: Action)
    requires BudgetThreshold < a.amount <= CriticalThreshold
    ensures CheckAction(a) == Confirm
  {
  }

  /** The comparisons are strict: exactly 2000 asks for confirmation, exactly 500 is not
      escalated by the budget rule, and 2000.01 is blocked. */
  lemma ThresholdsAreStrict(kind: string, description: string, sensitive: bool)
    ensures CheckAction(Action(kind, description, 2000.0, sensitive)) == Confirm
    ensures CheckAction(Action(kind, description, 500.0, sensitive))
         == CheckAction(Action(kind, description, 0.0, sensitive))
    ensures CheckAction(Action(kind, description, 2000.01, sensitive)) == Block
  {
  }

  /** At or below the budget, a sensitive action asks for confirmation. */
  lemma SensitiveConfirms(a: Action)
    requires a.amount <= BudgetThreshold && a.sensitive
    ensures CheckAction(a) == Confirm
  {
  }

  /** At or below the budget and not sensitive, a denylisted type is blocked. */
  lemma DenylistBlocks(a: Action)
    requires a.amount <= BudgetThreshold && !a.sensitive
    requires a.kind == "BANK_TRANSFER" || a.kind == "DELETE_DATABASE"
    ensures CheckAction(a) == Block
  {
  }

  /** The verdict reads only the amount, the flag and the type: the description and
      anything else about the caller play no part. */
  lemma VerdictIgnoresDescription(a: Action, b: Action)
    requires a.kind == b.kind && a.amount == b.amount && a.sensitive == b.sensitive
    ensures CheckAction(a) == CheckAction(b)
  {
  }

  /** Severity is not monotone in the amount: a small denylisted transfer is blocked,
      while the same transfer above the budget only needs confirmation. */
  lemma NotMonotoneInAmount()
    ensures CheckAction(Action("BANK_TRANSFER", "", 100.0, false)) == Block
    ensures CheckAction(Action("BANK_TRANSFER", "", 600.0, false)) == Confirm
  {
  }

  /** An action built with the defaults (amount 0, not sensitive) is blocked exactly when
      its type is denylisted, and otherwise proceeds. */
  lemma DefaultActionVerdict(kind: string, description: string)
    ensures DefaultAction(kind, description).amount == 0.0
    ensures !DefaultAction(kind, description).sensitive
    ensures CheckAction(DefaultAction(kind, description)) == if kind in NeverTypes then Block else Proceed
  {
  }
}
