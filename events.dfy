/** The events the contract publishes, one tagged variant per topic, with the
    payload fields that follow the common header (schema version, ledger
    sequence and timestamp, which are not modelled). */
module Events {
  import opened Numeric
  import opened Types

  datatype Event =
    | RemittanceCreated(id: U64, sender: Address, agent: Address, token: Address, amount: I128, fee: I128)
    | RemittanceCompleted(id: U64, sender: Address, agent: Address, token: Address, amount: I128)
    | RemittanceCancelled(id: U64, sender: Address, agent: Address, token: Address, amount: I128)
    | BatchStarted(batchSize: nat)
    | BatchCompleted(totalCount: nat, successCount: nat, totalPayout: I128)
    | BatchFailed(failedAtIndex: nat, remittanceId: U64, reason: nat)
    | AgentRegistered(agent: Address, admin: Address)
    | AgentRemoved(agent: Address, admin: Address)
    | FeeUpdated(admin: Address, oldFeeBps: U32, newFeeBps: U32)
    | FeesWithdrawn(admin: Address, recipient: Address, token: Address, amount: I128)

  /** An account taking part in a token transfer: the contract's own custody account or a principal. */
  datatype Party = Custody | Account(owner: Address)

  /** One call of the token contract's `transfer`, recorded without balance checks. */
  datatype Transfer = Transfer(from: Party, to: Party, amount: I128)
}
