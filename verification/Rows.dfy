/** The database rows the engines read. Each row is a value; the tables that hold them are
    updated in place by the services. */
module Rows {
  import opened Domain

  type EventId = nat
  type CustomerId = nat
  type MandateId = nat

  datatype Customer = Customer(optedOut: bool, ltv: nat)

  datatype Mandate = Mandate(customer: CustomerId, attemptsUsed: nat, lastPdnSentAt: Option<Time>)

  /** One unit of revenue at risk. Amounts are paise. */
  datatype Event = Event(
    kind: EventKind,
    status: EventStatus,
    cohort: Cohort,
    training: bool,
    customer: CustomerId,
    mandate: Option<MandateId>,
    amount: nat,
    occurredAt: Time,
    route: string,
    rootCause: RootCause,
    retryCount: nat,
    priorContacts: nat,
    organicProbability: real,
    appliedAction: Option<ActionType>,
    recoveredAmount: int,
    recoveryCost: int,
    contactsUsed: nat)

  // Tables are dense: the row number is the id.
  type EventTable = seq<Event>
  type CustomerTable = seq<Customer>
  type MandateTable = seq<Mandate>
}
