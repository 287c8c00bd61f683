/** The records an Agent keeps about metered traffic. */
module AgentTypes {

  /** Identifiers are opaque tokens that are only compared. */
  type Id(==, !new)

  datatype Option<+T> = None | Some(value: T)

  const MAX_PENDING: int := 4096
  const MAX_LEASES: int := 16384
  /** Credit limits in bytes: 256 KiB, 1 MiB, 8 MiB, 2 MiB and 4 MiB. */
  const WINDOW_SIZE: int := 262_144
  const RULE_CREDITS: int := 1_048_576
  const ACCOUNT_CREDITS: int := 8_388_608
  const TCP_WINDOW: int := 2_097_152
  const TCP_RULE_CREDITS: int := 4_194_304
  const IDLE_TIMEOUT: int := 1_000_000_000

  /** A finite allocation granted by the panel. */
  datatype Lease = Lease(id: Id, entitlement: Id, bytes: int, expiresAt: int)

  /** The account that a rule's liability is counted against. */
  datatype Owner = User(user: Id) | Local(rule: Id)

  /** `route` stands for every field of a rule that only decides where traffic goes. */
  datatype Rule = Rule(id: Id, user: Option<Id>, tcp: bool, udpCredit: bool, enabled: bool,
                       lease: Option<Lease>, standby: Option<Lease>, route: int)
  {
    function Owner(): Owner {
      if user.Some? then User(user.value) else Local(id)
    }

    predicate UsesCredit() {
      tcp || udpCredit
    }

    /** The primary lease followed by the standby. */
    function Leases(): seq<Lease> {
      (if lease.Some? then [lease.value] else []) + (if standby.Some? then [standby.value] else [])
    }

    /** Replacing an allocation changes accounting, not the destination. */
    predicate SameForwarding(other: Rule) {
      if lease.None? || other.lease.None? then this == other
      else this.(lease := None, standby := None) == other.(lease := None, standby := None)
    }
  }

  /** `present` is false until the first configuration arrives. */
  datatype Config = Config(present: bool, rules: seq<Rule>, validUntil: int)

  /** Lease bytes set aside for one rule and direction; `confirmed` of them are already billed. */
  datatype Window = Window(id: Id, owner: Owner, rule: Id, lease: Id, upload: bool, capacity: int, confirmed: int,
                           sequence: nat, startedAt: int, until: int, closed: bool, tcp: bool)
  {
    function Left(): int {
      capacity - confirmed
    }

    function WindowLimit(): int {
      if tcp then TCP_WINDOW else WINDOW_SIZE
    }

    function RuleLimit(): int {
      if tcp then TCP_RULE_CREDITS else RULE_CREDITS
    }
  }

  /** A window's progress reports are numbered; a direct charge carries a random identifier. */
  datatype UsageId = Direct(id: Id) | Report(window: Id, sequence: nat)

  datatype Usage = Usage(id: UsageId, node: Id, rule: Id, lease: Id, entitlement: Id,
                         startedAt: int, endedAt: int, up: int, down: int, recovery: bool)
  {
    function Bytes(): int {
      up + down
    }
  }

  /** The memory side of an open window: what the fast path has spent from it. */
  datatype Live = Live(window: Window, used: int, last: int, closed: bool)
  {
    function Unconfirmed(): int {
      used - window.confirmed
    }
  }

  datatype Event =
    | Reserve(window: Window, grant: Lease)
    | Progress(window: Window, usage: Option<Usage>)
    | SetConfig(config: Config)
    | Charge(charge: Usage, newLease: Option<Lease>)
    | Ack(ids: set<UsageId>)
    | Retire(lease: Id)
    | RetireAck(lease: Id)

  function Min(a: int, b: int): int {
    if a < b then a else b
  }

  function Max(a: int, b: int): int {
    if a < b then b else a
  }
}
