/** The per-token time window of a pass (contracts/pass_nft/src/state.rs), the
    collection's stored configuration, and the token record of the base
    non-fungible-token library. Times are whole seconds. */
module PassState {
  import opened Host

  /** The metadata extension of every pass. */
  datatype PassExtension = PassExtension(
    expiresAt: nat,
    isActive: bool,
    gracePeriodEnd: nat,
    timesRenewed: nat)

  datatype PassStatus = Active | InGracePeriod | Expired

  /** The window never closes before the pass expires. */
  predicate WellFormed(e: PassExtension)
  {
    e.expiresAt <= e.gracePeriodEnd
  }

  /** `PassExtension::new`: a fresh pass created at `now`. */
  function New(now: nat, passDuration: nat, gracePeriod: nat): (e: PassExtension)
    ensures WellFormed(e) && e.isActive && e.timesRenewed == 0
    ensures e.expiresAt == now + passDuration
    ensures e.gracePeriodEnd == now + passDuration + gracePeriod
  {
    var expiresAt := now + passDuration;
    PassExtension(expiresAt, true, expiresAt + gracePeriod, 0)
  }

  /** `PassExtension::status`: which phase the pass is in at time `now`. The
      three phases are told apart by `now` alone. */
  function Status(e: PassExtension, now: nat): (s: PassStatus)
    ensures s == Active <==> now < e.expiresAt
    ensures s == InGracePeriod <==> e.expiresAt <= now <= e.gracePeriodEnd
    ensures s == Expired <==> e.expiresAt <= now && e.gracePeriodEnd < now
  {
    if now < e.expiresAt then Active
    else if now <= e.gracePeriodEnd then InGracePeriod
    else Expired
  }

  /** `PassExtension::renew`: the updated copy of `e` renewed at `now`. */
  function Renew(e: PassExtension, now: nat, passDuration: nat, gracePeriod: nat): (r: PassExtension)
    ensures WellFormed(r) && r.isActive
    ensures r.timesRenewed == e.timesRenewed + 1
    ensures r.expiresAt == now + passDuration
    ensures r.gracePeriodEnd == now + passDuration + gracePeriod
  {
    var expiresAt := now + passDuration;
    e.(expiresAt := expiresAt, gracePeriodEnd := expiresAt + gracePeriod,
       isActive := true, timesRenewed := e.timesRenewed + 1)
  }

  /** Given a well-formed window, Expired means exactly "after the grace
      period". */
  lemma ExpiredIffPastGrace(e: PassExtension, now: nat)
    requires WellFormed(e)
    ensures Status(e, now) == Expired <==> now > e.gracePeriodEnd
  {
  }

  function Rank(s: PassStatus): nat
  {
    match s
    case Active => 0
    case InGracePeriod => 1
    case Expired => 2
  }

  /** Time only moves a pass forward through its phases: once in the grace
      period it is never active again, and once expired it stays expired. */
  lemma StatusMonotone(e: PassExtension, t1: nat, t2: nat)
    requires t1 <= t2
    ensures Rank(Status(e, t1)) <= Rank(Status(e, t2))
    ensures Status(e, t1) == InGracePeriod ==> Status(e, t2) != Active
    ensures Status(e, t1) == Expired ==> Status(e, t2) == Expired
  {
  }

  /** A pass with a positive duration is active at the moment it is created. */
  lemma NewIsActive(now: nat, passDuration: nat, gracePeriod: nat)
    requires passDuration > 0
    ensures Status(New(now, passDuration, gracePeriod), now) == Active
  {
  }

  /** Renewal recomputes the window from the renewal time, exactly as if the
      pass were created then: unused time is discarded, not carried over. Only
      the renewal count remembers the old pass. */
  lemma RenewRestartsWindow(e: PassExtension, now: nat, passDuration: nat, gracePeriod: nat)
    ensures Renew(e, now, passDuration, gracePeriod)
         == New(now, passDuration, gracePeriod).(timesRenewed := e.timesRenewed + 1)
  {
  }

  /** Renewing twice at the same moment gives the same window as renewing once. */
  lemma RenewWindowIdempotent(e: PassExtension, now: nat, passDuration: nat, gracePeriod: nat)
    ensures var once := Renew(e, now, passDuration, gracePeriod);
            var twice := Renew(once, now, passDuration, gracePeriod);
            twice.expiresAt == once.expiresAt && twice.gracePeriodEnd == once.gracePeriodEnd
  {
  }

  /** The test collection's window: duration 1200 s and grace 300 s, created at
      `t0`. */
  lemma WindowScenario(t0: nat, t: nat)
    ensures var e := New(t0, 1200, 300);
            (t < t0 + 1200 ==> Status(e, t) == Active)
            && (t0 + 1200 <= t <= t0 + 1500 ==> Status(e, t) == InGracePeriod)
            && (t >= t0 + 1501 ==> Status(e, t) == Expired)
  {
  }

  /** The collection's stored configuration, with the fields the code reads
      and writes (contracts/pass_nft/src/contract.rs:39-51). */
  datatype Config = Config(
    name: string,
    symbol: string,
    artist: Addr,
    minter: Addr,
    collectionInfo: string,
    passPrice: U128,
    passDuration: U64,
    gracePeriod: U64,
    paymentAddress: Addr,
    housePercentage: U32,
    artistPercentage: U32)

  /** An approval as the base library records it. */
  datatype TokenApproval = TokenApproval(spender: Addr, expires: Expiration)

  /** The base library's token record, with the pass extension. */
  datatype TokenInfo = TokenInfo(
    owner: Addr,
    approvals: seq<TokenApproval>,
    tokenUri: Option<string>,
    extension: PassExtension)
}
