// The Tradovate session: authentication, account selection, user sync and its states.
module BrokerSession {
  import opened Prelude
  import opened MarketTypes
  import opened BrokerTypes
  import opened SyncCaching

  datatype Environment = DemoEnvironment | LiveEnvironment | CustomEnvironment

  datatype Routing = PaperRouting | LiveRouting

  datatype ConnectionState =
    | Disconnected | Authenticating | Authenticated | Connecting | Connected | Reconnecting | ConnectionFailed

  datatype SyncState =
    | SyncDisconnected | SyncPending | Synchronized | Stale | Mismatch | ReviewRequired | SyncFailed

  datatype Health = Initializing | Healthy | Degraded | HealthDisconnected | HealthFailed

  datatype ReviewReason = MismatchReported(detail: string) | ExistingAtStartup | ExistingAfterReconnect

  datatype Decision = ClosePosition | LeaveBrokerProtected | ReattachBotManagement

  datatype SessionConfig = SessionConfig(
    environment: Environment,
    renewBeforeExpiry: int,
    heartbeatStaleAfter: int,
    syncStaleAfter: int)

  datatype Token = Token(expiresAt: Time)

  datatype Account = Account(accountId: int, accountName: string, active: bool)

  datatype Selector = Auto | ById(accountId: int) | ByName(accountName: string)

  datatype Selection = Selection(accountId: string, accountName: string, routing: Routing, environment: Environment)

  datatype SessionError =
    | NoAccessToken
    | NoSelectedAccount
    | NoAccountsAvailable
    | AccountSelectionRequired
    | AccountNotFound
    | EnvironmentRouteMismatch
    | AuthTransport
    | AccountTransport
    | SyncTransport

  datatype SyncEvent =
    | Heartbeat(occurredAt: Time)
    | SnapshotEvent(snapshot: SyncSnapshot)
    | MismatchEvent(detail: string)
    | DisconnectedEvent(reason: string)
    | ReconnectedEvent

  datatype Session = Session(
    connection: ConnectionState,
    sync: SyncState,
    token: Option<Token>,
    accounts: seq<Account>,
    selected: Option<Selection>,
    reconnectCount: u64,
    lastAuthenticatedAt: Option<Time>,
    lastHeartbeatAt: Option<Time>,
    lastSyncAt: Option<Time>,
    lastDisconnectReason: Option<string>,
    reviewReason: Option<ReviewReason>,
    lastDecision: Option<Decision>,
    positions: seq<BrokerPosition>,
    workingOrders: seq<BrokerOrder>,
    fills: seq<BrokerFill>,
    account: Option<BrokerAccount>)

  const NEW_SESSION := Session(Disconnected, SyncDisconnected, None, [], None, 0, None, None, None, None, None, None,
                               [], [], [], None)

  // ----- choosing an account

  predicate RouteAllowed(environment: Environment, routing: Routing) {
    match environment
    case DemoEnvironment => routing == PaperRouting
    case LiveEnvironment => routing == LiveRouting
    case CustomEnvironment => true
  }

  predicate Matches(account: Account, selector: Selector) {
    match selector
    case Auto => true
    case ById(id) => account.accountId == id
    case ByName(name) => SameSymbol(Trim(account.accountName), Trim(name))
  }

  function ActiveAccounts(accounts: seq<Account>): (r: seq<Account>)
    ensures forall a :: a in r <==> a in accounts && a.active
  {
    if accounts == [] then []
    else
      var rest := ActiveAccounts(accounts[..|accounts| - 1]);
      var last := accounts[|accounts| - 1];
      if last.active then rest + [last] else rest
  }

  /** Account `i` of the list is active and no other one is. */
  ghost predicate OnlyActive(accounts: seq<Account>, i: int) {
    0 <= i < |accounts| && accounts[i].active && forall j :: 0 <= j < |accounts| && accounts[j].active ==> j == i
  }

  lemma {:induction false} OneActive(accounts: seq<Account>)
    ensures |ActiveAccounts(accounts)| == 1 <==> exists i :: OnlyActive(accounts, i)
    ensures ActiveAccounts(accounts) == [] <==> forall a :: a in accounts ==> !a.active
  {
    if accounts != [] {
      var n := |accounts| - 1;
      var rest, last := accounts[..n], accounts[n];
      OneActive(rest);
      assert accounts == rest + [last];
      if i :| OnlyActive(rest, i) {
        assert accounts[i] == rest[i];
        if last.active {
          assert accounts[i].active && accounts[n].active;
        } else {
          assert OnlyActive(accounts, i);
        }
      }
      if i :| OnlyActive(accounts, i) {
        if i < n {
          assert OnlyActive(rest, i);
        } else {
          forall a | a in rest ensures !a.active {
            var j :| 0 <= j < n && rest[j] == a;
            assert accounts[j] == a;
          }
        }
      }
      if last.active && ActiveAccounts(rest) == [] {
        assert forall j :: 0 <= j < n ==> accounts[j] == rest[j] && rest[j] in rest;
        assert OnlyActive(accounts, n);
      }
    }
  }

  function FirstMatch(accounts: seq<Account>, selector: Selector): (r: Option<Account>)
    ensures r.Some? ==> r.value in accounts && Matches(r.value, selector)
    ensures r.None? ==> forall a :: a in accounts ==> !Matches(a, selector)
  {
    if accounts == [] then None
    else if Matches(accounts[0], selector) then Some(accounts[0])
    else FirstMatch(accounts[1..], selector)
  }

  /** The account a selector stands for: never an inactive one, and no guessing between several. */
  function PickAccount(accounts: seq<Account>, selector: Selector): (r: Result<Account, SessionError>)
    ensures r.Ok? ==> r.value in accounts && r.value.active && Matches(r.value, selector)
    ensures !selector.Auto? ==> (r.Ok? <==> exists a :: a in accounts && a.active && Matches(a, selector))
    ensures selector.Auto? ==> (r.Ok? <==> exists i :: OnlyActive(accounts, i))
    ensures r == Err(NoAccountsAvailable) <==> forall a :: a in accounts ==> !a.active
  {
    var active := ActiveAccounts(accounts);
    OneActive(accounts);
    assert active != [] ==> active[0] in active;
    if active == [] then Err(NoAccountsAvailable)
    else if selector.Auto? then if |active| == 1 then Ok(active[0]) else Err(AccountSelectionRequired)
    else
      match FirstMatch(active, selector)
      case Some(a) => Ok(a)
      case None => Err(AccountNotFound)
  }

  // ----- transitions

  function Failed(s: Session): Session {
    s.(connection := ConnectionFailed, sync := SyncFailed)
  }

  function Authenticate(s: Session, reply: Option<Token>, now: Time): (Session, Option<SessionError>) {
    match reply
    case Some(token) =>
      (s.(token := reply, lastAuthenticatedAt := Some(now), connection := Authenticated, sync := SyncPending,
          lastDisconnectReason := None), None)
    case None => (Failed(s), Some(AuthTransport))
  }

  /** Renews the token if it is about to expire; every broker request starts with this. */
  function Renew(s: Session, config: SessionConfig, reply: Option<Token>, now: Time): (Session, Option<SessionError>) {
    if s.token.None? then (s, Some(NoAccessToken))
    else if s.token.value.expiresAt - now > config.renewBeforeExpiry then (s, None)
    else
      match reply
      case Some(token) => (s.(token := reply, lastAuthenticatedAt := Some(now)), None)
      case None => (Failed(s), Some(AuthTransport))
  }

  function RefreshAccounts(s: Session, config: SessionConfig, renewal: Option<Token>, listed: Option<seq<Account>>,
                           now: Time)
    : (Session, Option<SessionError>)
  {
    var (renewed, error) := Renew(s, config, renewal, now);
    if error.Some? then (renewed, error)
    else
      match listed
      case Some(accounts) => (renewed.(accounts := accounts), None)
      case None => (renewed.(sync := SyncFailed), Some(AccountTransport))
  }

  function SelectAccount(s: Session, config: SessionConfig, routing: Routing, selector: Selector,
                         renewal: Option<Token>, listed: Option<seq<Account>>, now: Time)
    : (Session, Option<SessionError>)
  {
    if !RouteAllowed(config.environment, routing) then (s, Some(EnvironmentRouteMismatch))
    else
      var (refreshed, error) :=
        if s.accounts == [] then RefreshAccounts(s, config, renewal, listed, now) else (s, None);
      if error.Some? then (refreshed, error)
      else
        match PickAccount(refreshed.accounts, selector)
        case Err(e) => (refreshed, Some(e))
        case Ok(a) =>
          (refreshed.(selected := Some(Selection(IntString(a.accountId), a.accountName, routing, config.environment))),
           None)
  }

  /** Taking over a snapshot: a mismatch, existing exposure to review, or in sync. */
  function ApplySnapshot(s: Session, snapshot: SyncSnapshot, reviewExisting: bool): Session {
    var loaded := s.(lastHeartbeatAt := Some(snapshot.occurredAt), lastSyncAt := Some(snapshot.occurredAt),
                     positions := snapshot.positions, workingOrders := snapshot.workingOrders, fills := snapshot.fills,
                     account := snapshot.account);
    match snapshot.mismatch
    case Some(detail) => loaded.(sync := Mismatch, reviewReason := Some(MismatchReported(detail)))
    case None =>
      if reviewExisting && HasOpenExposure(snapshot) then
        var reason := if s.reconnectCount > 0 then ExistingAfterReconnect else ExistingAtStartup;
        loaded.(sync := ReviewRequired, reviewReason := Some(reason))
      else loaded.(sync := Synchronized, reviewReason := None)
  }

  /** Why a connect does not even get to the transport. */
  function ConnectRefusal(s: Session): Option<SessionError> {
    if s.selected.None? || ParseI64(s.selected.value.accountId).None? then Some(NoSelectedAccount) else None
  }

  /** `socketOpen` tells whether the socket opened, `reply` is the answer to the sync request. */
  function Connect(s: Session, config: SessionConfig, renewal: Option<Token>, socketOpen: bool,
                   reply: Option<SyncSnapshot>,
                   now: Time): (Session, Option<SessionError>)
  {
    var (renewed, error) := Renew(s, config, renewal, now);
    if error.Some? then (renewed, error)
    else if ConnectRefusal(renewed).Some? then (renewed, ConnectRefusal(renewed))
    else if !socketOpen || reply.None? then (Failed(renewed), Some(SyncTransport))
    else
      var connected := renewed.(connection := Connected, lastDisconnectReason := None);
      (ApplySnapshot(connected, reply.value, renewed.lastSyncAt.None? || renewed.reconnectCount > 0), None)
  }

  function Reconnect(s: Session, config: SessionConfig, renewal: Option<Token>, socketOpen: bool,
                     reply: Option<SyncSnapshot>,
                     now: Time): (Session, Option<SessionError>)
  {
    Connect(s.(connection := Reconnecting), config, renewal, socketOpen, reply, now)
  }

  /** The transport's answer to a poll: a failure, nothing, or an event. */
  datatype PollReply = PollFailed | NoEvent | Polled(event: SyncEvent)

  function Poll(s: Session, reply: PollReply): Session {
    match reply
    case PollFailed => Failed(s)
    case NoEvent => s
    case Polled(Heartbeat(at)) => s.(lastHeartbeatAt := Some(at))
    case Polled(SnapshotEvent(snapshot)) => ApplySnapshot(s.(connection := Connected), snapshot, false)
    case Polled(MismatchEvent(detail)) =>
      s.(connection := Connected, sync := Mismatch, reviewReason := Some(MismatchReported(detail)))
    case Polled(DisconnectedEvent(reason)) =>
      s.(connection := Reconnecting, sync := SyncDisconnected, lastDisconnectReason := Some(reason),
         reconnectCount := SaturatingAdd(s.reconnectCount, 1))
    case Polled(ReconnectedEvent) => s.(connection := Connected, sync := SyncPending)
  }

  function Disconnect(s: Session, closed: bool): Session {
    if closed then s.(connection := Disconnected, sync := SyncDisconnected) else Failed(s)
  }

  function Acknowledge(s: Session, decision: Decision): Session {
    var decided := s.(lastDecision := Some(decision));
    if s.sync == ReviewRequired then decided.(sync := Synchronized, reviewReason := None) else decided
  }

  // ----- status

  predicate Older(at: Option<Time>, now: Time, limit: int) {
    at.Some? && now - at.value > limit
  }

  predicate IsStale(s: Session, config: SessionConfig, now: Time) {
    Older(s.lastHeartbeatAt, now, config.heartbeatStaleAfter) || Older(s.lastSyncAt, now, config.syncStaleAfter)
  }

  function EffectiveSync(s: Session, config: SessionConfig, now: Time): SyncState {
    if s.sync == Synchronized && IsStale(s, config, now) then Stale
    else if s.sync == SyncPending && s.connection == Connected && IsStale(s, config, now) then Stale
    else s.sync
  }

  function HealthFor(connection: ConnectionState, sync: SyncState): Health {
    if sync == SyncFailed then HealthFailed
    else if sync == SyncDisconnected && connection != Reconnecting then HealthDisconnected
    else
      match connection
      case ConnectionFailed => HealthFailed
      case Disconnected => HealthDisconnected
      case Authenticating => Initializing
      case Authenticated => Initializing
      case Connecting => Initializing
      case Reconnecting => Degraded
      case Connected =>
        match sync
        case Synchronized => Healthy
        case SyncPending => Initializing
        case Stale => Degraded
        case Mismatch => Degraded
        case ReviewRequired => Degraded
        case SyncDisconnected => HealthDisconnected
        case SyncFailed => HealthFailed
  }

  function BrokerHealth(s: Session, config: SessionConfig, now: Time): Health {
    HealthFor(s.connection, EffectiveSync(s, config, now))
  }

  // ----- the session manager

  class TradovateSessionManager {
    const config: SessionConfig
    var state: Session

    constructor (config: SessionConfig)
      ensures this.config == config && state == NEW_SESSION
    {
      this.config := config;
      state := NEW_SESSION;
    }

    method MarkFailed()
      modifies this`state
      ensures state == Failed(old(state))
    {
      state := state.(connection := ConnectionFailed);
      state := state.(sync := SyncFailed);
    }

    method RequestToken(reply: Option<Token>, now: Time) returns (error: Option<SessionError>)
      modifies this`state
      ensures (state, error) == Authenticate(old(state), reply, now)
    {
      state := state.(connection := Authenticating, sync := SyncPending);
      if reply.None? {
        MarkFailed();
        return Some(AuthTransport);
      }
      state := state.(token := reply, lastAuthenticatedAt := Some(now));
      state := state.(connection := Authenticated, sync := SyncPending, lastDisconnectReason := None);
      error := None;
    }

    method RenewAccessTokenIfNeeded(reply: Option<Token>, now: Time) returns (error: Option<SessionError>)
      modifies this`state
      ensures (state, error) == Renew(old(state), config, reply, now)
    {
      if state.token.None? {
        return Some(NoAccessToken);
      }
      if state.token.value.expiresAt - now > config.renewBeforeExpiry {
        return None;
      }
      if reply.None? {
        MarkFailed();
        return Some(AuthTransport);
      }
      state := state.(token := reply, lastAuthenticatedAt := Some(now));
      error := None;
    }

    method RefreshAccountList(renewal: Option<Token>, listed: Option<seq<Account>>, now: Time)
      returns (error: Option<SessionError>)
      modifies this`state
      ensures (state, error) == RefreshAccounts(old(state), config, renewal, listed, now)
    {
      error := RenewAccessTokenIfNeeded(renewal, now);
      if error.Some? {
        return;
      }
      if listed.None? {
        state := state.(sync := SyncFailed);
        return Some(AccountTransport);
      }
      state := state.(accounts := listed.value);
    }

    method ChooseAccount(routing: Routing, selector: Selector, renewal: Option<Token>, listed: Option<seq<Account>>,
                         now: Time) returns (error: Option<SessionError>)
      modifies this`state
      ensures (state, error) == SelectAccount(old(state), config, routing, selector, renewal, listed, now)
    {
      if !RouteAllowed(config.environment, routing) {
        return Some(EnvironmentRouteMismatch);
      }
      if state.accounts == [] {
        error := RefreshAccountList(renewal, listed, now);
        if error.Some? {
          return;
        }
      }
      match PickAccount(state.accounts, selector) {
        case Err(e) => return Some(e);
        case Ok(a) =>
          state := state.(selected := Some(Selection(IntString(a.accountId), a.accountName, routing,
                                                     config.environment)));
      }
      error := None;
    }

    method ApplySyncSnapshot(snapshot: SyncSnapshot, reviewExisting: bool)
      modifies this`state
      ensures state == ApplySnapshot(old(state), snapshot, reviewExisting)
    {
      state := state.(lastHeartbeatAt := Some(snapshot.occurredAt), lastSyncAt := Some(snapshot.occurredAt));
      state := state.(positions := snapshot.positions, workingOrders := snapshot.workingOrders);
      state := state.(fills := snapshot.fills, account := snapshot.account);
      if snapshot.mismatch.Some? {
        state := state.(sync := Mismatch, reviewReason := Some(MismatchReported(snapshot.mismatch.value)));
        return;
      }
      if reviewExisting && HasOpenExposure(snapshot) {
        var reason := if state.reconnectCount > 0 then ExistingAfterReconnect else ExistingAtStartup;
        state := state.(sync := ReviewRequired, reviewReason := Some(reason));
        return;
      }
      state := state.(sync := Synchronized, reviewReason := None);
    }

    method ConnectUserSync(renewal: Option<Token>, socketOpen: bool, reply: Option<SyncSnapshot>, now: Time)
      returns (error: Option<SessionError>)
      modifies this`state
      ensures (state, error) == Connect(old(state), config, renewal, socketOpen, reply, now)
    {
      hide ApplySnapshot, Renew;
      error := RenewAccessTokenIfNeeded(renewal, now);
      if error.Some? {
        return;
      }
      error := ConnectRefusal(state);
      if error.Some? {
        return;
      }
      state := state.(connection := Connecting, sync := SyncPending);
      if !socketOpen {
        MarkFailed();
        return Some(SyncTransport);
      }
      if reply.None? {
        MarkFailed();
        return Some(SyncTransport);
      }
      state := state.(connection := Connected, lastDisconnectReason := None);
      var reviewExisting := state.lastSyncAt.None? || state.reconnectCount > 0;
      SnapshotDecidesSync(state, reply.value, reviewExisting);
      ApplySyncSnapshot(reply.value, reviewExisting);
    }

    method ReconnectUserSync(renewal: Option<Token>, socketOpen: bool, reply: Option<SyncSnapshot>, now: Time)
      returns (error: Option<SessionError>)
      modifies this`state
      ensures (state, error) == Reconnect(old(state), config, renewal, socketOpen, reply, now)
    {
      state := state.(connection := Reconnecting);
      error := ConnectUserSync(renewal, socketOpen, reply, now);
    }

    method PollNextEvent(reply: PollReply)
      modifies this`state
      ensures state == Poll(old(state), reply)
    {
      hide ApplySnapshot;
      match reply {
        case PollFailed => MarkFailed();
        case NoEvent =>
        case Polled(event) =>
          match event {
            case Heartbeat(at) => state := state.(lastHeartbeatAt := Some(at));
            case SnapshotEvent(snapshot) =>
              state := state.(connection := Connected);
              ApplySyncSnapshot(snapshot, false);
            case MismatchEvent(detail) =>
              state := state.(connection := Connected);
              state := state.(sync := Mismatch);
              state := state.(reviewReason := Some(MismatchReported(detail)));
            case DisconnectedEvent(reason) =>
              state := state.(connection := Reconnecting);
              state := state.(sync := SyncDisconnected);
              state := state.(lastDisconnectReason := Some(reason));
              state := state.(reconnectCount := SaturatingAdd(state.reconnectCount, 1));
            case ReconnectedEvent =>
              state := state.(connection := Connected);
              state := state.(sync := SyncPending);
          }
      }
    }

    method DisconnectSync(closed: bool)
      modifies this`state
      ensures state == Disconnect(old(state), closed)
    {
      if !closed {
        MarkFailed();
        return;
      }
      state := state.(connection := Disconnected);
      state := state.(sync := SyncDisconnected);
    }

    method AcknowledgeReconnectReview(decision: Decision)
      modifies this`state
      ensures state == Acknowledge(old(state), decision)
    {
      state := state.(lastDecision := Some(decision));
      if state.sync == ReviewRequired {
        state := state.(sync := Synchronized, reviewReason := None);
      }
    }

    method Status(now: Time) returns (sync: SyncState, health: Health)
      ensures sync == EffectiveSync(state, config, now)
      ensures health == BrokerHealth(state, config, now)
    {
      sync := EffectiveSync(state, config, now);
      health := HealthFor(state.connection, sync);
    }
  }

  /** A snapshot decides the sync state whatever it was before. */
  lemma SnapshotDecidesSync(s: Session, snapshot: SyncSnapshot, reviewExisting: bool)
    ensures forall sync ::
      ApplySnapshot(s.(sync := sync), snapshot, reviewExisting) == ApplySnapshot(s, snapshot, reviewExisting)
  {
  }
}
