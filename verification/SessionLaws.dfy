// What holds in every run of a broker session.
module SessionLaws {
  import opened Prelude
  import opened MarketTypes
  import opened SyncCaching
  import opened BrokerSession

  datatype SessionOp =
    | AuthenticateOp(reply: Option<Token>, now: Time)
    | RenewOp(reply: Option<Token>, now: Time)
    | RefreshOp(renewal: Option<Token>, listed: Option<seq<Account>>, now: Time)
    | SelectOp(routing: Routing, selector: Selector, renewal: Option<Token>, listed: Option<seq<Account>>, now: Time)
    | ConnectOp(again: bool, renewal: Option<Token>, opens: bool, sync: Option<SyncSnapshot>, now: Time)
    | PollOp(poll: PollReply)
    | DisconnectOp(closed: bool)
    | AcknowledgeOp(decision: Decision)

  function Attempt(s: Session, config: SessionConfig, op: SessionOp): (Session, Option<SessionError>)
    requires op.ConnectOp?
  {
    if op.again then Reconnect(s, config, op.renewal, op.opens, op.sync, op.now)
    else Connect(s, config, op.renewal, op.opens, op.sync, op.now)
  }

  function SessionStep(s: Session, config: SessionConfig, op: SessionOp): Session {
    match op
    case AuthenticateOp(reply, now) => Authenticate(s, reply, now).0
    case RenewOp(reply, now) => Renew(s, config, reply, now).0
    case RefreshOp(renewal, listed, now) => RefreshAccounts(s, config, renewal, listed, now).0
    case SelectOp(routing, selector, renewal, listed, now) =>
      SelectAccount(s, config, routing, selector, renewal, listed, now).0
    case ConnectOp(_, _, _, _, _) => Attempt(s, config, op).0
    case PollOp(reply) => Poll(s, reply)
    case DisconnectOp(closed) => Disconnect(s, closed)
    case AcknowledgeOp(decision) => Acknowledge(s, decision)
  }

  function SessionRun(config: SessionConfig, ops: seq<SessionOp>): Session {
    if ops == [] then NEW_SESSION
    else SessionStep(SessionRun(config, ops[..|ops| - 1]), config, ops[|ops| - 1])
  }

  // ----- what a run has seen

  /** The snapshot an operation hands to the session, if it gets that far. */
  function Delivered(s: Session, config: SessionConfig, op: SessionOp): Option<SyncSnapshot> {
    match op
    case ConnectOp(_, _, _, reply, _) => if Attempt(s, config, op).1.None? then reply else None
    case PollOp(Polled(SnapshotEvent(snapshot))) => Some(snapshot)
    case _ => None
  }

  function LatestSnapshot(config: SessionConfig, ops: seq<SessionOp>): Option<SyncSnapshot> {
    if ops == [] then None
    else
      var before := ops[..|ops| - 1];
      Delivered(SessionRun(config, before), config, ops[|ops| - 1]).Or(LatestSnapshot(config, before))
  }

  predicate IsDisconnectedEvent(op: SessionOp) {
    op.PollOp? && op.poll.Polled? && op.poll.event.DisconnectedEvent?
  }

  predicate SawDisconnect(ops: seq<SessionOp>) {
    exists i :: 0 <= i < |ops| && IsDisconnectedEvent(ops[i])
  }

  lemma SawDisconnectSnoc(ops: seq<SessionOp>)
    requires ops != []
    ensures SawDisconnect(ops) <==> SawDisconnect(ops[..|ops| - 1]) || IsDisconnectedEvent(ops[|ops| - 1])
  {
    var before := ops[..|ops| - 1];
    if i :| 0 <= i < |before| && IsDisconnectedEvent(before[i]) {
      assert ops[i] == before[i];
    }
    if i :| 0 <= i < |ops| && IsDisconnectedEvent(ops[i]) {
      if i < |before| {
        assert ops[i] == before[i];
      }
    }
  }

  // ----- the invariant

  /** The state shows the latest snapshot, and its sync state and review reason fit it. */
  ghost predicate SessionInv(s: Session, config: SessionConfig, latest: Option<SyncSnapshot>, disconnected: bool) {
    && (s.reconnectCount > 0 <==> disconnected)
    && (s.lastSyncAt.Some? <==> latest.Some?)
    && (latest.Some? ==>
          && s.lastSyncAt == Some(latest.value.occurredAt) && s.lastHeartbeatAt.Some?
          && s.positions == latest.value.positions && s.workingOrders == latest.value.workingOrders
          && s.fills == latest.value.fills && s.account == latest.value.account)
    && (s.sync == Synchronized ==> s.reviewReason.None? && latest.Some? && latest.value.mismatch.None?)
    && (s.sync == ReviewRequired ==>
          && latest.Some? && latest.value.mismatch.None? && HasOpenExposure(latest.value)
          && s.reviewReason in {Some(ExistingAtStartup), Some(ExistingAfterReconnect)})
    && (s.sync == Mismatch ==> s.reviewReason.Some? && s.reviewReason.value.MismatchReported?)
    && (s.sync in {Synchronized, ReviewRequired, Mismatch} ==> s.connection in {Connected, Reconnecting})
    && (s.connection == ConnectionFailed ==> s.sync == SyncFailed)
    && s.sync != Stale
    && (s.selected.Some? ==> RouteAllowed(config.environment, s.selected.value.routing)
                             && s.selected.value.environment == config.environment)
  }

  lemma RenewKeepsInv(s: Session, config: SessionConfig, latest: Option<SyncSnapshot>, disconnected: bool,
                      reply: Option<Token>, now: Time)
    requires SessionInv(s, config, latest, disconnected)
    ensures SessionInv(Renew(s, config, reply, now).0, config, latest, disconnected)
    ensures Renew(s, config, reply, now).0.reconnectCount == s.reconnectCount
    ensures Renew(s, config, reply, now).0.lastSyncAt == s.lastSyncAt
  {
    hide HasOpenExposure, RouteAllowed;
  }

  lemma SnapshotKeepsInv(s: Session, config: SessionConfig, snapshot: SyncSnapshot, review: bool,
                         latest: Option<SyncSnapshot>, disconnected: bool)
    requires SessionInv(s, config, latest, disconnected) && s.connection == Connected
    ensures SessionInv(ApplySnapshot(s, snapshot, review), config, Some(snapshot), disconnected)
  {
    hide HasOpenExposure, RouteAllowed;
  }

  /** Connecting to a snapshot is taking it over as a connected session, with review unless all is known. */
  lemma AttemptFacts(s: Session, config: SessionConfig, op: SessionOp)
    requires op.ConnectOp?
    ensures var started := if op.again then s.(connection := Reconnecting) else s;
      var renewed := Renew(started, config, op.renewal, op.now).0;
      && (Attempt(s, config, op).1.None? ==>
            op.sync.Some? && Attempt(s, config, op).0 ==
              ApplySnapshot(renewed.(connection := Connected, lastDisconnectReason := None), op.sync.value,
                            s.lastSyncAt.None? || s.reconnectCount > 0))
      && (Attempt(s, config, op).1.Some? ==>
            Attempt(s, config, op).0 == renewed || Attempt(s, config, op).0 == Failed(renewed))
  {
    hide ApplySnapshot, ParseI64;
  }

  lemma AttemptKeepsInv(s: Session, config: SessionConfig, latest: Option<SyncSnapshot>, disconnected: bool,
                        op: SessionOp)
    requires SessionInv(s, config, latest, disconnected) && op.ConnectOp?
    ensures SessionInv(Attempt(s, config, op).0, config, Delivered(s, config, op).Or(latest), disconnected)
  {
    hide HasOpenExposure, RouteAllowed, ApplySnapshot, Renew, Attempt;
    AttemptFacts(s, config, op);
    if Attempt(s, config, op).1.None? {
      var started := if op.again then s.(connection := Reconnecting) else s;
      WhileReconnecting(s, config, latest, disconnected);
      RenewKeepsInv(started, config, latest, disconnected, op.renewal, op.now);
      var renewed := Renew(started, config, op.renewal, op.now).0;
      ConnectedKeepsRest(renewed, config, latest, disconnected, op.sync.value,
                         s.lastSyncAt.None? || s.reconnectCount > 0);
    } else {
      WhileReconnecting(s, config, latest, disconnected);
      var marked := if op.again then s.(connection := Reconnecting) else s;
      RenewKeepsInv(marked, config, latest, disconnected, op.renewal, op.now);
    }
  }

  /** A reconnect attempt first only marks the connection. */
  lemma WhileReconnecting(s: Session, config: SessionConfig, latest: Option<SyncSnapshot>, disconnected: bool)
    requires SessionInv(s, config, latest, disconnected)
    ensures SessionInv(s.(connection := Reconnecting), config, latest, disconnected)
  {
    hide HasOpenExposure, RouteAllowed;
  }

  lemma ConnectedKeepsRest(s: Session, config: SessionConfig, latest: Option<SyncSnapshot>, disconnected: bool,
                           snapshot: SyncSnapshot, review: bool)
    requires SessionInv(s, config, latest, disconnected)
    ensures SessionInv(ApplySnapshot(s.(connection := Connected, lastDisconnectReason := None), snapshot, review),
                       config, Some(snapshot), disconnected)
  {
    hide HasOpenExposure, RouteAllowed, ApplySnapshot;
    SnapshotKeepsInv(s.(connection := Connected, lastDisconnectReason := None), config, snapshot, review, latest,
                     disconnected);
  }

  lemma SelectKeepsInv(s: Session, config: SessionConfig, latest: Option<SyncSnapshot>, disconnected: bool,
                       op: SessionOp)
    requires SessionInv(s, config, latest, disconnected) && (op.SelectOp? || op.RefreshOp?)
    ensures SessionInv(SessionStep(s, config, op), config, latest, disconnected)
  {
    hide HasOpenExposure, PickAccount, Renew;
    RenewKeepsInv(s, config, latest, disconnected, op.renewal, op.now);
    hide RouteAllowed;
  }

  lemma PollKeepsInv(s: Session, config: SessionConfig, latest: Option<SyncSnapshot>, disconnected: bool, op: SessionOp)
    requires SessionInv(s, config, latest, disconnected) && op.PollOp?
    ensures SessionInv(Poll(s, op.poll), config, Delivered(s, config, op).Or(latest),
                       disconnected || IsDisconnectedEvent(op))
  {
    hide HasOpenExposure, RouteAllowed, ApplySnapshot;
    if op.poll.Polled? && op.poll.event.SnapshotEvent? {
      var connected := s.(connection := Connected);
      ConnectedInv(s, config, latest, disconnected);
      hide SessionInv;
      SnapshotKeepsInv(connected, config, op.poll.event.snapshot, false, latest, disconnected);
    }
  }

  lemma ConnectedInv(s: Session, config: SessionConfig, latest: Option<SyncSnapshot>, disconnected: bool)
    requires SessionInv(s, config, latest, disconnected)
    ensures SessionInv(s.(connection := Connected), config, latest, disconnected)
  {
    hide HasOpenExposure, RouteAllowed;
  }

  lemma StepKeepsInv(s: Session, config: SessionConfig, latest: Option<SyncSnapshot>, disconnected: bool, op: SessionOp)
    requires SessionInv(s, config, latest, disconnected)
    ensures SessionInv(SessionStep(s, config, op), config, Delivered(s, config, op).Or(latest),
                       disconnected || IsDisconnectedEvent(op))
  {
    hide HasOpenExposure, RouteAllowed, ApplySnapshot, Renew, Attempt, RefreshAccounts, SelectAccount, Poll;
    match op
    case ConnectOp(_, _, _, _, _) => AttemptKeepsInv(s, config, latest, disconnected, op);
    case SelectOp(_, _, _, _, _) => SelectKeepsInv(s, config, latest, disconnected, op);
    case RefreshOp(_, _, _) => SelectKeepsInv(s, config, latest, disconnected, op);
    case RenewOp(reply, now) => RenewKeepsInv(s, config, latest, disconnected, reply, now);
    case PollOp(_) => PollKeepsInv(s, config, latest, disconnected, op);
    case _ =>
  }

  lemma {:induction false} RunKeepsInv(config: SessionConfig, ops: seq<SessionOp>)
    ensures SessionInv(SessionRun(config, ops), config, LatestSnapshot(config, ops), SawDisconnect(ops))
  {
    hide SessionInv, SessionStep, Delivered, IsDisconnectedEvent, SawDisconnect;
    if ops == [] {
      FreshInv(config);
    } else {
      var n := |ops| - 1;
      RunKeepsInv(config, ops[..n]);
      StepKeepsInv(SessionRun(config, ops[..n]), config, LatestSnapshot(config, ops[..n]), SawDisconnect(ops[..n]),
                   ops[n]);
      SawDisconnectSnoc(ops);
    }
  }

  lemma FreshInv(config: SessionConfig)
    ensures SessionInv(NEW_SESSION, config, None, SawDisconnect([]))
  {
  }

  // ----- main results

  /**
   * A synchronized session is clean in every run: it shows exactly the latest snapshot, that snapshot reported no
   * mismatch, and no review is pending. A session under review shows exposure and says why.
   */
  lemma SynchronizedIsClean(config: SessionConfig, ops: seq<SessionOp>)
    ensures var s, latest := SessionRun(config, ops), LatestSnapshot(config, ops);
      && (s.sync == Synchronized ==>
            && latest.Some? && latest.value.mismatch.None? && s.reviewReason.None?
            && s.positions == latest.value.positions && s.workingOrders == latest.value.workingOrders
            && s.fills == latest.value.fills && s.lastSyncAt == Some(latest.value.occurredAt))
      && (s.sync == ReviewRequired ==>
            && latest.Some? && HasOpenExposure(latest.value) && latest.value.mismatch.None? && s.reviewReason.Some?)
  {
    hide SessionRun, LatestSnapshot, HasOpenExposure, RouteAllowed, SawDisconnect;
    RunKeepsInv(config, ops);
  }

  /** Healthy means: connected, in sync with a clean snapshot, and both sync and heartbeat recent enough. */
  lemma HealthyMeans(config: SessionConfig, ops: seq<SessionOp>, now: Time)
    ensures var s, latest := SessionRun(config, ops), LatestSnapshot(config, ops);
      BrokerHealth(s, config, now) == Healthy <==>
        && s.connection == Connected && s.sync == Synchronized && s.reviewReason.None?
        && latest.Some? && latest.value.mismatch.None?
        && s.lastSyncAt.Some? && now - s.lastSyncAt.value <= config.syncStaleAfter
        && s.lastHeartbeatAt.Some? && now - s.lastHeartbeatAt.value <= config.heartbeatStaleAfter
  {
    hide SessionRun, LatestSnapshot, HasOpenExposure, RouteAllowed, SawDisconnect;
    RunKeepsInv(config, ops);
  }

  /** In every run, failed health is failed sync, whatever the connection went through since. */
  lemma FailedMeans(config: SessionConfig, ops: seq<SessionOp>, now: Time)
    ensures BrokerHealth(SessionRun(config, ops), config, now) == HealthFailed
       <==> SessionRun(config, ops).sync == SyncFailed
  {
    hide SessionRun, LatestSnapshot, HasOpenExposure, RouteAllowed, SawDisconnect;
    RunKeepsInv(config, ops);
  }

  /** Whether a connect would ask for a review of existing exposure. */
  predicate ReviewsExisting(config: SessionConfig, ops: seq<SessionOp>) {
    LatestSnapshot(config, ops).None? || SawDisconnect(ops)
  }

  /**
   * What a successful connect or reconnect ends in. Existing exposure must be reviewed exactly if this is the
   * first sync ever or any disconnect has been seen, however long ago and whatever was acknowledged since.
   */
  lemma ConnectDecides(config: SessionConfig, ops: seq<SessionOp>, op: SessionOp)
    requires op.ConnectOp? && Delivered(SessionRun(config, ops), config, op).Some?
    ensures var after, snapshot := SessionStep(SessionRun(config, ops), config, op), op.sync.value;
      && after.connection == Connected
      && (after.sync == Mismatch <==> snapshot.mismatch.Some?)
      && (after.sync == ReviewRequired <==>
            snapshot.mismatch.None? && HasOpenExposure(snapshot) && ReviewsExisting(config, ops))
      && (after.sync == Synchronized <==>
            snapshot.mismatch.None? && !(HasOpenExposure(snapshot) && ReviewsExisting(config, ops)))
      && (after.sync == ReviewRequired && SawDisconnect(ops) ==> after.reviewReason == Some(ExistingAfterReconnect))
  {
    hide SessionRun, LatestSnapshot, HasOpenExposure, RouteAllowed, SawDisconnect, Renew, Attempt;
    RunKeepsInv(config, ops);
    var s := SessionRun(config, ops);
    AttemptFacts(s, config, op);
    WhileReconnecting(s, config, LatestSnapshot(config, ops), SawDisconnect(ops));
    RenewKeepsInv(if op.again then s.(connection := Reconnecting) else s, config, LatestSnapshot(config, ops),
                  SawDisconnect(ops), op.renewal, op.now);
  }

  /**
   * The ways into a synchronized state. A session that was not synchronized becomes so exactly by acknowledging a
   * review, by a polled snapshot without mismatch, or by a connect that does not ask for a review. An
   * acknowledgement alone never clears a mismatch, and a review can end without any acknowledgement.
   */
  lemma WaysToSynchronize(config: SessionConfig, ops: seq<SessionOp>, op: SessionOp)
    requires SessionRun(config, ops).sync != Synchronized
    ensures var s := SessionRun(config, ops);
      var delivered := Delivered(s, config, op);
      SessionStep(s, config, op).sync == Synchronized <==>
        || (op.AcknowledgeOp? && s.sync == ReviewRequired)
        || (delivered.Some? && delivered.value.mismatch.None? &&
            (op.PollOp? || !(HasOpenExposure(delivered.value) && ReviewsExisting(config, ops))))
  {
    hide SessionRun, HasOpenExposure, RouteAllowed, Renew, ReviewsExisting, PickAccount;
    if op.ConnectOp? {
      if Delivered(SessionRun(config, ops), config, op).Some? {
        ConnectDecides(config, ops, op);
      } else {
        AttemptFacts(SessionRun(config, ops), config, op);
        RenewKeepsSync(SessionRun(config, ops), config, op.renewal, op.now);
        RenewKeepsSync(SessionRun(config, ops).(connection := Reconnecting), config, op.renewal, op.now);
      }
    } else if op.RenewOp? {
      RenewKeepsSync(SessionRun(config, ops), config, op.reply, op.now);
    } else if op.RefreshOp? || op.SelectOp? {
      RenewKeepsSync(SessionRun(config, ops), config, op.renewal, op.now);
    }
  }

  lemma RenewKeepsSync(s: Session, config: SessionConfig, reply: Option<Token>, now: Time)
    ensures Renew(s, config, reply, now).0.sync in {s.sync, SyncFailed}
  {
  }

  /**
   * A review that ends by itself: after connecting to existing exposure at startup, the next entity update the live
   * client passes on makes the session synchronized, with the exposure still there and nothing acknowledged.
   */
  lemma UpdateEndsReview(config: SessionConfig, ops: seq<SessionOp>, cache: CacheState, event: PropsEvent, now: Time)
    requires SessionRun(config, ops).sync == ReviewRequired && !event.OtherProps?
    ensures var snapshot := SnapshotOf(Apply(cache, event, now), now);
      var after := SessionStep(SessionRun(config, ops), config, PollOp(Polled(SnapshotEvent(snapshot))));
      && after.sync == Synchronized && after.reviewReason.None?
      && after.lastDecision == SessionRun(config, ops).lastDecision
  {
    hide SessionRun, HasOpenExposure, Apply;
  }

  /** The account in use always fits the environment. */
  lemma SelectionIsRouted(config: SessionConfig, ops: seq<SessionOp>)
    ensures var s := SessionRun(config, ops);
      s.selected.Some? ==> RouteAllowed(config.environment, s.selected.value.routing)
  {
    hide SessionRun, LatestSnapshot, HasOpenExposure, RouteAllowed, SawDisconnect;
    RunKeepsInv(config, ops);
  }

  /** Choosing an account picks an active one that matches, and connecting can use its id. */
  lemma SelectionIsUsable(s: Session, config: SessionConfig, routing: Routing, selector: Selector, now: Time)
    requires s.accounts != [] && RouteAllowed(config.environment, routing)
    requires forall a :: a in s.accounts ==> -0x8000_0000_0000_0000 <= a.accountId <= 0x7FFF_FFFF_FFFF_FFFF
    ensures var (after, error) := SelectAccount(s, config, routing, selector, None, None, now);
      && (error.None? <==> exists a :: PickAccount(s.accounts, selector) == Ok(a))
      && (error.None? ==>
            && ConnectRefusal(after).None?
            && exists a :: a in s.accounts && a.active && Matches(a, selector)
                           && ParseI64(after.selected.value.accountId) == Some(a.accountId))
  {
    hide ParseI64, IntString, Matches, ActiveAccounts, FirstMatch;
    if PickAccount(s.accounts, selector).Ok? {
      ParsePrintedI64(PickAccount(s.accounts, selector).value.accountId);
    }
  }
}
