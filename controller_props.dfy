/**
  Properties of the controller model: the invariant every operation keeps,
  and the multi-step behaviour of the probe-and-retry supervisor.
*/
module ControllerProps {
  import opened Modes
  import opened VoiceMeeterSpec
  import opened ControllerSpec
  import opened Ints

  // ------------------------------------------------------------ invariant

  lemma InitialInv(cfg: Config, stripIndex: int, autoReconnect: bool)
    ensures Inv(cfg, World(InitialCtl(stripIndex, autoReconnect), InitialApi))
  {
  }

  lemma SetModeKeepsInv(cfg: Config, w: World, mode: OutputMode, e: Replies)
    requires Inv(cfg, w)
    ensures Inv(cfg, SetMode(w, mode, e).world)
  {
  }

  lemma SyncKeepsInv(cfg: Config, w: World, e: Replies)
    requires Inv(cfg, w)
    ensures Inv(cfg, Sync(w, e))
  {
  }

  lemma ConnectKeepsInv(cfg: Config, w: World, e: Replies)
    requires Inv(cfg, w)
    ensures Inv(cfg, Connect(w, e).world)
  {
  }

  lemma DisconnectKeepsInv(cfg: Config, w: World)
    requires Inv(cfg, w)
    ensures Inv(cfg, Disconnect(w))
  {
  }

  /**
    The probe keeps the invariant; with auto-reconnect on, a lost connection
    always starts a fresh retry episode.
  */
  lemma CheckConnectionStatusKeepsInv(cfg: Config, w: World, now: int, e: Replies)
    requires Inv(cfg, w)
    ensures Inv(cfg, CheckConnectionStatus(w, now, e))
    ensures var r := CheckConnectionStatus(w, now, e);
      w.ctl.connected && w.ctl.autoReconnect && !CheckConnection(w.api, e.typeQuery).out ==>
        r.ctl.reconnecting && r.ctl.attempts == 0 && r.ctl.lastAttempt == now
  {
  }

  /** A retry made while reconnecting keeps the invariant. */
  lemma TryReconnectKeepsInv(cfg: Config, w: World, e: Replies)
    requires Inv(cfg, w) && w.ctl.reconnecting
    ensures Inv(cfg, TryReconnect(cfg, w, e))
  {
    var counted := w.ctl.(attempts := w.ctl.attempts + 1);
    if !Exhausted(cfg, counted.attempts) {
      var login := Login(w.api, e.login);
      if login.out {
        var ctl := counted.(connected := true, reconnecting := false,
                            events := counted.events + [ConnectionChanged(true), Reconnected]);
        SetModeKeepsInv(cfg, World(ctl, login.next), ctl.mode, e);
      }
    }
  }

  lemma TickKeepsInv(cfg: Config, w: World, now: int, e: Replies)
    requires Inv(cfg, w)
    ensures Inv(cfg, Tick(cfg, w, now, e))
  {
    if w.ctl.autoReconnect {
      var probed :=
        if w.ctl.connected && Due(now, w.ctl.lastCheck, cfg.checkInterval)
        then CheckConnectionStatus(World(w.ctl.(lastCheck := now), w.api), now, e)
        else w;
      if w.ctl.connected && Due(now, w.ctl.lastCheck, cfg.checkInterval) {
        CheckConnectionStatusKeepsInv(cfg, World(w.ctl.(lastCheck := now), w.api), now, e);
      }
      if probed.ctl.reconnecting && Due(now, probed.ctl.lastAttempt, cfg.reconnectInterval) {
        TryReconnectKeepsInv(cfg, World(probed.ctl.(lastAttempt := now), probed.api), e);
      }
    }
  }

  lemma ForceReconnectKeepsInv(cfg: Config, w: World, e: Replies)
    requires Inv(cfg, w)
    ensures Inv(cfg, ForceReconnect(cfg, w, e))
  {
    var ctl := w.ctl.(connected := false, reconnecting := true, attempts := 0,
                      events := w.ctl.events + [Reconnecting]);
    TryReconnectKeepsInv(cfg, World(ctl, w.api), e);
  }

  /**
    Start on a freshly created component with the serialized defaults: a
    login and both writes that succeed leave it connected in mode A, with
    only the connection-changed event, since A is already the field's
    initial value.
  */
  lemma StartFromInitial(stripIndex: int, autoReconnect: bool, e: Replies)
    requires e.login == Returned(0) && WriteOk(e.writeA1) && WriteOk(e.writeA2)
    ensures var r := Start(DefaultConfig, World(InitialCtl(stripIndex, autoReconnect), InitialApi), e);
      && r.ctl.connected && r.ctl.mode == A_HeadphoneOnly
      && r.ctl.events == [ConnectionChanged(true)]
      && r.api.calls == [LoginCall, TypeCall] + ModeWrites(stripIndex, A_HeadphoneOnly)
  {
  }

  lemma StartKeepsInv(cfg: Config, w: World, e: Replies)
    requires Inv(cfg, w)
    ensures Inv(cfg, Start(cfg, w, e))
  {
    ConnectKeepsInv(cfg, w, e);
    SetModeKeepsInv(cfg, Connect(w, e).world, cfg.defaultMode, e);
  }

  lemma QuitKeepsInv(cfg: Config, w: World)
    requires Inv(cfg, w)
    ensures Inv(cfg, Quit(w))
  {
  }

  // ----------------------------------------------------- connect / disconnect

  /** A second Connect after a successful one returns true and issues no login call. */
  lemma ConnectIsIdempotent(w: World, e1: Replies, e2: Replies)
    requires Connect(w, e1).ok
    ensures Connect(Connect(w, e1).world, e2) == Outcome(Connect(w, e1).world, true)
  {
  }

  /** A second Disconnect changes nothing, and issues no logout call. */
  lemma DisconnectIsIdempotent(w: World)
    ensures Disconnect(Disconnect(w)) == Disconnect(w)
  {
  }

  // ----------------------------------------------------------------- modes

  /** Setting the same mode twice raises the mode-changed notification at most once. */
  lemma SetModeTwiceNotifiesOnce(w: World, m: OutputMode, e1: Replies, e2: Replies)
    requires SetMode(w, m, e1).ok
    ensures var w1 := SetMode(w, m, e1).world;
      && SetMode(w1, m, e2).world.ctl.events == w1.ctl.events
      && w1.ctl.events == w.ctl.events + (if w.ctl.mode != m then [ModeChanged(m)] else [])
  {
  }

  /**
    Flag reads answered by an engine that stores every write it receives:
    each read returns the value the call trace last sent to that flag of
    the strip.
  */
  predicate StoringReads(e: Replies, calls: seq<ForeignCall>, strip: int) {
    && e.readA1 == Returned(ParamRead(0, LastWrite(calls, ParamName(strip, A1))))
    && e.readA2 == Returned(ParamRead(0, LastWrite(calls, ParamName(strip, A2))))
  }

  /**
    Setting a mode whose two writes the engine accepts, and then syncing
    from an engine that stores what it was sent, yields that mode: the
    writes to A1 and A2 address distinct parameters, so each read finds its
    own flag.
  */
  lemma SetModeThenSyncRoundTrip(w: World, m: OutputMode, e: Replies, e2: Replies)
    requires w.ctl.connected && w.api.connected
    requires WriteOk(e.writeA1) && WriteOk(e.writeA2)
    requires StoringReads(e2, SetMode(w, m, e).world.api.calls, w.ctl.stripIndex)
    ensures Sync(SetMode(w, m, e).world, e2).ctl.mode == m
  {
    var strip := w.ctl.stripIndex;
    var n1, n2 := ParamName(strip, A1), ParamName(strip, A2);
    var v1, v2 := Encode(ToFlags(m).a1), Encode(ToFlags(m).a2);
    var calls := SetMode(w, m, e).world.api.calls;
    assert calls == (w.api.calls + [SetCall(n1, v1)]) + [SetCall(n2, v2)];
    if n1 == n2 {
      ParamNameInjective(strip, A1, strip, A2);
    }
    LastWriteOfWrite(w.api.calls + [SetCall(n1, v1)], n2, v2);
    LastWriteOfWrite(w.api.calls, n1, v1);
    LastWriteOfOther(w.api.calls + [SetCall(n1, v1)], n1, SetCall(n2, v2));
    assert ReadsOn(e2.readA1) == ToFlags(m).a1;
    assert ReadsOn(e2.readA2) == ToFlags(m).a2;
    FromToFlags(m);
  }

  /** An unmapped (false, false) read keeps the mode the controller already had. */
  lemma SyncKeepsModeOnUnmappedFlags(w: World, e: Replies)
    requires !ReadsOn(e.readA1) && !ReadsOn(e.readA2)
    ensures Sync(w, e).ctl == w.ctl
  {
  }

  // --------------------------------------------------------------- retries

  /** A login that fails without making the library unavailable. */
  predicate Transient(r: Reply<int>) {
    r.Threw? || (r.Returned? && !LoginCodeOk(r.value))
  }

  /** `n` login calls in a row. */
  function LoginCalls(n: nat): (s: seq<ForeignCall>)
    ensures |s| == n
    ensures forall k :: 0 <= k < n ==> s[k] == LoginCall
  {
    seq(n, _ => LoginCall)
  }

  lemma LoginCallsCons(n: nat)
    ensures [LoginCall] + LoginCalls(n) == LoginCalls(n + 1)
  {
  }

  /** One host tick: the time and the engine's answers. */
  datatype TickInput = TickInput(now: int, replies: Replies)

  function Ticks(cfg: Config, w: World, ticks: seq<TickInput>): World
    decreases |ticks|
  {
    if ticks == [] then w else Ticks(cfg, Tick(cfg, w, ticks[0].now, ticks[0].replies), ticks[1..])
  }

  /** While the controller is down, a tick does nothing but, when due, one retry. */
  lemma TickWhileDown(cfg: Config, w: World, now: int, e: Replies)
    requires !w.ctl.connected && w.ctl.autoReconnect
    ensures Tick(cfg, w, now, e) ==
      if w.ctl.reconnecting && Due(now, w.ctl.lastAttempt, cfg.reconnectInterval)
      then TryReconnect(cfg, World(w.ctl.(lastAttempt := now), w.api), e)
      else w
  {
  }

  /** One retry whose login fails transiently: counted, one login call, nothing else. */
  lemma FailedRetry(cfg: Config, w: World, e: Replies)
    requires !w.api.connected && w.api.dllAvailable && Transient(e.login)
    requires !Exhausted(cfg, w.ctl.attempts + 1)
    ensures TryReconnect(cfg, w, e) ==
      World(w.ctl.(attempts := w.ctl.attempts + 1), w.api.(calls := w.api.calls + [LoginCall]))
  {
  }

  /** The number of retries that reached Login: every counted attempt but the one that hit the bound. */
  function LoginsMade(before: Ctl, after: Ctl): int {
    after.attempts - before.attempts - (if before.reconnecting && !after.reconnecting then 1 else 0)
  }

  /**
    Bounded retries, over any sequence of ticks at any times: while every
    login fails transiently, the counter never passes max + 1, each counted
    attempt but the last made exactly one login call, so at most
    max - attempts logins reach the engine, and the controller stays down
    with its mode and notifications untouched.
  */
  lemma {:induction false} BoundedRetries(cfg: Config, w: World, ticks: seq<TickInput>)
    requires cfg.maxAttempts > 0 && Inv(cfg, w)
    requires !w.ctl.connected && !w.api.connected && w.api.dllAvailable && w.ctl.autoReconnect
    requires forall k :: 0 <= k < |ticks| ==> Transient(ticks[k].replies.login)
    ensures var t := Ticks(cfg, w, ticks);
      && !t.ctl.connected && !t.api.connected && t.api.dllAvailable
      && t.ctl.mode == w.ctl.mode && t.ctl.events == w.ctl.events
      && w.ctl.attempts <= t.ctl.attempts <= cfg.maxAttempts + 1
      && (!w.ctl.reconnecting ==> t == w)
      && 0 <= LoginsMade(w.ctl, t.ctl)
      && t.api.calls == w.api.calls + LoginCalls(LoginsMade(w.ctl, t.ctl))
      && (w.ctl.reconnecting ==> LoginsMade(w.ctl, t.ctl) <= cfg.maxAttempts - w.ctl.attempts)
    decreases |ticks|
  {
    if ticks != [] {
      var w1 := Tick(cfg, w, ticks[0].now, ticks[0].replies);
      TickWhileDown(cfg, w, ticks[0].now, ticks[0].replies);
      TickKeepsInv(cfg, w, ticks[0].now, ticks[0].replies);
      if w1 != w {
        var stamped := World(w.ctl.(lastAttempt := ticks[0].now), w.api);
        if !Exhausted(cfg, w.ctl.attempts + 1) {
          FailedRetry(cfg, stamped, ticks[0].replies);
        }
      }
      assert forall k :: 0 <= k < |ticks[1..]| ==> Transient(ticks[1..][k].replies.login) by {
        forall k | 0 <= k < |ticks[1..]| ensures Transient(ticks[1..][k].replies.login) {
          assert ticks[1..][k] == ticks[k + 1];
        }
      }
      BoundedRetries(cfg, w1, ticks[1..]);
      var t := Ticks(cfg, w1, ticks[1..]);
      if w1 != w && w1.ctl.reconnecting {
        LoginCallsCons(LoginsMade(w1.ctl, t.ctl));
        assert t.api.calls == w.api.calls + [LoginCall] + LoginCalls(LoginsMade(w1.ctl, t.ctl));
      }
    }
  }

  /** Each tick comes more than the retry interval after the previous retry. */
  predicate Spaced(last: int, ticks: seq<TickInput>, interval: int)
    decreases |ticks|
  {
    ticks == [] || (Due(ticks[0].now, last, interval) && Spaced(ticks[0].now, ticks[1..], interval))
  }

  /**
    With a bound and every tick due, a failing engine sees exactly
    max - attempts logins: the counter ends at min(attempts + n, max + 1),
    and reconnection stops exactly when it passes max.  From a fresh episode
    (attempts 0) and at least max + 1 ticks, that is max logins with the
    counter left at max + 1.
  */
  lemma {:induction false} ExactlyMaxRetries(cfg: Config, w: World, ticks: seq<TickInput>)
    requires cfg.maxAttempts > 0 && Inv(cfg, w)
    requires !w.ctl.connected && !w.api.connected && w.api.dllAvailable && w.ctl.autoReconnect
    requires w.ctl.reconnecting
    requires forall k :: 0 <= k < |ticks| ==> Transient(ticks[k].replies.login)
    requires Spaced(w.ctl.lastAttempt, ticks, cfg.reconnectInterval)
    ensures var t := Ticks(cfg, w, ticks);
      && t.ctl.attempts == Min(w.ctl.attempts + |ticks|, cfg.maxAttempts + 1)
      && (t.ctl.reconnecting <==> w.ctl.attempts + |ticks| <= cfg.maxAttempts)
      && t.api.calls == w.api.calls + LoginCalls(Min(|ticks|, cfg.maxAttempts - w.ctl.attempts))
    decreases |ticks|
  {
    if ticks != [] {
      var w1 := Tick(cfg, w, ticks[0].now, ticks[0].replies);
      TickWhileDown(cfg, w, ticks[0].now, ticks[0].replies);
      TickKeepsInv(cfg, w, ticks[0].now, ticks[0].replies);
      assert forall k :: 0 <= k < |ticks[1..]| ==> Transient(ticks[1..][k].replies.login) by {
        forall k | 0 <= k < |ticks[1..]| ensures Transient(ticks[1..][k].replies.login) {
          assert ticks[1..][k] == ticks[k + 1];
        }
      }
      var stamped := World(w.ctl.(lastAttempt := ticks[0].now), w.api);
      if Exhausted(cfg, w.ctl.attempts + 1) {
        BoundedRetries(cfg, w1, ticks[1..]);
      } else {
        FailedRetry(cfg, stamped, ticks[0].replies);
        ExactlyMaxRetries(cfg, w1, ticks[1..]);
        LoginCallsCons(Min(|ticks| - 1, cfg.maxAttempts - w1.ctl.attempts));
      }
    }
  }

  /**
    Without a bound (max 0, or any non-positive max), a failing engine is
    retried on every due tick forever: after n due ticks the controller is
    still reconnecting, the counter has grown by n and n logins were made.
  */
  lemma {:induction false} UnboundedRetries(cfg: Config, w: World, ticks: seq<TickInput>)
    requires cfg.maxAttempts <= 0
    requires !w.ctl.connected && !w.api.connected && w.api.dllAvailable && w.ctl.autoReconnect
    requires w.ctl.reconnecting
    requires forall k :: 0 <= k < |ticks| ==> Transient(ticks[k].replies.login)
    requires Spaced(w.ctl.lastAttempt, ticks, cfg.reconnectInterval)
    ensures var t := Ticks(cfg, w, ticks);
      && t.ctl.reconnecting && !t.ctl.connected
      && t.ctl.attempts == w.ctl.attempts + |ticks|
      && t.api.calls == w.api.calls + LoginCalls(|ticks|)
    decreases |ticks|
  {
    if ticks != [] {
      var w1 := Tick(cfg, w, ticks[0].now, ticks[0].replies);
      TickWhileDown(cfg, w, ticks[0].now, ticks[0].replies);
      assert forall k :: 0 <= k < |ticks[1..]| ==> Transient(ticks[1..][k].replies.login) by {
        forall k | 0 <= k < |ticks[1..]| ensures Transient(ticks[1..][k].replies.login) {
          assert ticks[1..][k] == ticks[k + 1];
        }
      }
      FailedRetry(cfg, World(w.ctl.(lastAttempt := ticks[0].now), w.api), ticks[0].replies);
      UnboundedRetries(cfg, w1, ticks[1..]);
      LoginCallsCons(|ticks| - 1);
    }
  }

  // -------------------------------------------------------------- recovery

  /**
    A successful retry reconnects, notifies connection-changed then
    reconnected, and re-writes the current mode's flags right after the
    login, without resetting the counter and without a mode-changed event.
  */
  lemma ReconnectRestoresMode(cfg: Config, w: World, e: Replies)
    requires !w.api.connected && w.api.dllAvailable
    requires !Exhausted(cfg, w.ctl.attempts + 1)
    requires e.login.Returned? && LoginCodeOk(e.login.value)
    requires WriteOk(e.writeA1) && WriteOk(e.writeA2)
    ensures var t := TryReconnect(cfg, w, e);
      && t.ctl.connected && !t.ctl.reconnecting && t.ctl.mode == w.ctl.mode
      && t.ctl.attempts == w.ctl.attempts + 1
      && t.ctl.events == w.ctl.events + [ConnectionChanged(true), Reconnected]
      && t.api.calls == w.api.calls + [LoginCall] + ModeWrites(w.ctl.stripIndex, w.ctl.mode)
  {
  }

  /**
    ForceReconnect clears only the controller's flag: if the transport still
    believes it is connected, the retry "logs in" without any foreign call
    and the controller is connected again at once.
  */
  lemma ForceReconnectWithLiveTransport(cfg: Config, w: World, e: Replies)
    requires w.api.connected
    requires WriteOk(e.writeA1) && WriteOk(e.writeA2)
    ensures var t := ForceReconnect(cfg, w, e);
      && t.ctl.connected && !t.ctl.reconnecting && t.ctl.attempts == 1
      && t.ctl.events == w.ctl.events + [Reconnecting, ConnectionChanged(true), Reconnected]
      && t.api.calls == w.api.calls + ModeWrites(w.ctl.stripIndex, w.ctl.mode)
  {
  }

  /** A probe answer that reports the engine as gone. */
  predicate ProbeFails(r: Reply<TypeRead>) {
    !(r.Returned? && r.value.code == 0 && r.value.kind > 0)
  }

  /**
    The whole recovery cycle: connected in mode m, a due probe fails, so the
    controller drops to reconnecting with a fresh counter; the next due tick
    logs in again and re-applies m.  The host never re-issues SetMode.
  */
  lemma {:induction false} ProbeLossThenRecovery(cfg: Config, w: World, now1: int, e1: Replies, now2: int, e2: Replies)
    requires Inv(cfg, w) && w.ctl.connected && w.ctl.autoReconnect
    requires cfg.reconnectInterval >= 0
    requires Due(now1, w.ctl.lastCheck, cfg.checkInterval) && ProbeFails(e1.typeQuery)
    requires Due(now2, now1, cfg.reconnectInterval)
    requires e2.login == Returned(0) && WriteOk(e2.writeA1) && WriteOk(e2.writeA2)
    ensures var w1 := Tick(cfg, w, now1, e1);
      && !w1.ctl.connected && w1.ctl.reconnecting && w1.ctl.attempts == 0
      && w1.ctl.lastAttempt == now1 && w1.ctl.lastCheck == now1
      && w1.ctl.events == w.ctl.events + [ConnectionChanged(false), Reconnecting]
    ensures var w2 := Tick(cfg, Tick(cfg, w, now1, e1), now2, e2);
      && w2.ctl.connected && w2.ctl.mode == w.ctl.mode && w2.ctl.attempts == 1
      && w2.ctl.events == w.ctl.events + [ConnectionChanged(false), Reconnecting, ConnectionChanged(true), Reconnected]
      && w2.api.calls == w.api.calls + [TypeCall, LoginCall] + ModeWrites(w.ctl.stripIndex, w.ctl.mode)
  {
    var w1 := Tick(cfg, w, now1, e1);
    assert !w1.ctl.connected && !w1.api.connected && w1.api.dllAvailable;
    TickWhileDown(cfg, w1, now2, e2);
    ReconnectRestoresMode(cfg, World(w1.ctl.(lastAttempt := now2), w1.api), e2);
  }

  /**
    A due probe that the engine answers well only stamps the check time and
    records the one type query: nothing else changes, and no retry follows.
  */
  lemma TickProbePasses(cfg: Config, w: World, now: int, e: Replies)
    requires Inv(cfg, w) && w.ctl.connected && w.ctl.autoReconnect
    requires Due(now, w.ctl.lastCheck, cfg.checkInterval) && !ProbeFails(e.typeQuery)
    ensures Tick(cfg, w, now, e) == World(w.ctl.(lastCheck := now), w.api.(calls := w.api.calls + [TypeCall]))
  {
  }

  /** After Quit, ticks do nothing, whatever state reconnection was left in. */
  lemma QuitSilencesTicks(cfg: Config, w: World, now: int, e: Replies)
    ensures Tick(cfg, Quit(w), now, e) == Quit(w)
  {
  }
}
