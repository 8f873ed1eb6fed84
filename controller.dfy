/**
  AudioOutputController as an object: its fields are updated in place and
  every foreign call goes through the transport object it owns.  Each method
  is proved to have exactly the effect of its counterpart in ControllerSpec,
  and to keep the controller invariant.
*/
module Controller {
  import opened Modes
  import opened VoiceMeeterSpec
  import opened VoiceMeeterApi
  import opened ControllerSpec
  import opened ControllerProps

  class AudioOutputController {
    const api: Api
    const config: Config

    var mode: OutputMode
    var connected: bool
    var reconnecting: bool
    var attempts: int
    var lastCheck: int
    var lastAttempt: int
    var autoReconnect: bool
    var stripIndex: int
    /** OnModeChanged, OnConnectionChanged, OnReconnecting and OnReconnected, in the order raised. */
    var events: seq<Event>

    function Fields(): Ctl
      reads this
    {
      Ctl(mode, connected, reconnecting, attempts, lastCheck, lastAttempt, autoReconnect, stripIndex, events)
    }

    /** The controller's fields together with the transport's state. */
    function Snapshot(): World
      reads this, api
    {
      World(Fields(), api.State())
    }

    predicate Valid()
      reads this, api
    {
      Inv(config, Snapshot())
    }

    constructor (api: Api, config: Config, stripIndex: int, autoReconnect: bool)
      requires api.Valid()
      ensures this.api == api && this.config == config
      ensures Fields() == InitialCtl(stripIndex, autoReconnect)
      ensures Valid()
    {
      this.api := api;
      this.config := config;
      mode := DefaultMode;
      connected := false;
      reconnecting := false;
      attempts := 0;
      lastCheck := 0;
      lastAttempt := 0;
      this.autoReconnect := autoReconnect;
      this.stripIndex := stripIndex;
      events := [];
    }

    /** The EnableAutoReconnect property setter. */
    method SetEnableAutoReconnect(enabled: bool)
      requires Valid()
      modifies this
      ensures Valid()
      ensures Fields() == old(Fields()).(autoReconnect := enabled)
    {
      autoReconnect := enabled;
    }

    /** The StripIndex property setter. */
    method SetStripIndex(index: int)
      requires Valid()
      modifies this
      ensures Valid()
      ensures Fields() == old(Fields()).(stripIndex := index)
    {
      stripIndex := index;
    }

    method Start(e: Replies)
      requires Valid()
      modifies this, api
      ensures Valid()
      ensures Snapshot() == ControllerSpec.Start(config, old(Snapshot()), e)
    {
      if config.autoConnectOnStart {
        var _ := Connect(e);
        if connected {
          var _ := SetMode(config.defaultMode, e);
        }
      }
    }

    /** Update: the host's per-frame tick, with the current time. */
    method Tick(now: int, e: Replies)
      requires Valid()
      modifies this, api
      ensures Valid()
      ensures Snapshot() == ControllerSpec.Tick(config, old(Snapshot()), now, e)
    {
      if !autoReconnect {
        return;
      }
      if connected && now - lastCheck > config.checkInterval {
        lastCheck := now;
        CheckConnectionStatus(now, e);
      }
      if reconnecting && now - lastAttempt > config.reconnectInterval {
        lastAttempt := now;
        TryReconnect(e);
      }
    }

    method OnApplicationQuit()
      requires Valid()
      modifies this, api
      ensures Valid()
      ensures Snapshot() == Quit(old(Snapshot()))
    {
      autoReconnect := false;
      Disconnect();
    }

    method Connect(e: Replies) returns (ok: bool)
      requires Valid()
      modifies this, api
      ensures Valid()
      ensures Outcome(Snapshot(), ok) == ControllerSpec.Connect(old(Snapshot()), e)
    {
      if connected {
        return true;
      }
      connected := api.Login(e.login);
      if connected {
        reconnecting := false;
        attempts := 0;
        var typeName := api.GetVoiceMeeterTypeName(e.typeQuery);
      }
      events := events + [ConnectionChanged(connected)];
      ok := connected;
    }

    method Disconnect()
      requires Valid()
      modifies this, api
      ensures Valid()
      ensures Snapshot() == ControllerSpec.Disconnect(old(Snapshot()))
    {
      if !connected {
        return;
      }
      api.Logout();
      connected := false;
      reconnecting := false;
      events := events + [ConnectionChanged(false)];
    }

    method SetMode(mode: OutputMode, e: Replies) returns (ok: bool)
      requires Valid()
      modifies this, api
      ensures Valid()
      ensures Outcome(Snapshot(), ok) == ControllerSpec.SetMode(old(Snapshot()), mode, e)
    {
      if !connected {
        return false;
      }
      ok := ApplyModeToVoiceMeeter(mode, e);
      if ok {
        var previous := this.mode;
        this.mode := mode;
        if previous != mode {
          events := events + [ModeChanged(mode)];
        }
      }
    }

    method ToggleMode(e: Replies) returns (ok: bool)
      requires Valid()
      modifies this, api
      ensures Valid()
      ensures Outcome(Snapshot(), ok) == ControllerSpec.ToggleMode(old(Snapshot()), e)
    {
      var target := if mode == A_HeadphoneOnly then B_HeadphoneAndSpeaker else A_HeadphoneOnly;
      ok := SetMode(target, e);
    }

    method SyncFromVoiceMeeter(e: Replies)
      requires Valid()
      modifies this, api
      ensures Valid()
      ensures Snapshot() == Sync(old(Snapshot()), e)
    {
      if !connected {
        return;
      }
      var a1 := api.GetStripA1(stripIndex, e.readA1);
      var a2 := api.GetStripA2(stripIndex, e.readA2);
      if a1 && !a2 {
        mode := A_HeadphoneOnly;
      } else if a1 && a2 {
        mode := B_HeadphoneAndSpeaker;
      } else if !a1 && a2 {
        mode := C_SpeakerOnly;
      }
    }

    method ForceReconnect(e: Replies)
      requires Valid()
      modifies this, api
      ensures Valid()
      ensures Snapshot() == ControllerSpec.ForceReconnect(config, old(Snapshot()), e)
    {
      connected := false;
      reconnecting := true;
      attempts := 0;
      events := events + [Reconnecting];
      TryReconnect(e);
    }

    /** Writes A1 and then A2 for the mode; the second write is made even if the first failed. */
    method ApplyModeToVoiceMeeter(mode: OutputMode, e: Replies) returns (success: bool)
      requires Valid()
      modifies api
      ensures Valid()
      ensures Step(api.State(), success) == ApplyMode(old(api.State()), stripIndex, mode, e)
    {
      success := true;
      var first, second;
      match mode {
        case A_HeadphoneOnly =>
          first := api.SetStripA1(stripIndex, true, e.writeA1);
          success := success && first;
          second := api.SetStripA2(stripIndex, false, e.writeA2);
          success := success && second;
        case B_HeadphoneAndSpeaker =>
          first := api.SetStripA1(stripIndex, true, e.writeA1);
          success := success && first;
          second := api.SetStripA2(stripIndex, true, e.writeA2);
          success := success && second;
        case C_SpeakerOnly =>
          first := api.SetStripA1(stripIndex, false, e.writeA1);
          success := success && first;
          second := api.SetStripA2(stripIndex, true, e.writeA2);
          success := success && second;
      }
    }

    method CheckConnectionStatus(now: int, e: Replies)
      requires Valid()
      modifies this, api
      ensures Valid()
      ensures Snapshot() == ControllerSpec.CheckConnectionStatus(old(Snapshot()), now, e)
    {
      ghost var before := Snapshot();
      var stillConnected := api.CheckConnection(e.typeQuery);
      if !stillConnected && connected {
        connected := false;
        events := events + [ConnectionChanged(false)];
        if autoReconnect {
          StartReconnect(now);
        }
      }
      CheckConnectionStatusKeepsInv(config, before, now, e);
    }

    method StartReconnect(now: int)
      requires Valid() && !connected
      modifies this
      ensures Valid()
      ensures Fields() == ControllerSpec.StartReconnect(old(Fields()), now)
    {
      if reconnecting {
        return;
      }
      reconnecting := true;
      attempts := 0;
      lastAttempt := now;
      events := events + [Reconnecting];
    }

    method TryReconnect(e: Replies)
      requires Valid() && reconnecting
      modifies this, api
      ensures Valid()
      ensures Snapshot() == ControllerSpec.TryReconnect(config, old(Snapshot()), e)
    {
      attempts := attempts + 1;
      if config.maxAttempts > 0 && attempts > config.maxAttempts {
        reconnecting := false;
        return;
      }
      var loggedIn := api.Login(e.login);
      if loggedIn {
        connected := true;
        reconnecting := false;
        events := events + [ConnectionChanged(true), Reconnected];
        var _ := SetMode(mode, e);
      }
    }
  }
}
