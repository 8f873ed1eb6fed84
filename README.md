# VoiceMeeter audio-output control, modelled in Dafny

This project models the core of a Unity package that switches a PC's audio output between headphones and speakers by driving VoiceMeeter. Its four parts are:

- **Output modes** (`modes.dfy`, module `Modes`).
  - The three modes are A (headphones only), B (headphones and speakers) and C (speakers only).
  - A codec maps each mode to the pair of routing flags A1/A2 of one VoiceMeeter input strip.
- **Transport wrapper** (`voicemeeter_spec.dfy` holds the state-step functions; `voicemeeter_api.dfy` holds class `Api`).
  - `Api` keeps its own `connected` and `dllAvailable` flags.
  - It turns every call into the VoiceMeeter remote library into a boolean or a default value.
  - It builds parameter names of the form `Strip[i].A1` and writes booleans as 1/0.
- **Controller** (`controller_spec.dfy` holds the step functions; `controller_props.dfy` holds the multi-step properties; `controller.dfy` holds class `AudioOutputController`).
  - A state machine over `connected`, `reconnecting`, the retry counter and the current mode.
  - It has a tick-driven probe and a bounded or unbounded reconnect loop.
  - It raises four notifications: mode changed, connection changed, reconnecting and reconnected.
- **Bounded log** (`logging.dfy`, module `Logging`, class `AudioLogger`).
  - Each new entry is appended; the oldest entry is dropped when the list is over its maximum.
  - There is a text export.

`text.dfy` renders integers in decimal, as C# interpolation prints an `int`. `wrappers.dfy` holds `Option` and module `Ints` with the `Min` that `Logging` and `ControllerProps` share.

How the system is represented:

- **Foreign calls.** Every foreign call is an oracle answer `Reply<T>`: `Returned(value)`, `DllNotFound` or `Threw` (any other exception).
  - A controller operation receives one `Replies` record. It holds the answer for each kind of foreign call the operation can make, and none of them is made twice in one operation.
  - The transport state records every foreign call it attempts, in order (`calls`), including a login that found the library missing. This makes "no foreign call" something a contract can state.
- **Notifications.** The four controller notifications are appended to an event trace. The logger's `OnLogAdded` notifications are appended to `notified`.
- **Time.** `Time.time` becomes an integer `now` passed to `Tick`. The intervals are integers, and the strict "more than the interval" test is kept (`Due`).
- **Proof structure.** Each class method is proved to move its object exactly as a pure step function moves the state, and to keep the class invariant. The properties are proved about the step functions.

## Model

| member | source | states |
|---|---|---|
| Modes.Ordinal | Packages/com.audiocontrol.voicemeeter/Runtime/Scripts/AudioOutputMode.cs:7-26 | Exactly three variants, declared A, B, C. The value 0, which is the default an unset mode field holds, is A. |
| Modes.ToFlags | Packages/com.audiocontrol.voicemeeter/Runtime/Scripts/AudioOutputMode.cs:9-25 | A1 is on except in C, and A2 is on except in A. So A=(1,0), B=(1,1) and C=(0,1), and no mode is (0,0). |
| Modes.FromFlags | Packages/com.audiocontrol.voicemeeter/Runtime/Scripts/AudioOutputController.cs:274-282 | Only (false,false) decodes to no mode. Any mode it returns encodes back to the given pair. |
| Modes.ToFlagsInjective | Packages/com.audiocontrol.voicemeeter/Runtime/Scripts/AudioOutputMode.cs:9-25 | Distinct modes have distinct flag pairs. |
| Modes.FromToFlags | Packages/com.audiocontrol.voicemeeter/Runtime/Scripts/AudioOutputMode.cs:9-25 | Decoding a mode's flag pair gives the mode back. |
| Modes.ToFromFlags | Packages/com.audiocontrol.voicemeeter/Runtime/Scripts/AudioOutputController.cs:274-282 | Every pair except (false,false) decodes to a mode whose encoding is that pair. |
| Text.NatToString | Packages/com.audiocontrol.voicemeeter/Runtime/Scripts/AudioLogger.cs:124 | The count printed in the export is a non-empty string of decimal digits. |
| Text.NatToStringRoundTrip | Packages/com.audiocontrol.voicemeeter/Runtime/Scripts/AudioLogger.cs:124 | Reading back the printed digits gives the number. |
| Text.IntToString | Packages/com.audiocontrol.voicemeeter/Runtime/Scripts/VoiceMeeterAPI.cs:271 | The printed strip index is digits, with a leading '-' exactly when the index is negative. |
| Text.NatToStringInjective | Packages/com.audiocontrol.voicemeeter/Runtime/Scripts/AudioLogger.cs:124 | Distinct counts print differently. |
| Text.IntToStringInjective | Packages/com.audiocontrol.voicemeeter/Runtime/Scripts/VoiceMeeterAPI.cs:271 | Distinct indices print differently. |
| VoiceMeeterSpec.Login | Packages/com.audiocontrol.voicemeeter/Runtime/Scripts/VoiceMeeterAPI.cs:58-98 | When already connected: returns true, no call. When the library is known missing: returns false, no call. Otherwise one login call, which succeeds and connects iff the code is 0 or 1. DLL-not-found clears `dllAvailable`. The flag is never set back to true. |
| VoiceMeeterSpec.Logout | Packages/com.audiocontrol.voicemeeter/Runtime/Scripts/VoiceMeeterAPI.cs:103-122 | No-op when disconnected. Otherwise one logout call, and the transport ends disconnected whatever the call does. |
| VoiceMeeterSpec.CheckConnection | Packages/com.audiocontrol.voicemeeter/Runtime/Scripts/VoiceMeeterAPI.cs:127-154 | Returns false with no call when disconnected or the library is missing. Otherwise true iff code 0 and type > 0. Any false outcome leaves the transport disconnected. |
| VoiceMeeterSpec.SetParameter | Packages/com.audiocontrol.voicemeeter/Runtime/Scripts/VoiceMeeterAPI.cs:159-183 | Fails with no call when disconnected. Otherwise one write, which succeeds iff the answer is 0. Exceptions are swallowed, and the flags are unchanged. |
| VoiceMeeterSpec.GetParameter | Packages/com.audiocontrol.voicemeeter/Runtime/Scripts/VoiceMeeterAPI.cs:188-212 | Fails with no call when disconnected. Succeeds iff the answer is 0. The value is the engine's on success and 0 on any failure. |
| VoiceMeeterSpec.GetVoiceMeeterType | Packages/com.audiocontrol.voicemeeter/Runtime/Scripts/VoiceMeeterAPI.cs:235-249 | 0 with no call when disconnected. Otherwise the reported type, whatever the status code, or 0 if the call threw. |
| VoiceMeeterSpec.TypeName | Packages/com.audiocontrol.voicemeeter/Runtime/Scripts/VoiceMeeterAPI.cs:256-262 | "Unknown" exactly for types other than 1, 2 and 3. Type 1 is "VoiceMeeter", 2 is "VoiceMeeter Banana" and 3 is "VoiceMeeter Potato". |
| VoiceMeeterSpec.GetVoiceMeeterTypeName | Packages/com.audiocontrol.voicemeeter/Runtime/Scripts/VoiceMeeterAPI.cs:254-263 | "Unknown" with no call when disconnected. Otherwise one type query, and the name is `TypeName` of the reported type, or "Unknown" if the call threw. A known name comes back exactly when connected and the engine reported type 1 to 3. |
| VoiceMeeterSpec.ParamNameInjective | Packages/com.audiocontrol.voicemeeter/Runtime/Scripts/VoiceMeeterAPI.cs:269-302 | The name `Strip[i].F` determines both i and F, so distinct strips and flags never share a parameter. |
| VoiceMeeterSpec.SplitAtBracket | Packages/com.audiocontrol.voicemeeter/Runtime/Scripts/VoiceMeeterAPI.cs:271 | A name splits uniquely at the first `]` when the part before it holds none. |
| VoiceMeeterSpec.ParamNameTail | Packages/com.audiocontrol.voicemeeter/Runtime/Scripts/VoiceMeeterAPI.cs:271 | After the `Strip[` prefix, the name is the index, `]`, `.` and the flag. |
| VoiceMeeterSpec.Encode | Packages/com.audiocontrol.voicemeeter/Runtime/Scripts/VoiceMeeterAPI.cs:271 | A boolean is written as 1 or 0, and reads back as "on" (> 0.5) iff it was true. |
| VoiceMeeterSpec.SetStrip | Packages/com.audiocontrol.voicemeeter/Runtime/Scripts/VoiceMeeterAPI.cs:269-282 | Writes `Strip[i].F` with true as 1 and false as 0. It succeeds iff connected and the answer is 0, and makes no call when disconnected. |
| VoiceMeeterSpec.GetStrip | Packages/com.audiocontrol.voicemeeter/Runtime/Scripts/VoiceMeeterAPI.cs:284-297 | True iff connected, the read answered 0 and the value is above 0.5. |
| VoiceMeeterSpec.LastWriteOfWrite | Packages/com.audiocontrol.voicemeeter/Runtime/Scripts/VoiceMeeterAPI.cs:159-183 | After a write to a parameter, that parameter holds the written value. |
| VoiceMeeterSpec.LastWriteOfOther | Packages/com.audiocontrol.voicemeeter/Runtime/Scripts/VoiceMeeterAPI.cs:159-183 | A call that is not a write to a parameter leaves the value it holds unchanged. |
| VoiceMeeterSpec.StripRoundTrip | Packages/com.audiocontrol.voicemeeter/Runtime/Scripts/VoiceMeeterAPI.cs:269-297 | A write the engine accepts, followed by a read answered with the value the call trace last sent to that parameter (`LastWrite`), returns the written boolean. |
| VoiceMeeterSpec.ApplyKeepsInv | Packages/com.audiocontrol.voicemeeter/Runtime/Scripts/VoiceMeeterAPI.cs:58-212 | No transport operation connects while the library is missing. |
| VoiceMeeterSpec.DllLossIsPermanent | Packages/com.audiocontrol.voicemeeter/Runtime/Scripts/VoiceMeeterAPI.cs:65-68 | After a missing-library failure, any sequence of operations leaves the library unavailable and the transport disconnected. It only extends the call trace, and adds no login call. |
| VoiceMeeterSpec.LoginAfterDllLossFails | Packages/com.audiocontrol.voicemeeter/Runtime/Scripts/VoiceMeeterAPI.cs:87-92 | A DLL-not-found login clears the flag. Every later login fails at once, with no call. |
| VoiceMeeterApi.Api.constructor | Packages/com.audiocontrol.voicemeeter/Runtime/Scripts/VoiceMeeterAPI.cs:39-43 | Starts disconnected, with the library assumed present and no calls. |
| VoiceMeeterApi.Api.Login | Packages/com.audiocontrol.voicemeeter/Runtime/Scripts/VoiceMeeterAPI.cs:58-98 | The flags move as `VoiceMeeterSpec.Login` says, and the invariant is kept. |
| VoiceMeeterApi.Api.Logout | Packages/com.audiocontrol.voicemeeter/Runtime/Scripts/VoiceMeeterAPI.cs:103-122 | The state moves as `VoiceMeeterSpec.Logout` says. |
| VoiceMeeterApi.Api.CheckConnection | Packages/com.audiocontrol.voicemeeter/Runtime/Scripts/VoiceMeeterAPI.cs:127-154 | The state and result match `VoiceMeeterSpec.CheckConnection`. |
| VoiceMeeterApi.Api.SetParameter | Packages/com.audiocontrol.voicemeeter/Runtime/Scripts/VoiceMeeterAPI.cs:159-183 | The state and result match `VoiceMeeterSpec.SetParameter`. |
| VoiceMeeterApi.Api.GetParameter | Packages/com.audiocontrol.voicemeeter/Runtime/Scripts/VoiceMeeterAPI.cs:188-212 | The state and the (success, value) result match `VoiceMeeterSpec.GetParameter`. |
| VoiceMeeterApi.Api.GetVoiceMeeterType | Packages/com.audiocontrol.voicemeeter/Runtime/Scripts/VoiceMeeterAPI.cs:235-249 | Matches `VoiceMeeterSpec.GetVoiceMeeterType`. |
| VoiceMeeterApi.Api.GetVoiceMeeterTypeName | Packages/com.audiocontrol.voicemeeter/Runtime/Scripts/VoiceMeeterAPI.cs:254-263 | Matches `VoiceMeeterSpec.GetVoiceMeeterTypeName`. |
| VoiceMeeterApi.Api.SetStripA1 | Packages/com.audiocontrol.voicemeeter/Runtime/Scripts/VoiceMeeterAPI.cs:269-272 | Matches `SetStrip` for flag A1. |
| VoiceMeeterApi.Api.SetStripA2 | Packages/com.audiocontrol.voicemeeter/Runtime/Scripts/VoiceMeeterAPI.cs:274-277 | Matches `SetStrip` for flag A2. |
| VoiceMeeterApi.Api.SetStripA3 | Packages/com.audiocontrol.voicemeeter/Runtime/Scripts/VoiceMeeterAPI.cs:279-282 | Matches `SetStrip` for flag A3. |
| VoiceMeeterApi.Api.SetStripMute | Packages/com.audiocontrol.voicemeeter/Runtime/Scripts/VoiceMeeterAPI.cs:299-302 | Matches `SetStrip` for the Mute parameter. |
| VoiceMeeterApi.Api.GetStripA1 | Packages/com.audiocontrol.voicemeeter/Runtime/Scripts/VoiceMeeterAPI.cs:284-287 | Matches `GetStrip` for flag A1. |
| VoiceMeeterApi.Api.GetStripA2 | Packages/com.audiocontrol.voicemeeter/Runtime/Scripts/VoiceMeeterAPI.cs:289-292 | Matches `GetStrip` for flag A2. |
| VoiceMeeterApi.Api.GetStripA3 | Packages/com.audiocontrol.voicemeeter/Runtime/Scripts/VoiceMeeterAPI.cs:294-297 | Matches `GetStrip` for flag A3. |
| ControllerSpec.ApplyMode | Packages/com.audiocontrol.voicemeeter/Runtime/Scripts/AudioOutputController.cs:303-326 | When connected, both the A1 write and then the A2 write are issued even if the first fails. The result is their conjunction. Nothing is issued when disconnected. |
| ControllerSpec.SetMode | Packages/com.audiocontrol.voicemeeter/Runtime/Scripts/AudioOutputController.cs:209-232 | Disconnected: false, no writes, nothing changes. Success iff both writes succeed, and then the mode is set. A failure leaves the controller state as it was. ModeChanged is raised only on success with a different mode. |
| ControllerSpec.ToggleTarget | Packages/com.audiocontrol.voicemeeter/Runtime/Scripts/AudioOutputController.cs:252-259 | The target is B exactly from A, and A otherwise (from C too). It is never C and never the current mode. |
| ControllerSpec.ToggleMode | Packages/com.audiocontrol.voicemeeter/Runtime/Scripts/AudioOutputController.cs:252-259 | A successful toggle lands on the target and always raises one ModeChanged. A failed one changes nothing in the controller. |
| ControllerSpec.Sync | Packages/com.audiocontrol.voicemeeter/Runtime/Scripts/AudioOutputController.cs:264-285 | Reads (T,F) give A, (T,T) give B and (F,T) give C. (F,F), or a disconnected controller, keeps the mode. Only the mode changes, and no notification is raised. When connected, the two reads are of `Strip[i].A1` then `Strip[i].A2`. |
| ControllerSpec.Connect | Packages/com.audiocontrol.voicemeeter/Runtime/Scripts/AudioOutputController.cs:169-190 | Already connected: true, nothing changes. Otherwise the result is the login's. ConnectionChanged(result) is raised. Success clears reconnecting and resets the counter, leaves every other field as it was, and makes the login call followed by one type query. Failure changes only the events, and the transport only by the login. |
| ControllerSpec.Disconnect | Packages/com.audiocontrol.voicemeeter/Runtime/Scripts/AudioOutputController.cs:195-204 | Not connected: nothing changes, not even `reconnecting`. Otherwise logs out, clears both flags and raises ConnectionChanged(false). Every other field (counter, mode, strip index, auto-reconnect, probe and retry times) is kept. |
| ControllerSpec.StartReconnect | Packages/com.audiocontrol.voicemeeter/Runtime/Scripts/AudioOutputController.cs:345-354 | No-op while reconnecting. Otherwise starts an episode: counter 0, retry time stamped, Reconnecting raised. |
| ControllerSpec.CheckConnectionStatus | Packages/com.audiocontrol.voicemeeter/Runtime/Scripts/AudioOutputController.cs:328-343 | The transport is probed. A failed probe while connected marks the controller disconnected, raises ConnectionChanged(false), and starts reconnecting when auto-reconnect is on. |
| ControllerSpec.TryReconnect | Packages/com.audiocontrol.voicemeeter/Runtime/Scripts/AudioOutputController.cs:356-381 | The counter is incremented first. Past a positive maximum, reconnecting stops with no login. A successful login connects, raises ConnectionChanged(true) then Reconnected, and keeps the incremented counter and every other field (mode, strip index, auto-reconnect, probe and retry times). |
| ControllerSpec.Tick | Packages/com.audiocontrol.voicemeeter/Runtime/Scripts/AudioOutputController.cs:128-145 | With auto-reconnect off, or when no deadline has strictly passed, the tick does nothing. |
| ControllerSpec.ForceReconnect | Packages/com.audiocontrol.voicemeeter/Runtime/Scripts/AudioOutputController.cs:290-297 | Clears only the controller's connected flag, restarts the counter, raises Reconnecting and retries at once. The counter ends at 1. |
| ControllerSpec.Start | Packages/com.audiocontrol.voicemeeter/Runtime/Scripts/AudioOutputController.cs:116-126 | Without auto-connect, nothing changes. A fresh login with both mode writes accepted ends connected in the default mode: ConnectionChanged(true), then ModeChanged only if the mode differed; the calls are the login, the type query and the two writes. If the writes are refused, it stays connected in the old mode. A failed login keeps the mode, raises ConnectionChanged(false) and writes nothing to the strip. An already connected controller re-applies the default mode. |
| ControllerSpec.Quit | Packages/com.audiocontrol.voicemeeter/Runtime/Scripts/AudioOutputController.cs:156-160 | Auto-reconnect is switched off and the controller ends disconnected. A live connection is logged out with ConnectionChanged(false). |
| ControllerProps.InitialInv | Packages/com.audiocontrol.voicemeeter/Runtime/Scripts/AudioOutputController.cs:69-79 | The fresh controller and transport satisfy the invariant. |
| ControllerProps.SetModeKeepsInv | Packages/com.audiocontrol.voicemeeter/Runtime/Scripts/AudioOutputController.cs:209-232 | SetMode keeps the invariant. |
| ControllerProps.SyncKeepsInv | Packages/com.audiocontrol.voicemeeter/Runtime/Scripts/AudioOutputController.cs:264-285 | Sync keeps the invariant. |
| ControllerProps.ConnectKeepsInv | Packages/com.audiocontrol.voicemeeter/Runtime/Scripts/AudioOutputController.cs:169-190 | Connect keeps the invariant. |
| ControllerProps.DisconnectKeepsInv | Packages/com.audiocontrol.voicemeeter/Runtime/Scripts/AudioOutputController.cs:195-204 | Disconnect keeps the invariant. |
| ControllerProps.CheckConnectionStatusKeepsInv | Packages/com.audiocontrol.voicemeeter/Runtime/Scripts/AudioOutputController.cs:328-354 | The probe keeps the invariant. With auto-reconnect on, a connection lost to a failed probe always starts a fresh retry episode (counter 0, retry time stamped). |
| ControllerProps.TryReconnectKeepsInv | Packages/com.audiocontrol.voicemeeter/Runtime/Scripts/AudioOutputController.cs:356-381 | A retry keeps the invariant, so the counter never exceeds max+1 and never exceeds max while reconnecting. |
| ControllerProps.TickKeepsInv | Packages/com.audiocontrol.voicemeeter/Runtime/Scripts/AudioOutputController.cs:128-145 | A tick keeps the invariant. |
| ControllerProps.ForceReconnectKeepsInv | Packages/com.audiocontrol.voicemeeter/Runtime/Scripts/AudioOutputController.cs:290-297 | ForceReconnect keeps the invariant. |
| ControllerProps.StartFromInitial | Packages/com.audiocontrol.voicemeeter/Runtime/Scripts/AudioOutputController.cs:47-126 | On a fresh component with the serialized defaults, a successful Start ends connected in mode A with only ConnectionChanged(true): A is already the field's initial value. The calls are login, type query, then the A1 and A2 writes. |
| ControllerProps.StartKeepsInv | Packages/com.audiocontrol.voicemeeter/Runtime/Scripts/AudioOutputController.cs:116-126 | Start keeps the invariant. |
| ControllerProps.QuitKeepsInv | Packages/com.audiocontrol.voicemeeter/Runtime/Scripts/AudioOutputController.cs:156-160 | Quit keeps the invariant. |
| ControllerProps.ConnectIsIdempotent | Packages/com.audiocontrol.voicemeeter/Runtime/Scripts/AudioOutputController.cs:169-173 | After a successful Connect, a second Connect returns true and changes nothing, so no login call is made. |
| ControllerProps.DisconnectIsIdempotent | Packages/com.audiocontrol.voicemeeter/Runtime/Scripts/AudioOutputController.cs:195-199 | A second Disconnect changes nothing. |
| ControllerProps.SetModeTwiceNotifiesOnce | Packages/com.audiocontrol.voicemeeter/Runtime/Scripts/AudioOutputController.cs:220-229 | Setting the same mode twice raises ModeChanged at most once, and only if the mode differed. |
| ControllerProps.SetModeThenSyncRoundTrip | Packages/com.audiocontrol.voicemeeter/Runtime/Scripts/AudioOutputController.cs:209-285 | If the engine accepts both mode writes and answers the reads with the values last written to `Strip[i].A1` and `Strip[i].A2` (`StoringReads`), Sync after SetMode(m) yields m. The two flags are distinct parameters (`ParamNameInjective`), so each read finds its own write. |
| ControllerProps.SyncKeepsModeOnUnmappedFlags | Packages/com.audiocontrol.voicemeeter/Runtime/Scripts/AudioOutputController.cs:274-282 | Reads of (false,false) leave the controller unchanged. |
| ControllerProps.LoginCalls | Packages/com.audiocontrol.voicemeeter/Runtime/Scripts/VoiceMeeterAPI.cs:70 | The trace of n login calls has length n, and every entry is a login. |
| ControllerProps.LoginCallsCons | Packages/com.audiocontrol.voicemeeter/Runtime/Scripts/VoiceMeeterAPI.cs:70 | One login followed by n logins is n+1 logins. |
| ControllerProps.TickWhileDown | Packages/com.audiocontrol.voicemeeter/Runtime/Scripts/AudioOutputController.cs:128-145 | While disconnected, a tick does nothing except retry when reconnecting and the retry interval has strictly passed. |
| ControllerProps.FailedRetry | Packages/com.audiocontrol.voicemeeter/Runtime/Scripts/AudioOutputController.cs:356-381 | A retry whose login fails transiently makes one login call and only counts the attempt. |
| ControllerProps.BoundedRetries | Packages/com.audiocontrol.voicemeeter/Runtime/Scripts/AudioOutputController.cs:356-365 | With a positive maximum and failing logins, over any ticks at any times: the counter stays ≤ max+1, the controller stays down with its mode and events untouched, and at most max − attempts logins reach the engine. |
| ControllerProps.ExactlyMaxRetries | Packages/com.audiocontrol.voicemeeter/Runtime/Scripts/AudioOutputController.cs:356-365 | With every tick due and logins failing, the counter ends at min(attempts+n, max+1). Reconnecting stops exactly when the counter passes max, and exactly min(n, max − attempts) logins are made. From 0 that is max logins with the counter at max+1. |
| ControllerProps.UnboundedRetries | Packages/com.audiocontrol.voicemeeter/Runtime/Scripts/AudioOutputController.cs:358 | With maximum 0 it never stops: after n due ticks it is still reconnecting, with n more attempts and n login calls. |
| ControllerProps.ReconnectRestoresMode | Packages/com.audiocontrol.voicemeeter/Runtime/Scripts/AudioOutputController.cs:367-380 | A successful retry reconnects, raises ConnectionChanged(true) then Reconnected and rewrites the current mode's flags. There is no ModeChanged and no counter reset. |
| ControllerProps.ForceReconnectWithLiveTransport | Packages/com.audiocontrol.voicemeeter/Runtime/Scripts/AudioOutputController.cs:290-297 | If the transport still believes it is connected, the forced retry "logs in" with no foreign call and reconnects at once. |
| ControllerProps.ProbeLossThenRecovery | Packages/com.audiocontrol.voicemeeter/Runtime/Scripts/AudioOutputController.cs:128-145 | A failed due probe drops to reconnecting with a fresh counter. The next due tick logs in again and re-applies the prior mode, with the exact events and calls stated. |
| ControllerProps.TickProbePasses | Packages/com.audiocontrol.voicemeeter/Runtime/Scripts/AudioOutputController.cs:128-145 | A due probe the engine answers well only stamps the check time and records one type query. Nothing else changes, and no retry follows. |
| ControllerProps.QuitSilencesTicks | Packages/com.audiocontrol.voicemeeter/Runtime/Scripts/AudioOutputController.cs:156-160 | After Quit every tick is a no-op. |
| Controller.AudioOutputController.constructor | Packages/com.audiocontrol.voicemeeter/Runtime/Scripts/AudioOutputController.cs:47-79 | Disconnected, not reconnecting, counter 0, mode A, no events, with the given strip index and auto-reconnect setting. |
| Controller.AudioOutputController.SetEnableAutoReconnect | Packages/com.audiocontrol.voicemeeter/Runtime/Scripts/AudioOutputController.cs:92-96 | Sets only the auto-reconnect flag. |
| Controller.AudioOutputController.SetStripIndex | Packages/com.audiocontrol.voicemeeter/Runtime/Scripts/AudioOutputController.cs:87-91 | Sets only the strip index. |
| Controller.AudioOutputController.Start | Packages/com.audiocontrol.voicemeeter/Runtime/Scripts/AudioOutputController.cs:116-126 | The object moves as `ControllerSpec.Start` says (connect, then apply the default mode, with each failure outcome stated), and the invariant is kept. |
| Controller.AudioOutputController.Tick | Packages/com.audiocontrol.voicemeeter/Runtime/Scripts/AudioOutputController.cs:128-145 | Moves as `ControllerSpec.Tick` says, and the invariant is kept. |
| Controller.AudioOutputController.OnApplicationQuit | Packages/com.audiocontrol.voicemeeter/Runtime/Scripts/AudioOutputController.cs:156-160 | Moves as `ControllerSpec.Quit` says. |
| Controller.AudioOutputController.Connect | Packages/com.audiocontrol.voicemeeter/Runtime/Scripts/AudioOutputController.cs:169-190 | Moves and returns as `ControllerSpec.Connect` says. |
| Controller.AudioOutputController.Disconnect | Packages/com.audiocontrol.voicemeeter/Runtime/Scripts/AudioOutputController.cs:195-204 | Moves as `ControllerSpec.Disconnect` says. |
| Controller.AudioOutputController.SetMode | Packages/com.audiocontrol.voicemeeter/Runtime/Scripts/AudioOutputController.cs:209-232 | Moves and returns as `ControllerSpec.SetMode` says. |
| Controller.AudioOutputController.ToggleMode | Packages/com.audiocontrol.voicemeeter/Runtime/Scripts/AudioOutputController.cs:252-259 | Moves and returns as `ControllerSpec.ToggleMode` says. |
| Controller.AudioOutputController.SyncFromVoiceMeeter | Packages/com.audiocontrol.voicemeeter/Runtime/Scripts/AudioOutputController.cs:264-285 | Moves as `ControllerSpec.Sync` says. |
| Controller.AudioOutputController.ForceReconnect | Packages/com.audiocontrol.voicemeeter/Runtime/Scripts/AudioOutputController.cs:290-297 | Moves as `ControllerSpec.ForceReconnect` says. |
| Controller.AudioOutputController.ApplyModeToVoiceMeeter | Packages/com.audiocontrol.voicemeeter/Runtime/Scripts/AudioOutputController.cs:303-326 | It accumulates `success` over the two writes, and the transport and result match `ControllerSpec.ApplyMode`. The controller invariant is kept. |
| Controller.AudioOutputController.CheckConnectionStatus | Packages/com.audiocontrol.voicemeeter/Runtime/Scripts/AudioOutputController.cs:328-343 | Moves as `ControllerSpec.CheckConnectionStatus` says. |
| Controller.AudioOutputController.StartReconnect | Packages/com.audiocontrol.voicemeeter/Runtime/Scripts/AudioOutputController.cs:345-354 | Called once the controller is disconnected, it moves as `ControllerSpec.StartReconnect` says and keeps the invariant. |
| Controller.AudioOutputController.TryReconnect | Packages/com.audiocontrol.voicemeeter/Runtime/Scripts/AudioOutputController.cs:356-381 | Moves as `ControllerSpec.TryReconnect` says. |
| Logging.Appended | Packages/com.audiocontrol.voicemeeter/Runtime/Scripts/AudioLogger.cs:66-72 | The new entry is last. The list is the newest suffix of old list + entry. The length grows by 1, or stays the same exactly when it went over the maximum. The capacity bound is kept. |
| Logging.KeepsNewest | Packages/com.audiocontrol.voicemeeter/Runtime/Scripts/AudioLogger.cs:66-72 | After any number of logs, the list is exactly the newest min(total, max) entries, in logging order. |
| Logging.AppendedThenRest | Packages/com.audiocontrol.voicemeeter/Runtime/Scripts/AudioLogger.cs:66-72 | Logging one entry, then the rest, is a suffix of everything logged. |
| Logging.SuffixOfSuffix | Packages/com.audiocontrol.voicemeeter/Runtime/Scripts/AudioLogger.cs:69-72 | A suffix of a suffix is a suffix of the whole. |
| Logging.ExportLines | Packages/com.audiocontrol.voicemeeter/Runtime/Scripts/AudioLogger.cs:119-134 | Five header lines, with line 2 "Total Entries: <count>", then exactly one line per stored entry, in stored order. |
| Logging.ExportStatesCount | Packages/com.audiocontrol.voicemeeter/Runtime/Scripts/AudioLogger.cs:124 | The "Total Entries" line reads back as the number of entries exported. |
| Logging.RenderSnoc | Packages/com.audiocontrol.voicemeeter/Runtime/Scripts/AudioLogger.cs:128-131 | Appending a line appends it and a line break to the text. |
| Logging.RenderFive | Packages/com.audiocontrol.voicemeeter/Runtime/Scripts/AudioLogger.cs:122-126 | Five AppendLine calls render five lines. |
| Logging.HeaderRendered | Packages/com.audiocontrol.voicemeeter/Runtime/Scripts/AudioLogger.cs:122-126 | The header text is the first five export lines, rendered. |
| Logging.ExportLineSnoc | Packages/com.audiocontrol.voicemeeter/Runtime/Scripts/AudioLogger.cs:128-131 | Each loop step adds entry i's line to the rendered prefix. |
| Logging.AudioLogger.constructor | Packages/com.audiocontrol.voicemeeter/Runtime/Scripts/AudioLogger.cs:50-54 | Empty, with the given maximum (1000 by default). |
| Logging.AudioLogger.Log | Packages/com.audiocontrol.voicemeeter/Runtime/Scripts/AudioLogger.cs:56-94 | The list becomes `Appended(old, entry, max)`, OnLogAdded receives the entry, and the capacity invariant is kept. |
| Logging.AudioLogger.Debug | Packages/com.audiocontrol.voicemeeter/Runtime/Scripts/AudioLogger.cs:96 | Logs at Debug, with context "AudioControl" by default. |
| Logging.AudioLogger.Info | Packages/com.audiocontrol.voicemeeter/Runtime/Scripts/AudioLogger.cs:97 | Logs at Info, with context "AudioControl" by default. |
| Logging.AudioLogger.Warning | Packages/com.audiocontrol.voicemeeter/Runtime/Scripts/AudioLogger.cs:98 | Logs at Warning, with context "AudioControl" by default. |
| Logging.AudioLogger.Error | Packages/com.audiocontrol.voicemeeter/Runtime/Scripts/AudioLogger.cs:99 | Logs at Error, with context "AudioControl" by default. |
| Logging.AudioLogger.LogModeChange | Packages/com.audiocontrol.voicemeeter/Runtime/Scripts/AudioLogger.cs:101-104 | Logs "Mode changed: from -> to" at Info, with context "ModeSwitch". |
| Logging.AudioLogger.LogConnectionChange | Packages/com.audiocontrol.voicemeeter/Runtime/Scripts/AudioLogger.cs:106-109 | Logs "Connected" or "Disconnected" at Info, with context "Connection". |
| Logging.AudioLogger.Clear | Packages/com.audiocontrol.voicemeeter/Runtime/Scripts/AudioLogger.cs:111-114 | Empties the list, and nothing else changes. |
| Logging.AudioLogger.Export | Packages/com.audiocontrol.voicemeeter/Runtime/Scripts/AudioLogger.cs:119-134 | The loop builds exactly the rendering of `ExportLines`: the header, then one line per entry, oldest first. |

Behaviour of the code a reader might not expect, which the model follows as written:

- A successful retry does not reset the attempt counter (AudioOutputController.cs:369-380).
- When the maximum is exceeded, the counter stays at max+1, not max, because it is incremented before the test (AudioOutputController.cs:358-365).
- `Disconnect` on a controller that is not connected returns before clearing `reconnecting`, and it never resets the counter (AudioOutputController.cs:195-204).
- `Connect` does not re-apply a mode (AudioOutputController.cs:169-190). Only `Start` applies the default mode after connecting (AudioOutputController.cs:116-126).

## Left out

- The P/Invoke declarations and DLL loading (VoiceMeeterAPI.cs:17-33). Each call is an oracle answer instead.
- `IsParametersDirty` (VoiceMeeterAPI.cs:217-229): the controller never uses it.
- `SetStripGain` (VoiceMeeterAPI.cs:304-307): it is a float clamp.
- The transport's `_lastConnectionCheck` (VoiceMeeterAPI.cs:42, 77, 146): it is written but never read.
- The entries the controller and the transport write into the shared logger (for example AudioOutputController.cs:173, 184-185, 202, 213; VoiceMeeterAPI.cs:78-180) are not modelled, nor are their Unity console messages. The logger is modelled on its own, so the model does not say how many log entries or OnLogAdded notifications each controller or transport operation causes.
- The logger's Unity console echo and the `enableUnityLog` switch (AudioLogger.cs:75-91).
- `DateTime.Now` and its `HH:mm:ss.fff` / `yyyy-MM-dd HH:mm:ss` formatting. The time is a caller-supplied, already formatted string.
- `Environment.NewLine` is modelled as "\n".
- `Time.time` and the float intervals are integers. Rounding of float time is not captured.
- Parameter values (`Encode`, `Decode`, `ParamRead.value`) are reals, not C# `float`. The code only writes 1 or 0 and tests `> 0.5`, so no behaviour is lost; NaN and float rounding are not modelled.
- The singleton lookup, `Awake`, `OnDestroy`, `DontDestroyOnLoad` and the inspector attributes (AudioOutputController.cs:14-30, 104-114, 147-154).
- Events are traces: adding and removing subscribers is not modelled.
- `SetModeA`, `SetModeB` and `SetModeC` (AudioOutputController.cs:237-247) are `SetMode` with a fixed argument and have no member of their own.
- The demo scene script (Assets/Demo/VoiceMeeterDemo.cs) is not part of this model. It is UI and playback only.
- Concurrency is not modelled: Unity calls these methods from one thread.
- Out-of-range mode values are not modelled: the datatype admits only A, B and C. In C# a cast such as `(AudioOutputMode)3` would pass through `ApplyModeToVoiceMeeter`, whose switch has no default case (AudioOutputController.cs:306-322). It would make no write, return true, set the mode and raise OnModeChanged.
- Controller.AudioOutputController.TryReconnect: the attempt counter is an unbounded integer. The C# `int` would wrap after 2^31 − 1 retries with maximum 0.
- ControllerSpec.Tick: its own contract states only when a tick does nothing. What a tick does otherwise is stated by `TickProbePasses`, `TickWhileDown`, `BoundedRetries`, `ExactlyMaxRetries`, `UnboundedRetries` and `ProbeLossThenRecovery`.
