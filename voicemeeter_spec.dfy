/**
  The VoiceMeeter Remote transport (VoiceMeeterAPI) as functions on its state:
  its own connected flag, the "library available" flag, and the trace of
  foreign calls it has issued.  Every foreign call is an oracle: the engine's
  answer is a parameter, which may be any return value, a missing-library
  exception or any other exception.
*/
module VoiceMeeterSpec {
  import opened Text

  /** What one foreign call did: returned a value, or raised an exception. */
  datatype Reply<T> = Returned(value: T) | DllNotFound | Threw

  /** The answer of VBVMR_GetParameterFloat: its status code and the float it wrote. */
  datatype ParamRead = ParamRead(code: int, value: real)

  /** The answer of VBVMR_GetVoicemeeterType: its status code and the type it wrote. */
  datatype TypeRead = TypeRead(code: int, kind: int)

  /** A foreign call as the engine sees it. */
  datatype ForeignCall =
    | LoginCall
    | LogoutCall
    | SetCall(name: string, value: real)
    | GetCall(name: string)
    | TypeCall

  datatype ApiState = ApiState(connected: bool, dllAvailable: bool, calls: seq<ForeignCall>)

  /** The static fields' initial values; no call issued yet. */
  const InitialApi := ApiState(false, true, [])

  /** A transport state together with what an operation returned. */
  datatype Step<T> = Step(next: ApiState, out: T)

  /** The transport is never connected once the library is known to be missing. */
  predicate ApiInv(s: ApiState) {
    !s.dllAvailable ==> !s.connected
  }

  // ---------------------------------------------------------------- session

  /** Login succeeds on result code 0 (running) or 1 (engine being launched). */
  predicate LoginCodeOk(code: int) {
    code == 0 || code == 1
  }

  function Login(s: ApiState, r: Reply<int>): (res: Step<bool>)
    ensures res.out <==> res.next.connected
    ensures s.connected ==> res == Step(s, true)
    ensures !s.connected && !s.dllAvailable ==> res == Step(s, false)
    ensures !s.connected && s.dllAvailable ==>
              && res.next.calls == s.calls + [LoginCall]
              && (res.out <==> r.Returned? && LoginCodeOk(r.value))
              && (res.next.dllAvailable <==> !r.DllNotFound?)
    ensures res.next.dllAvailable ==> s.dllAvailable
    ensures ApiInv(s) ==> ApiInv(res.next)
  {
    if s.connected then Step(s, true)
    else if !s.dllAvailable then Step(s, false)
    else
      var t := s.(calls := s.calls + [LoginCall]);
      match r
      case Returned(code) =>
        if LoginCodeOk(code) then Step(t.(connected := true), true) else Step(t, false)
      case DllNotFound => Step(t.(dllAvailable := false), false)
      case Threw => Step(t, false)
  }

  /**
    Logout marks the session closed before the foreign call; the call's
    result is discarded and its exceptions are caught, so its answer does not
    matter.
  */
  function Logout(s: ApiState): (t: ApiState)
    ensures !t.connected
    ensures !s.connected ==> t == s
    ensures s.connected ==> t.calls == s.calls + [LogoutCall]
    ensures t.dllAvailable == s.dllAvailable
  {
    if !s.connected then s else ApiState(false, s.dllAvailable, s.calls + [LogoutCall])
  }

  /** The liveness probe: the engine must answer code 0 and a positive type. */
  function CheckConnection(s: ApiState, r: Reply<TypeRead>): (res: Step<bool>)
    ensures res.out <==> s.connected && s.dllAvailable && r.Returned? && r.value.code == 0 && r.value.kind > 0
    ensures res.out ==> res.next.connected
    ensures ApiInv(s) && !res.out ==> !res.next.connected
    ensures !s.connected || !s.dllAvailable ==> res.next == s
    ensures s.connected && s.dllAvailable ==> res.next.calls == s.calls + [TypeCall]
    ensures res.next.dllAvailable == s.dllAvailable
    ensures res.next.connected ==> s.connected
  {
    if !s.connected || !s.dllAvailable then Step(s, false)
    else
      var t := s.(calls := s.calls + [TypeCall]);
      match r
      case Returned(tr) =>
        var valid := tr.code == 0 && tr.kind > 0;
        Step(if valid then t else t.(connected := false), valid)
      case _ => Step(t.(connected := false), false)
  }

  // ------------------------------------------------------------- parameters

  /** Writing a float parameter succeeds only when connected and the engine answers 0. */
  function SetParameter(s: ApiState, name: string, value: real, r: Reply<int>): (res: Step<bool>)
    ensures res.out <==> s.connected && r == Returned(0)
    ensures !s.connected ==> res.next == s
    ensures s.connected ==> res.next.calls == s.calls + [SetCall(name, value)]
    ensures res.next.connected == s.connected && res.next.dllAvailable == s.dllAvailable
  {
    if !s.connected then Step(s, false)
    else Step(s.(calls := s.calls + [SetCall(name, value)]), r == Returned(0))
  }

  /** Reading a float parameter: (success, value); the value is 0 on any failure. */
  function GetParameter(s: ApiState, name: string, r: Reply<ParamRead>): (res: Step<(bool, real)>)
    ensures res.out.0 <==> s.connected && r.Returned? && r.value.code == 0
    ensures res.out.0 ==> res.out.1 == r.value.value
    ensures !res.out.0 ==> res.out.1 == 0.0
    ensures !s.connected ==> res.next == s
    ensures s.connected ==> res.next.calls == s.calls + [GetCall(name)]
    ensures res.next.connected == s.connected && res.next.dllAvailable == s.dllAvailable
  {
    if !s.connected then Step(s, (false, 0.0))
    else
      var t := s.(calls := s.calls + [GetCall(name)]);
      match r
      case Returned(pr) => if pr.code != 0 then Step(t, (false, 0.0)) else Step(t, (true, pr.value))
      case _ => Step(t, (false, 0.0))
  }

  /** The engine type, or 0 when disconnected or the call raised; the status code is ignored. */
  function GetVoiceMeeterType(s: ApiState, r: Reply<TypeRead>): (res: Step<int>)
    ensures !s.connected ==> res == Step(s, 0)
    ensures s.connected ==> res.next.calls == s.calls + [TypeCall]
    ensures s.connected && r.Returned? ==> res.out == r.value.kind
    ensures !r.Returned? ==> res.out == 0
    ensures res.next.connected == s.connected && res.next.dllAvailable == s.dllAvailable
  {
    if !s.connected then Step(s, 0)
    else
      var t := s.(calls := s.calls + [TypeCall]);
      match r
      case Returned(tr) => Step(t, tr.kind)
      case _ => Step(t, 0)
  }

  /** The product name of an engine type. */
  function TypeName(kind: int): (name: string)
    ensures name == "Unknown" <==> kind != 1 && kind != 2 && kind != 3
    ensures kind == 1 ==> name == "VoiceMeeter"
    ensures kind == 2 ==> name == "VoiceMeeter Banana"
    ensures kind == 3 ==> name == "VoiceMeeter Potato"
  {
    match kind
    case 1 => "VoiceMeeter"
    case 2 => "VoiceMeeter Banana"
    case 3 => "VoiceMeeter Potato"
    case _ => "Unknown"
  }

  function GetVoiceMeeterTypeName(s: ApiState, r: Reply<TypeRead>): (res: Step<string>)
    ensures !s.connected ==> res == Step(s, "Unknown")
    ensures s.connected ==> res.next.calls == s.calls + [TypeCall]
    ensures s.connected && r.Returned? ==> res.out == TypeName(r.value.kind)
    ensures res.out != "Unknown" <==> s.connected && r.Returned? && 1 <= r.value.kind <= 3
    ensures res.next.connected == s.connected && res.next.dllAvailable == s.dllAvailable
  {
    var t := GetVoiceMeeterType(s, r);
    Step(t.next, TypeName(t.out))
  }

  // ------------------------------------------------------------ strip helpers

  datatype StripFlag = A1 | A2 | A3 | Mute

  function FlagName(f: StripFlag): string {
    match f
    case A1 => "A1"
    case A2 => "A2"
    case A3 => "A3"
    case Mute => "Mute"
  }

  /** The parameter name `Strip[<index>].<flag>`. */
  function ParamName(strip: int, flag: StripFlag): string {
    "Strip[" + IntToString(strip) + "]." + FlagName(flag)
  }

  /** Two strings that agree up to their first ']' have equal parts before and after it. */
  lemma SplitAtBracket(a: string, x: string, b: string, y: string)
    requires forall k :: 0 <= k < |a| ==> a[k] != ']'
    requires forall k :: 0 <= k < |b| ==> b[k] != ']'
    requires a + "]" + x == b + "]" + y
    ensures a == b && x == y
  {
    var n := if |a| < |b| then |a| else |b|;
    assert (a + "]" + x)[n] == (b + "]" + y)[n];
    assert a == (a + "]" + x)[..|a|];
    assert b == (b + "]" + y)[..|b|];
    assert x == (a + "]" + x)[|a| + 1..];
    assert y == (b + "]" + y)[|b| + 1..];
  }

  /** The index and flag of a parameter name, split at the prefix. */
  lemma ParamNameTail(strip: int, flag: StripFlag)
    ensures ParamName(strip, flag)[6..] == IntToString(strip) + "]" + ("." + FlagName(flag))
  {
    assert ParamName(strip, flag) == "Strip[" + (IntToString(strip) + "]" + ("." + FlagName(flag)));
  }

  /** Distinct (strip, flag) pairs address distinct parameters. */
  lemma ParamNameInjective(i: int, f: StripFlag, j: int, g: StripFlag)
    requires ParamName(i, f) == ParamName(j, g)
    ensures i == j && f == g
  {
    ParamNameTail(i, f);
    ParamNameTail(j, g);
    SplitAtBracket(IntToString(i), "." + FlagName(f), IntToString(j), "." + FlagName(g));
    IntToStringInjective(i, j);
    assert FlagName(f) == ("." + FlagName(f))[1..] == ("." + FlagName(g))[1..] == FlagName(g);
  }

  /** A boolean is written as the float 1 or 0. */
  function Encode(enabled: bool): (v: real)
    ensures v == 0.0 || v == 1.0
    ensures v > 0.5 <==> enabled
  {
    if enabled then 1.0 else 0.0
  }

  /** A float read back means "on" when it is above 0.5. */
  predicate Decode(v: real) {
    v > 0.5
  }

  function SetStrip(s: ApiState, strip: int, flag: StripFlag, enabled: bool, r: Reply<int>): (res: Step<bool>)
    ensures res.out <==> s.connected && r == Returned(0)
    ensures !s.connected ==> res.next == s
    ensures s.connected ==> res.next.calls == s.calls + [SetCall(ParamName(strip, flag), Encode(enabled))]
    ensures res.next.connected == s.connected && res.next.dllAvailable == s.dllAvailable
  {
    SetParameter(s, ParamName(strip, flag), Encode(enabled), r)
  }

  /** A strip flag reads as on only when the read succeeds and the value is above 0.5. */
  function GetStrip(s: ApiState, strip: int, flag: StripFlag, r: Reply<ParamRead>): (res: Step<bool>)
    ensures res.out <==> s.connected && r.Returned? && r.value.code == 0 && r.value.value > 0.5
    ensures res.next == GetParameter(s, ParamName(strip, flag), r).next
  {
    var g := GetParameter(s, ParamName(strip, flag), r);
    Step(g.next, g.out.0 && Decode(g.out.1))
  }

  /**
    The value most recently sent to parameter `name` in a call trace, or 0
    when none was sent: what an engine that stores every write it receives
    holds for that parameter.
  */
  function LastWrite(calls: seq<ForeignCall>, name: string): real
    decreases |calls|
  {
    if calls == [] then 0.0
    else match calls[|calls| - 1]
      case SetCall(n, v) => if n == name then v else LastWrite(calls[..|calls| - 1], name)
      case _ => LastWrite(calls[..|calls| - 1], name)
  }

  /** The value of a write is what the parameter then holds. */
  lemma LastWriteOfWrite(calls: seq<ForeignCall>, name: string, value: real)
    ensures LastWrite(calls + [SetCall(name, value)], name) == value
  {
  }

  /** A later call that is not a write to `name` leaves the value `name` holds as it was. */
  lemma LastWriteOfOther(calls: seq<ForeignCall>, name: string, c: ForeignCall)
    requires !(c.SetCall? && c.name == name)
    ensures LastWrite(calls + [c], name) == LastWrite(calls, name)
  {
    assert (calls + [c])[..|calls|] == calls;
  }

  /**
    An engine that accepts the write and stores it reads back the flag that
    was written: the read returns the value the trace last sent to that
    parameter, whatever the strip held before.
  */
  lemma StripRoundTrip(s: ApiState, strip: int, flag: StripFlag, enabled: bool)
    requires s.connected
    ensures var t := SetStrip(s, strip, flag, enabled, Returned(0));
      && t.out
      && GetStrip(t.next, strip, flag,
                  Returned(ParamRead(0, LastWrite(t.next.calls, ParamName(strip, flag))))).out == enabled
  {
    LastWriteOfWrite(s.calls, ParamName(strip, flag), Encode(enabled));
  }

  // ------------------------------------------------------------ permanence

  /** Any one transport operation, with the engine's answer to its foreign call. */
  datatype ApiOp =
    | DoLogin(login: Reply<int>)
    | DoLogout
    | DoCheck(probe: Reply<TypeRead>)
    | DoSet(name: string, value: real, write: Reply<int>)
    | DoGet(name: string, read: Reply<ParamRead>)
    | DoType(query: Reply<TypeRead>)

  function Apply(s: ApiState, op: ApiOp): ApiState {
    match op
    case DoLogin(r) => Login(s, r).next
    case DoLogout => Logout(s)
    case DoCheck(r) => CheckConnection(s, r).next
    case DoSet(n, v, r) => SetParameter(s, n, v, r).next
    case DoGet(n, r) => GetParameter(s, n, r).next
    case DoType(r) => GetVoiceMeeterType(s, r).next
  }

  function Run(s: ApiState, ops: seq<ApiOp>): ApiState
    decreases |ops|
  {
    if ops == [] then s else Run(Apply(s, ops[0]), ops[1..])
  }

  /** Every transport operation keeps the invariant. */
  lemma ApplyKeepsInv(s: ApiState, op: ApiOp)
    requires ApiInv(s)
    ensures ApiInv(Apply(s, op))
  {
  }

  /**
    Once a login has found the library missing, nothing sets the flag back:
    after any further operations the transport is still marked unavailable,
    still disconnected, and no further login call has reached the engine.
  */
  lemma {:induction false} DllLossIsPermanent(s: ApiState, ops: seq<ApiOp>)
    requires !s.dllAvailable && !s.connected
    ensures var t := Run(s, ops);
      && !t.dllAvailable && !t.connected
      && |t.calls| >= |s.calls| && t.calls[..|s.calls|] == s.calls
      && forall k :: |s.calls| <= k < |t.calls| ==> t.calls[k] != LoginCall
    decreases |ops|
  {
    if ops != [] {
      var s1 := Apply(s, ops[0]);
      DllLossIsPermanent(s1, ops[1..]);
      var t := Run(s1, ops[1..]);
      assert s1.calls == s.calls;
      assert t == Run(s, ops);
    }
  }

  /** After a missing-library failure, any number of further logins fail at once. */
  lemma {:induction false} LoginAfterDllLossFails(s: ApiState, r: Reply<int>, later: seq<Reply<int>>)
    requires !s.connected && s.dllAvailable && r == DllNotFound
    ensures var t := Login(s, r).next;
      && !t.dllAvailable
      && forall k :: 0 <= k < |later| ==> Login(t, later[k]) == Step(t, false)
  {
  }
}
