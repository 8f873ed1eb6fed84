/**
  VoiceMeeterAPI, the static wrapper around the VoicemeeterRemote64 library,
  as an object whose methods update its two flags in place.  Each method is
  proved to have exactly the effect of its counterpart in VoiceMeeterSpec.
*/
module VoiceMeeterApi {
  import opened VoiceMeeterSpec

  class Api {
    var connected: bool
    var dllAvailable: bool
    /** The foreign calls issued so far, oldest first. */
    var calls: seq<ForeignCall>

    function State(): ApiState
      reads this
    {
      ApiState(connected, dllAvailable, calls)
    }

    predicate Valid()
      reads this
    {
      ApiInv(State())
    }

    constructor ()
      ensures Valid() && State() == InitialApi
    {
      connected := false;
      dllAvailable := true;
      calls := [];
    }

    method Login(r: Reply<int>) returns (ok: bool)
      requires Valid()
      modifies this
      ensures Valid()
      ensures Step(State(), ok) == VoiceMeeterSpec.Login(old(State()), r)
    {
      if connected {
        return true;
      }
      if !dllAvailable {
        return false;
      }
      calls := calls + [LoginCall];
      match r {
        case Returned(code) =>
          if code == 0 || code == 1 {
            connected := true;
            ok := true;
          } else {
            ok := false;
          }
        case DllNotFound =>
          dllAvailable := false;
          ok := false;
        case Threw =>
          ok := false;
      }
    }

    method Logout()
      requires Valid()
      modifies this
      ensures Valid()
      ensures State() == VoiceMeeterSpec.Logout(old(State()))
    {
      if !connected {
        return;
      }
      connected := false;
      calls := calls + [LogoutCall];
    }

    method CheckConnection(r: Reply<TypeRead>) returns (valid: bool)
      requires Valid()
      modifies this
      ensures Valid()
      ensures Step(State(), valid) == VoiceMeeterSpec.CheckConnection(old(State()), r)
    {
      if !connected || !dllAvailable {
        return false;
      }
      calls := calls + [TypeCall];
      match r {
        case Returned(answer) =>
          valid := answer.code == 0 && answer.kind > 0;
          if !valid {
            connected := false;
          }
        case _ =>
          connected := false;
          valid := false;
      }
    }

    method SetParameter(name: string, value: real, r: Reply<int>) returns (ok: bool)
      requires Valid()
      modifies this
      ensures Valid()
      ensures Step(State(), ok) == VoiceMeeterSpec.SetParameter(old(State()), name, value, r)
    {
      if !connected {
        return false;
      }
      calls := calls + [SetCall(name, value)];
      ok := r == Returned(0);
    }

    method GetParameter(name: string, r: Reply<ParamRead>) returns (ok: bool, value: real)
      requires Valid()
      modifies this
      ensures Valid()
      ensures Step(State(), (ok, value)) == VoiceMeeterSpec.GetParameter(old(State()), name, r)
    {
      value := 0.0;
      if !connected {
        return false, value;
      }
      calls := calls + [GetCall(name)];
      match r {
        case Returned(answer) =>
          if answer.code != 0 {
            return false, value;
          }
          value := answer.value;
          ok := true;
        case _ =>
          ok := false;
      }
    }

    method GetVoiceMeeterType(r: Reply<TypeRead>) returns (kind: int)
      requires Valid()
      modifies this
      ensures Valid()
      ensures Step(State(), kind) == VoiceMeeterSpec.GetVoiceMeeterType(old(State()), r)
    {
      if !connected {
        return 0;
      }
      calls := calls + [TypeCall];
      match r {
        case Returned(answer) => kind := answer.kind;
        case _ => kind := 0;
      }
    }

    method GetVoiceMeeterTypeName(r: Reply<TypeRead>) returns (name: string)
      requires Valid()
      modifies this
      ensures Valid()
      ensures Step(State(), name) == VoiceMeeterSpec.GetVoiceMeeterTypeName(old(State()), r)
    {
      var kind := GetVoiceMeeterType(r);
      name := TypeName(kind);
    }

    method SetStripA1(strip: int, enabled: bool, r: Reply<int>) returns (ok: bool)
      requires Valid()
      modifies this
      ensures Valid()
      ensures Step(State(), ok) == SetStrip(old(State()), strip, A1, enabled, r)
    {
      ok := SetParameter(ParamName(strip, A1), Encode(enabled), r);
    }

    method SetStripA2(strip: int, enabled: bool, r: Reply<int>) returns (ok: bool)
      requires Valid()
      modifies this
      ensures Valid()
      ensures Step(State(), ok) == SetStrip(old(State()), strip, A2, enabled, r)
    {
      ok := SetParameter(ParamName(strip, A2), Encode(enabled), r);
    }

    method SetStripA3(strip: int, enabled: bool, r: Reply<int>) returns (ok: bool)
      requires Valid()
      modifies this
      ensures Valid()
      ensures Step(State(), ok) == SetStrip(old(State()), strip, A3, enabled, r)
    {
      ok := SetParameter(ParamName(strip, A3), Encode(enabled), r);
    }

    method SetStripMute(strip: int, muted: bool, r: Reply<int>) returns (ok: bool)
      requires Valid()
      modifies this
      ensures Valid()
      ensures Step(State(), ok) == SetStrip(old(State()), strip, Mute, muted, r)
    {
      ok := SetParameter(ParamName(strip, Mute), Encode(muted), r);
    }

    method GetStripA1(strip: int, r: Reply<ParamRead>) returns (on: bool)
      requires Valid()
      modifies this
      ensures Valid()
      ensures Step(State(), on) == GetStrip(old(State()), strip, A1, r)
    {
      var ok, value := GetParameter(ParamName(strip, A1), r);
      on := ok && value > 0.5;
    }

    method GetStripA2(strip: int, r: Reply<ParamRead>) returns (on: bool)
      requires Valid()
      modifies this
      ensures Valid()
      ensures Step(State(), on) == GetStrip(old(State()), strip, A2, r)
    {
      var ok, value := GetParameter(ParamName(strip, A2), r);
      on := ok && value > 0.5;
    }

    method GetStripA3(strip: int, r: Reply<ParamRead>) returns (on: bool)
      requires Valid()
      modifies this
      ensures Valid()
      ensures Step(State(), on) == GetStrip(old(State()), strip, A3, r)
    {
      var ok, value := GetParameter(ParamName(strip, A3), r);
      on := ok && value > 0.5;
    }
  }
}
