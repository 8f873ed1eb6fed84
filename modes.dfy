/**
  The output modes (AudioOutputMode) and the codec between a mode and the two
  VoiceMeeter routing flags of one input strip: A1 feeds the headphones, A2
  the speakers.
*/
module Modes {
  import opened Wrappers

  /** Declared in this order, so the C# enum values are 0, 1 and 2. */
  datatype OutputMode = A_HeadphoneOnly | B_HeadphoneAndSpeaker | C_SpeakerOnly

  /** The enum's underlying integer value. */
  function Ordinal(m: OutputMode): (n: nat)
    ensures n < 3
    ensures n == 0 <==> m == A_HeadphoneOnly
    ensures n == 2 <==> m == C_SpeakerOnly
  {
    match m
    case A_HeadphoneOnly => 0
    case B_HeadphoneAndSpeaker => 1
    case C_SpeakerOnly => 2
  }

  /** `default(AudioOutputMode)`: the enum value 0, which an unset mode field holds. */
  const DefaultMode: OutputMode := A_HeadphoneOnly

  /** The name the enum prints as. */
  function ModeName(m: OutputMode): string {
    match m
    case A_HeadphoneOnly => "A_HeadphoneOnly"
    case B_HeadphoneAndSpeaker => "B_HeadphoneAndSpeaker"
    case C_SpeakerOnly => "C_SpeakerOnly"
  }

  /** The (A1, A2) pair of one strip. */
  datatype Flags = Flags(a1: bool, a2: bool)

  /** The routing a mode stands for: A is A1 only, B is both, C is A2 only. */
  function ToFlags(m: OutputMode): (f: Flags)
    ensures f.a1 <==> m != C_SpeakerOnly
    ensures f.a2 <==> m != A_HeadphoneOnly
    ensures f.a1 || f.a2
  {
    match m
    case A_HeadphoneOnly => Flags(true, false)
    case B_HeadphoneAndSpeaker => Flags(true, true)
    case C_SpeakerOnly => Flags(false, true)
  }

  /** The mode a flag pair stands for; (false, false) stands for none. */
  function FromFlags(f: Flags): (r: Option<OutputMode>)
    ensures r == None <==> !f.a1 && !f.a2
    ensures r.Some? ==> ToFlags(r.value) == f
  {
    if f.a1 && !f.a2 then Some(A_HeadphoneOnly)
    else if f.a1 && f.a2 then Some(B_HeadphoneAndSpeaker)
    else if !f.a1 && f.a2 then Some(C_SpeakerOnly)
    else None
  }

  /** Distinct modes route differently. */
  lemma ToFlagsInjective(m: OutputMode, n: OutputMode)
    requires ToFlags(m) == ToFlags(n)
    ensures m == n
  {
  }

  /** Decoding an encoded mode gives the mode back. */
  lemma FromToFlags(m: OutputMode)
    ensures FromFlags(ToFlags(m)) == Some(m)
  {
    ToFlagsInjective(FromFlags(ToFlags(m)).value, m);
  }

  /** Every flag pair but (false, false) is the encoding of some mode. */
  lemma ToFromFlags(f: Flags)
    requires f.a1 || f.a2
    ensures FromFlags(f).Some? && ToFlags(FromFlags(f).value) == f
  {
  }
}
