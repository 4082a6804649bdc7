/**
 * The optimisation modes (`SettingsDialog::Mode`, include/SettingsDialog.h).
 */
module Modes {
  import opened Win32

  datatype Mode = Light | Medium | Max | Recommend

  /** The DWORD value of each enumerator, as stored in the registry. */
  function ModeValue(m: Mode): (v: u32)
    ensures v <= 3
    ensures m == Recommend <==> v == 3
  {
    match m
    case Light => 0
    case Medium => 1
    case Max => 2
    case Recommend => 3
  }

  /** Distinct modes have distinct values. */
  lemma ModeValueInjective(m1: Mode, m2: Mode)
    ensures ModeValue(m1) == ModeValue(m2) ==> m1 == m2
  {
  }
}
