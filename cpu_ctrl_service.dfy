/** The CPU governor gRPC service: decodes MHz strings and forwards to the controller. */
module CpuCtrlService {
  import opened Common
  import opened Numbers
  import opened Files
  import opened Grpc
  import opened CpuCtrl

  const INVALID_FREQUENCY := "Invalid CPU frequency value"

  /** The `match` of `set_cpu_frequency`: only "1200", "1600" and "1800" (MHz). */
  function DecodeFrequency(mhz: string): (r: Option<CpuFrequency>)
    ensures r.Some? <==> mhz in {"1200", "1600", "1800"}
    ensures r.Some? ==> FrequencyText(r.value) == mhz + "000"
  {
    match mhz
    case "1200" => Some(Freq1200000)
    case "1600" => Some(Freq1600000)
    case "1800" => Some(Freq1800000)
    case _ => None
  }

  /** Appending "000" to decimal digits multiplies their value by 1000. */
  lemma {:induction false} AppendThousand(s: string)
    requires AllDigits(s)
    ensures AllDigits(s + "000") && DigitsValue(s + "000") == DigitsValue(s) * 1000
  {
    assert (s + "0")[..|s|] == s;
    assert DigitsValue(s + "0") == DigitsValue(s) * 10;
    assert (s + "00")[..|s| + 1] == s + "0";
    assert DigitsValue(s + "00") == DigitsValue(s + "0") * 10;
    assert (s + "000")[..|s| + 2] == s + "00";
    assert DigitsValue(s + "000") == DigitsValue(s + "00") * 10;
  }

  /** An accepted MHz value is written as the same frequency in kHz. */
  lemma {:induction false} MegahertzToKilohertz(mhz: string)
    requires DecodeFrequency(mhz).Some?
    ensures AllDigits(mhz) && Kilohertz(DecodeFrequency(mhz).value) == DigitsValue(mhz) * 1000
  {
    var f := DecodeFrequency(mhz).value;
    assert AllDigits(mhz);
    AppendThousand(mhz);
    FrequencyTextIsKilohertz(f);
    assert FrequencyText(f) == mhz + "000";
  }

  /** `get_governor`: the controller's string, or its error as a status. */
  method GetGovernor(ctrl: CpuCtrl, store: FileStore) returns (r: Reply<string, CpuCtrlErrorCode>)
    ensures var file := GovernorFile(ctrl.cpuFrequencyPath);
            r == if file in store.files then Response(store.files[file]) else Refused(FromError(FailedToGetCpuGovernor))
  {
    var governor := ctrl.GetCpuGovernor(store);
    match governor {
      case Ok(g) => r := Response(g);
      case Err(e) => r := Refused(FromError(e));
    }
  }

  /** `set_governor`: the requested governor is ignored; "userspace" is always written. */
  method SetGovernor(ctrl: CpuCtrl, store: FileStore, governor: string, fault: Fault) returns (r: Reply<Empty, CpuCtrlErrorCode>)
    modifies store
    ensures store.files == AfterWrite(old(store.files), GovernorFile(ctrl.cpuFrequencyPath), USERSPACE_GOVERNOR, fault)
    ensures r == match fault
                 case NoFault => Response(Empty)
                 case CreateFails => Refused(FromError(FailedToSetCpuGovernorPath))
                 case WriteFails => Refused(FromError(FailedToSetCpuGovernor))
  {
    var result := ctrl.SetCpuGovernor(store, fault);
    match result {
      case Ok(_) => r := Response(Empty);
      case Err(e) => r := Refused(FromError(e));
    }
  }

  /** `get_cpu_frequency`: the controller's string, or its error as a status. */
  method GetCpuFrequency(ctrl: CpuCtrl, store: FileStore) returns (r: Reply<string, CpuCtrlErrorCode>)
    ensures var file := CurFreqFile(ctrl.cpuFrequencyPath);
            r == if file in store.files then Response(store.files[file]) else Refused(FromError(FailedToGetCpuFrequency))
  {
    var frequency := ctrl.GetCpuFrequency(store);
    match frequency {
      case Ok(f) => r := Response(f);
      case Err(e) => r := Refused(FromError(e));
    }
  }

  /**
   * `set_cpu_frequency`: an unknown MHz string is refused and nothing is
   * written; an accepted one is written, followed by "000", to the set-speed file.
   */
  method SetCpuFrequency(ctrl: CpuCtrl, store: FileStore, frequency: string, fault: Fault) returns (r: Reply<Empty, CpuCtrlErrorCode>)
    modifies store
    ensures DecodeFrequency(frequency).None? ==>
              r == Refused(InvalidArgument(INVALID_FREQUENCY)) && store.files == old(store.files)
    ensures DecodeFrequency(frequency).Some? ==>
              && store.files == AfterWrite(old(store.files), SetSpeedFile(ctrl.cpuFrequencyPath), frequency + "000", fault)
              && r == match fault
                      case NoFault => Response(Empty)
                      case CreateFails => Refused(FromError(FailedToSetCpuFrequencyPath))
                      case WriteFails => Refused(FromError(FailedToSetCpuFrequency))
  {
    var decoded := DecodeFrequency(frequency);
    if decoded.None? {
      return Refused(InvalidArgument(INVALID_FREQUENCY));
    }
    var result := ctrl.SetCpuFrequency(store, decoded.value, fault);
    match result {
      case Ok(_) => r := Response(Empty);
      case Err(e) => r := Refused(FromError(e));
    }
  }
}
