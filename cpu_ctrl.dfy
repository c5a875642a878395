/** The CPU frequency governor controller: three files under one cpufreq directory. */
module CpuCtrl {
  import opened Common
  import opened Numbers
  import opened Files

  datatype CpuFrequency = Freq1200000 | Freq1600000 | Freq1800000

  datatype CpuCtrlErrorCode =
    | FailedToSetCpuGovernor
    | FailedToSetCpuGovernorPath
    | FailedToGetCpuGovernor
    | FailedToGetCpuFrequency
    | FailedToSetCpuFrequency
    | FailedToSetCpuFrequencyPath

  /** The cpufreq directory of the first CPU, where `CpuCtrl::new` points. */
  const DEFAULT_CPU_FREQUENCY_PATH := "/sys/devices/system/cpu/cpu0/cpufreq"

  /** The only governor this controller ever selects. */
  const USERSPACE_GOVERNOR := "userspace"

  /** The frequency each variant stands for, in kHz. */
  function Kilohertz(f: CpuFrequency): nat
  {
    match f
    case Freq1200000 => 1_200_000
    case Freq1600000 => 1_600_000
    case Freq1800000 => 1_800_000
  }

  /** The text `set_cpu_frequency` writes: the frequency in kHz, in decimal. */
  function FrequencyText(f: CpuFrequency): string
  {
    match f
    case Freq1200000 => "1200000"
    case Freq1600000 => "1600000"
    case Freq1800000 => "1800000"
  }

  /** Each frequency text is the decimal form of the variant's kHz value. */
  lemma FrequencyTextIsKilohertz(f: CpuFrequency)
    ensures FrequencyText(f) == ShowNat(Kilohertz(f))
    ensures AllDigits(FrequencyText(f)) && DigitsValue(FrequencyText(f)) == Kilohertz(f)
  {
    match f
    case Freq1200000 => ShowFreq1200000();
    case Freq1600000 => ShowFreq1600000();
    case Freq1800000 => ShowFreq1800000();
  }

  lemma ShowFreq1200000()
    ensures ShowNat(1_200_000) == "1200000"
  {
    assert ShowNat(12) == "12";
    assert ShowNat(120) == "120";
    assert ShowNat(1200) == "1200";
    assert ShowNat(12000) == "12000";
    assert ShowNat(120000) == "120000";
  }

  lemma ShowFreq1600000()
    ensures ShowNat(1_600_000) == "1600000"
  {
    assert ShowNat(16) == "16";
    assert ShowNat(160) == "160";
    assert ShowNat(1600) == "1600";
    assert ShowNat(16000) == "16000";
    assert ShowNat(160000) == "160000";
  }

  lemma ShowFreq1800000()
    ensures ShowNat(1_800_000) == "1800000"
  {
    assert ShowNat(18) == "18";
    assert ShowNat(180) == "180";
    assert ShowNat(1800) == "1800";
    assert ShowNat(18000) == "18000";
    assert ShowNat(180000) == "180000";
  }

  function GovernorFile(base: string): string
  {
    base + "/scaling_governor"
  }

  function SetSpeedFile(base: string): string
  {
    base + "/scaling_setspeed"
  }

  function CurFreqFile(base: string): string
  {
    base + "/scaling_cur_freq"
  }

  /**
   * The three files are distinct for every base directory, so writing the
   * set-speed file never changes what `get_cpu_frequency` reads, and neither
   * write touches the other's file.
   */
  lemma {:induction false} FilesDistinct(base: string)
    ensures SetSpeedFile(base) != CurFreqFile(base)
    ensures SetSpeedFile(base) != GovernorFile(base)
    ensures GovernorFile(base) != CurFreqFile(base)
  {
    var n := |base|;
    assert SetSpeedFile(base)[n + 9] == 's' && CurFreqFile(base)[n + 9] == 'c';
    assert GovernorFile(base)[n + 9] == 'g';
  }

  class CpuCtrl {
    const cpuFrequencyPath: string

    /** `CpuCtrl::new`. */
    constructor ()
      ensures cpuFrequencyPath == DEFAULT_CPU_FREQUENCY_PATH
    {
      cpuFrequencyPath := DEFAULT_CPU_FREQUENCY_PATH;
    }

    /** `set_cpu_governor`: selects the userspace governor, whatever was there. */
    method SetCpuGovernor(store: FileStore, fault: Fault) returns (r: Result<(), CpuCtrlErrorCode>)
      modifies store
      ensures store.files == AfterWrite(old(store.files), GovernorFile(cpuFrequencyPath), USERSPACE_GOVERNOR, fault)
      ensures r == match fault
                   case NoFault => Ok(())
                   case CreateFails => Err(FailedToSetCpuGovernorPath)
                   case WriteFails => Err(FailedToSetCpuGovernor)
    {
      var written := store.Overwrite(GovernorFile(cpuFrequencyPath), USERSPACE_GOVERNOR, fault);
      match written {
        case Ok(_) => r := Ok(());
        case Err(CreateError) => r := Err(FailedToSetCpuGovernorPath);
        case Err(WriteError) => r := Err(FailedToSetCpuGovernor);
      }
    }

    /** `get_cpu_governor`: the governor file's content, untrimmed. */
    method GetCpuGovernor(store: FileStore) returns (r: Result<string, CpuCtrlErrorCode>)
      ensures GovernorFile(cpuFrequencyPath) in store.files ==> r == Ok(store.files[GovernorFile(cpuFrequencyPath)])
      ensures GovernorFile(cpuFrequencyPath) !in store.files ==> r == Err(FailedToGetCpuGovernor)
    {
      var content := store.Read(GovernorFile(cpuFrequencyPath));
      match content {
        case Some(c) => r := Ok(c);
        case None => r := Err(FailedToGetCpuGovernor);
      }
    }

    /** `get_cpu_frequency`: the current-frequency file's content, untrimmed. */
    method GetCpuFrequency(store: FileStore) returns (r: Result<string, CpuCtrlErrorCode>)
      ensures CurFreqFile(cpuFrequencyPath) in store.files ==> r == Ok(store.files[CurFreqFile(cpuFrequencyPath)])
      ensures CurFreqFile(cpuFrequencyPath) !in store.files ==> r == Err(FailedToGetCpuFrequency)
    {
      var content := store.Read(CurFreqFile(cpuFrequencyPath));
      match content {
        case Some(c) => r := Ok(c);
        case None => r := Err(FailedToGetCpuFrequency);
      }
    }

    /** `set_cpu_frequency`: the kHz text replaces the set-speed file's content. */
    method SetCpuFrequency(store: FileStore, frequency: CpuFrequency, fault: Fault) returns (r: Result<(), CpuCtrlErrorCode>)
      modifies store
      ensures store.files == AfterWrite(old(store.files), SetSpeedFile(cpuFrequencyPath), FrequencyText(frequency), fault)
      ensures r == match fault
                   case NoFault => Ok(())
                   case CreateFails => Err(FailedToSetCpuFrequencyPath)
                   case WriteFails => Err(FailedToSetCpuFrequency)
    {
      var freqText := FrequencyText(frequency);
      var written := store.Overwrite(SetSpeedFile(cpuFrequencyPath), freqText, fault);
      match written {
        case Ok(_) => r := Ok(());
        case Err(CreateError) => r := Err(FailedToSetCpuFrequencyPath);
        case Err(WriteError) => r := Err(FailedToSetCpuFrequency);
      }
    }
  }
}
