/**
 * The TrustZone controller: command lines for the OPTIGA Trust M tools,
 * and the rules that turn a tool's outcome into a result. Running a tool
 * and reading a file are parameters: `exec` gives the outcome of a command
 * line, `read` the content of a file (`None` when it cannot be read).
 */
module TrustCtrl {
  import opened Common
  import opened Numbers

  datatype KeyType = Auth | Enc | HFWU | DevM | Sign | Agmt

  datatype KeySize = ECC256 | ECC384 | ECC521 | BRAINPOOL256 | BRAINPOOL384 | BRAINPOOL512

  datatype TrustZoneCtrlErrorCode =
    | UnableToReadTrustZoneCert
    | FileReadError
    | UnableToWriteTrustZoneCert
    | UnableToRemoveTrustZoneCert
    | UnableToGenrateToken
    | UnableToSignTrust
    | UnableToSignTrustZoneData
    | UnableToVerifyToken
    | UnableToVerifyTrustZoneData
    | UnableToGenerateTrustZoneKey
    | UnableToReadTrustDeviceKey
    | UnableToGenerateTrustZoneHMAC
    | UnableToDeriveTrustZoneKey
    | UnableToDecryptTrust
    | UnableToEncryptTrust

  /** What `Command::output()` gives: a spawn error, or the exit status. */
  datatype ToolRun = SpawnFailed | Exited(success: bool)

  /** `TrustZoneCtrl::new()`'s path; the tool paths below spell it out. */
  const TRUST_M_DIR := "/MECHA_TEST/optiga_trust_m"
  const CERT_TOOL := "/MECHA_TEST/optiga_trust_m/trustm_cert"
  const KEYGEN_TOOL := "/MECHA_TEST/optiga_trust_m/trustm_ecc_keygen"
  const SIGN_TOOL := "/MECHA_TEST/optiga_trust_m/trustm_ecc_sign"
  const VERIFY_TOOL := "/MECHA_TEST/optiga_trust_m/trustm_ecc_verify"
  const HKDF_TOOL := "/MECHA_TEST/optiga_trust_m/trustm_hkdf"
  const HMAC_TOOL := "/MECHA_TEST/optiga_trust_m/trustm_hmac"
  const ENCRYPT_DEVICE := "/dev/trustzone_encrypt"
  const DECRYPT_DEVICE := "/dev/trustzone_decrypt"
  const VERIFY_SUCCESS := "Verify Success."

  // ---------------------------------------------------------------------
  // Flags

  /** A key type's position in its declaration, as the proto numbers it. */
  function KeyTypeOrdinal(t: KeyType): nat
  {
    match t
    case Auth => 0
    case Enc => 1
    case HFWU => 2
    case DevM => 3
    case Sign => 4
    case Agmt => 5
  }

  /** A key size's position in its declaration, as the proto numbers it. */
  function KeySizeOrdinal(s: KeySize): nat
  {
    match s
    case ECC256 => 0
    case ECC384 => 1
    case ECC521 => 2
    case BRAINPOOL256 => 3
    case BRAINPOOL384 => 4
    case BRAINPOOL512 => 5
  }

  function KeyTypeFlag(t: KeyType): string
  {
    match t
    case Auth => "0x01"
    case Enc => "0x02"
    case HFWU => "0x04"
    case DevM => "0x08"
    case Sign => "0x10"
    case Agmt => "0x20"
  }

  function KeySizeFlag(s: KeySize): string
  {
    match s
    case ECC256 => "0x03"
    case ECC384 => "0x04"
    case ECC521 => "0x05"
    case BRAINPOOL256 => "0x13"
    case BRAINPOOL384 => "0x15"
    case BRAINPOOL512 => "0x16"
  }

  /** A flag is "0x" and two uppercase hex digits; its value is theirs. */
  predicate IsByteFlag(flag: string)
  {
    |flag| == 4 && flag[..2] == "0x" && AllUpperHex(flag[2..])
  }

  function FlagValue(flag: string): nat
    requires IsByteFlag(flag)
  {
    HexValue(flag[2..])
  }

  function Pow2(k: nat): (p: nat)
    ensures p >= 1
  {
    if k == 0 then 1 else 2 * Pow2(k - 1)
  }

  /** The value of a two-digit flag that is written with decimal digits only. */
  lemma TwoDigitHex(flag: string)
    requires |flag| == 4 && flag[..2] == "0x" && '0' <= flag[2] <= '9' && '0' <= flag[3] <= '9'
    ensures IsByteFlag(flag)
    ensures FlagValue(flag) == 16 * (flag[2] as int - '0' as int) + (flag[3] as int - '0' as int)
  {
    var h := flag[2..];
    assert h == [flag[2], flag[3]];
    assert AllUpperHex(h) && AllUpperHex([flag[2]]);
    assert h[..|h| - 1] == [flag[2]] && [flag[2]][..0] == [];
    assert HexValue([flag[2]]) == HexDigitValue(flag[2]);
    assert HexValue(h) == HexDigitValue(flag[2]) * 16 + HexDigitValue(flag[3]);
  }

  /**
   * Key type flags are single bits: the type declared k-th has flag 2^k,
   * so the six flags are distinct bits 0x01 to 0x20.
   */
  lemma KeyTypeFlagIsBit(t: KeyType)
    ensures IsByteFlag(KeyTypeFlag(t)) && FlagValue(KeyTypeFlag(t)) == Pow2(KeyTypeOrdinal(t))
  {
    var f := KeyTypeFlag(t);
    match t
    case Auth => TwoDigitHex(f);
    case Enc => TwoDigitHex(f);
    case HFWU => TwoDigitHex(f);
    case DevM => TwoDigitHex(f);
    case Sign => TwoDigitHex(f);
    case Agmt => TwoDigitHex(f);
  }

  /** Distinct key types have distinct flags. */
  lemma KeyTypeFlagsDistinct(t1: KeyType, t2: KeyType)
    requires t1 != t2
    ensures KeyTypeFlag(t1) != KeyTypeFlag(t2)
  {
    KeyTypeFlagIsBit(t1);
    KeyTypeFlagIsBit(t2);
    assert KeyTypeOrdinal(t1) != KeyTypeOrdinal(t2);
    assert Pow2(1) == 2 && Pow2(2) == 4 && Pow2(3) == 8 && Pow2(4) == 16 && Pow2(5) == 32;
  }

  /** The key size flags are the values 0x03, 0x04, 0x05, 0x13, 0x15 and 0x16. */
  lemma KeySizeFlagValue(s: KeySize)
    ensures IsByteFlag(KeySizeFlag(s))
    ensures FlagValue(KeySizeFlag(s)) == match s
                                         case ECC256 => 0x03
                                         case ECC384 => 0x04
                                         case ECC521 => 0x05
                                         case BRAINPOOL256 => 0x13
                                         case BRAINPOOL384 => 0x15
                                         case BRAINPOOL512 => 0x16
  {
    var f := KeySizeFlag(s);
    match s
    case ECC256 => TwoDigitHex(f);
    case ECC384 => TwoDigitHex(f);
    case ECC521 => TwoDigitHex(f);
    case BRAINPOOL256 => TwoDigitHex(f);
    case BRAINPOOL384 => TwoDigitHex(f);
    case BRAINPOOL512 => TwoDigitHex(f);
  }

  /** Distinct key sizes have distinct flags. */
  lemma KeySizeFlagsDistinct(s1: KeySize, s2: KeySize)
    requires s1 != s2
    ensures KeySizeFlag(s1) != KeySizeFlag(s2)
  {
    KeySizeFlagValue(s1);
    KeySizeFlagValue(s2);
  }

  // ---------------------------------------------------------------------
  // Command lines, and how a tool reads them

  /**
   * The value given to switch `sw`: a tool reads its arguments as
   * switch/value pairs after the program name, so the first pair whose
   * switch is `sw` gives it; a trailing switch has no value.
   */
  function SwitchValueFrom(args: seq<string>, sw: string, i: nat): Option<string>
    decreases |args| - i
  {
    if i >= |args| then None
    else if args[i] == sw then (if i + 1 < |args| then Some(args[i + 1]) else None)
    else SwitchValueFrom(args, sw, i + 2)
  }

  function SwitchValue(args: seq<string>, sw: string): Option<string>
  {
    SwitchValueFrom(args, sw, 1)
  }

  /** The switches of a command line: the entries at positions 1, 3, 5, … */
  function Switches(args: seq<string>): (r: seq<string>)
    ensures |r| == |args| / 2
    ensures forall k :: 0 <= k < |r| ==> r[k] == args[2 * k + 1]
  {
    seq(|args| / 2, k requires 0 <= k < |args| / 2 => args[2 * k + 1])
  }

  /** The switch at odd position `j` is the first `sw`, so its value is the next entry. */
  lemma {:induction false} SwitchValueIs(args: seq<string>, sw: string, j: nat)
    requires j % 2 == 1 && j + 1 < |args| && args[j] == sw
    requires forall k :: 0 <= k < j && k % 2 == 1 ==> args[k] != sw
    ensures SwitchValue(args, sw) == Some(args[j + 1])
  {
    var i := 1;
    while i < j
      invariant i % 2 == 1 && i <= j
      invariant SwitchValueFrom(args, sw, i) == SwitchValueFrom(args, sw, 1)
    {
      i := i + 2;
    }
  }

  function ReadCertArgs(outputFile: string, region: string): seq<string>
  {
    [CERT_TOOL, "-r", region, "-o", outputFile]
  }

  function WriteCertArgs(certFile: string, oid: string): seq<string>
  {
    [CERT_TOOL, "-w", oid, "-i", certFile]
  }

  function RemoveCertArgs(oid: string): seq<string>
  {
    [CERT_TOOL, "-c", oid]
  }

  function KeygenArgs(oid: string, keyType: KeyType, keySize: KeySize, outputFile: string): seq<string>
  {
    [KEYGEN_TOOL, "-g", oid, "-t", KeyTypeFlag(keyType), "-k", KeySizeFlag(keySize), "-o", outputFile]
  }

  function HkdfArgs(secretOid: string, hkdfType: u16, infoFile: string, saltFile: string, outputFile: string): seq<string>
  {
    [HKDF_TOOL, "-i", secretOid, "-H", FormatHex06(hkdfType), "-f", infoFile, "-s", saltFile, "-o", outputFile]
  }

  function HmacArgs(secretOid: string, hmacType: u16, inputData: string, outputFile: string): seq<string>
  {
    [HMAC_TOOL, "-I", secretOid, "-H", FormatHex06(hmacType), "-i", inputData, "-o", outputFile]
  }

  /** `trustm_cert` reads the region to read, or write, or clear, and the file. */
  lemma CertArgsRead(outputFile: string, region: string, certFile: string, oid: string)
    ensures SwitchValue(ReadCertArgs(outputFile, region), "-r") == Some(region)
    ensures SwitchValue(ReadCertArgs(outputFile, region), "-o") == Some(outputFile)
    ensures SwitchValue(WriteCertArgs(certFile, oid), "-w") == Some(oid)
    ensures SwitchValue(WriteCertArgs(certFile, oid), "-i") == Some(certFile)
    ensures SwitchValue(RemoveCertArgs(oid), "-c") == Some(oid)
  {
    SwitchValueIs(ReadCertArgs(outputFile, region), "-r", 1);
    SwitchValueIs(ReadCertArgs(outputFile, region), "-o", 3);
    SwitchValueIs(WriteCertArgs(certFile, oid), "-w", 1);
    SwitchValueIs(WriteCertArgs(certFile, oid), "-i", 3);
    SwitchValueIs(RemoveCertArgs(oid), "-c", 1);
  }

  /** `trustm_ecc_keygen` reads the oid, the type and size flags and the output file, in that order. */
  lemma KeygenArgsRead(oid: string, keyType: KeyType, keySize: KeySize, outputFile: string)
    ensures var args := KeygenArgs(oid, keyType, keySize, outputFile);
            |args| == 9 && args[0] == KEYGEN_TOOL && Switches(args) == ["-g", "-t", "-k", "-o"] &&
            SwitchValue(args, "-g") == Some(oid) && SwitchValue(args, "-t") == Some(KeyTypeFlag(keyType)) &&
            SwitchValue(args, "-k") == Some(KeySizeFlag(keySize)) && SwitchValue(args, "-o") == Some(outputFile)
  {
    var args := KeygenArgs(oid, keyType, keySize, outputFile);
    assert Switches(args) == ["-g", "-t", "-k", "-o"];
    SwitchValueIs(args, "-g", 1);
    SwitchValueIs(args, "-t", 3);
    SwitchValueIs(args, "-k", 5);
    SwitchValueIs(args, "-o", 7);
  }

  /** The hkdf and hmac tools read the type as "0x" and four uppercase hex digits of the `u16`. */
  lemma HexTypeArgRead(secretOid: string, t: u16, infoFile: string, saltFile: string, inputData: string, outputFile: string)
    ensures var h := SwitchValue(HkdfArgs(secretOid, t, infoFile, saltFile, outputFile), "-H");
            h.Some? && |h.value| == 6 && h.value[..2] == "0x" && AllUpperHex(h.value[2..]) && HexValue(h.value[2..]) == t
    ensures SwitchValue(HmacArgs(secretOid, t, inputData, outputFile), "-H") ==
            SwitchValue(HkdfArgs(secretOid, t, infoFile, saltFile, outputFile), "-H")
    ensures SwitchValue(HkdfArgs(secretOid, t, infoFile, saltFile, outputFile), "-i") == Some(secretOid)
    ensures SwitchValue(HmacArgs(secretOid, t, inputData, outputFile), "-I") == Some(secretOid)
  {
    SwitchValueIs(HkdfArgs(secretOid, t, infoFile, saltFile, outputFile), "-i", 1);
    SwitchValueIs(HkdfArgs(secretOid, t, infoFile, saltFile, outputFile), "-H", 3);
    SwitchValueIs(HmacArgs(secretOid, t, inputData, outputFile), "-I", 1);
    SwitchValueIs(HmacArgs(secretOid, t, inputData, outputFile), "-H", 3);
  }

  /**
   * The `trustm_ecc_sign` command line: seven fixed entries, then "-H"
   * exactly when the data is to be hashed first.
   */
  method SignArgs(keyOid: string, inputFile: string, outputFile: string, hashBeforeSign: bool) returns (args: seq<string>)
    ensures |args| == if hashBeforeSign then 8 else 7
    ensures args[..7] == [SIGN_TOOL, "-k", keyOid, "-o", outputFile, "-i", inputFile]
    ensures SwitchValue(args, "-k") == Some(keyOid) && SwitchValue(args, "-o") == Some(outputFile)
    ensures SwitchValue(args, "-i") == Some(inputFile)
    ensures "-H" in Switches(args) <==> hashBeforeSign
  {
    args := [SIGN_TOOL, "-k", keyOid, "-o", outputFile, "-i", inputFile];
    if hashBeforeSign {
      args := args + ["-H"];
      assert Switches(args) == ["-k", "-o", "-i", "-H"];
    } else {
      assert Switches(args) == ["-k", "-o", "-i"];
    }
    SwitchValueIs(args, "-k", 1);
    SwitchValueIs(args, "-o", 3);
    SwitchValueIs(args, "-i", 5);
  }

  /** The `trustm_ecc_verify` command line, built the same way. */
  method VerifyArgs(pubkeyFile: string, inputFile: string, signatureFile: string, hashBeforeVerify: bool) returns (args: seq<string>)
    ensures |args| == if hashBeforeVerify then 8 else 7
    ensures args[..7] == [VERIFY_TOOL, "-p", pubkeyFile, "-i", inputFile, "-s", signatureFile]
    ensures SwitchValue(args, "-p") == Some(pubkeyFile) && SwitchValue(args, "-i") == Some(inputFile)
    ensures SwitchValue(args, "-s") == Some(signatureFile)
    ensures "-H" in Switches(args) <==> hashBeforeVerify
  {
    args := [VERIFY_TOOL, "-p", pubkeyFile, "-i", inputFile, "-s", signatureFile];
    if hashBeforeVerify {
      args := args + ["-H"];
      assert Switches(args) == ["-p", "-i", "-s", "-H"];
    } else {
      assert Switches(args) == ["-p", "-i", "-s"];
    }
    SwitchValueIs(args, "-p", 1);
    SwitchValueIs(args, "-i", 3);
    SwitchValueIs(args, "-s", 5);
  }

  // ---------------------------------------------------------------------
  // From a tool's outcome to a result

  /**
   * keygen, sign, hkdf and hmac: the output file is the result, read only
   * after the tool exited successfully; everything else is `code`.
   */
  function OutputAfterSuccess(run: ToolRun, read: string -> Option<string>, outputFile: string,
                              code: TrustZoneCtrlErrorCode): (r: Result<string, TrustZoneCtrlErrorCode>)
    ensures r.Ok? <==> run == Exited(true) && read(outputFile).Some?
    ensures r.Ok? ==> r.value == read(outputFile).value
    ensures r.Err? ==> r.error == code
  {
    match run
    case SpawnFailed => Err(code)
    case Exited(success) =>
      if !success then Err(code)
      else
        match read(outputFile)
        case Some(content) => Ok(content)
        case None => Err(code)
  }

  /** write and remove cert: success exactly when the tool exited successfully. */
  function StatusResult(run: ToolRun, code: TrustZoneCtrlErrorCode): (r: Result<(), TrustZoneCtrlErrorCode>)
    ensures r.Ok? <==> run == Exited(true)
    ensures r.Err? ==> r.error == code
  {
    match run
    case SpawnFailed => Err(code)
    case Exited(success) => if success then Ok(()) else Err(code)
  }

  /** A failed tool run gives the same error whatever the output file holds. */
  lemma FailedRunIgnoresFile(run: ToolRun, read1: string -> Option<string>, read2: string -> Option<string>,
                             outputFile: string, code: TrustZoneCtrlErrorCode)
    requires run != Exited(true)
    ensures OutputAfterSuccess(run, read1, outputFile, code) == OutputAfterSuccess(run, read2, outputFile, code) == Err(code)
  {
  }

  /**
   * `read_trustzone_cert`: once the tool has run, the output file is read
   * whatever the exit status.
   */
  function ReadTrustzoneCert(outputFile: string, region: string, exec: seq<string> -> ToolRun,
                             read: string -> Option<string>): (r: Result<string, TrustZoneCtrlErrorCode>)
    ensures r.Ok? <==> exec(ReadCertArgs(outputFile, region)).Exited? && read(outputFile).Some?
    ensures r.Ok? ==> r.value == read(outputFile).value
    ensures r.Err? ==> r.error == UnableToReadTrustZoneCert
  {
    match exec(ReadCertArgs(outputFile, region))
    case SpawnFailed => Err(UnableToReadTrustZoneCert)
    case Exited(_) =>
      match read(outputFile)
      case Some(cert) => Ok(cert)
      case None => Err(UnableToReadTrustZoneCert)
  }

  /** A failed exit of `trustm_cert -r` still returns the file's content. */
  lemma ReadCertIgnoresExitStatus(outputFile: string, region: string, exec: seq<string> -> ToolRun,
                                  read: string -> Option<string>)
    requires exec(ReadCertArgs(outputFile, region)) == Exited(false) && read(outputFile).Some?
    ensures ReadTrustzoneCert(outputFile, region, exec, read) == Ok(read(outputFile).value)
  {
  }

  function WriteTrustzoneCert(certFile: string, oid: string, exec: seq<string> -> ToolRun): (r: Result<(), TrustZoneCtrlErrorCode>)
    ensures r.Ok? <==> exec(WriteCertArgs(certFile, oid)) == Exited(true)
    ensures r.Err? ==> r.error == UnableToWriteTrustZoneCert
  {
    StatusResult(exec(WriteCertArgs(certFile, oid)), UnableToWriteTrustZoneCert)
  }

  function RemoveTrustzoneCert(oid: string, exec: seq<string> -> ToolRun): (r: Result<(), TrustZoneCtrlErrorCode>)
    ensures r.Ok? <==> exec(RemoveCertArgs(oid)) == Exited(true)
    ensures r.Err? ==> r.error == UnableToRemoveTrustZoneCert
  {
    StatusResult(exec(RemoveCertArgs(oid)), UnableToRemoveTrustZoneCert)
  }

  function GenerateTrustzoneKey(oid: string, keyType: KeyType, keySize: KeySize, outputFile: string,
                                exec: seq<string> -> ToolRun, read: string -> Option<string>): (r: Result<string, TrustZoneCtrlErrorCode>)
    ensures r.Ok? <==> exec(KeygenArgs(oid, keyType, keySize, outputFile)) == Exited(true) && read(outputFile).Some?
    ensures r.Ok? ==> r.value == read(outputFile).value
    ensures r.Err? ==> r.error == UnableToGenerateTrustZoneKey
  {
    OutputAfterSuccess(exec(KeygenArgs(oid, keyType, keySize, outputFile)), read, outputFile, UnableToGenerateTrustZoneKey)
  }

  method SignTrustzoneData(keyOid: string, inputFile: string, outputFile: string, hashBeforeSign: bool,
                           exec: seq<string> -> ToolRun, read: string -> Option<string>) returns (r: Result<string, TrustZoneCtrlErrorCode>)
    ensures exists args :: |args| == (if hashBeforeSign then 8 else 7) &&
                           args[..7] == [SIGN_TOOL, "-k", keyOid, "-o", outputFile, "-i", inputFile] &&
                           ("-H" in Switches(args) <==> hashBeforeSign) &&
                           r == OutputAfterSuccess(exec(args), read, outputFile, UnableToSignTrustZoneData)
    ensures r.Ok? ==> read(outputFile).Some? && r.value == read(outputFile).value
    ensures r.Err? ==> r.error == UnableToSignTrustZoneData
  {
    var args := SignArgs(keyOid, inputFile, outputFile, hashBeforeSign);
    r := OutputAfterSuccess(exec(args), read, outputFile, UnableToSignTrustZoneData);
  }

  /** `verify_trustzone_data`: "Verify Success." exactly when the tool exits successfully. */
  method VerifyTrustzoneData(pubkeyFile: string, inputFile: string, signatureFile: string, hashBeforeVerify: bool,
                             exec: seq<string> -> ToolRun) returns (r: Result<string, TrustZoneCtrlErrorCode>)
    ensures exists args :: |args| == (if hashBeforeVerify then 8 else 7) &&
                           args[..7] == [VERIFY_TOOL, "-p", pubkeyFile, "-i", inputFile, "-s", signatureFile] &&
                           ("-H" in Switches(args) <==> hashBeforeVerify) &&
                           (r.Ok? <==> exec(args) == Exited(true))
    ensures r.Ok? ==> r.value == VERIFY_SUCCESS
    ensures r.Err? ==> r.error == UnableToVerifyTrustZoneData
  {
    var args := VerifyArgs(pubkeyFile, inputFile, signatureFile, hashBeforeVerify);
    var status := StatusResult(exec(args), UnableToVerifyTrustZoneData);
    r := if status.Ok? then Ok(VERIFY_SUCCESS) else Err(UnableToVerifyTrustZoneData);
  }

  /** Reading one of the TrustZone device files. */
  function ReadDevice(device: string, read: string -> Option<string>): (r: Result<string, TrustZoneCtrlErrorCode>)
    ensures r.Ok? <==> read(device).Some?
    ensures r.Ok? ==> r.value == read(device).value
    ensures r.Err? ==> r.error == UnableToReadTrustZoneCert
  {
    match read(device)
    case Some(content) => Ok(content)
    case None => Err(UnableToReadTrustZoneCert)
  }

  /** `encrypt_trustzone_data`: the encrypt device's content; the data is not used. */
  function EncryptTrustzoneData(data: string, read: string -> Option<string>): (r: Result<string, TrustZoneCtrlErrorCode>)
    ensures r.Ok? <==> read(ENCRYPT_DEVICE).Some?
    ensures r.Ok? ==> r.value == read(ENCRYPT_DEVICE).value
    ensures r.Err? ==> r.error == UnableToReadTrustZoneCert
  {
    ReadDevice(ENCRYPT_DEVICE, read)
  }

  /** `decrypt_trustzone_data`: the decrypt device's content; the data is not used. */
  function DecryptTrustzoneData(data: string, read: string -> Option<string>): (r: Result<string, TrustZoneCtrlErrorCode>)
    ensures r.Ok? <==> read(DECRYPT_DEVICE).Some?
    ensures r.Ok? ==> r.value == read(DECRYPT_DEVICE).value
    ensures r.Err? ==> r.error == UnableToReadTrustZoneCert
  {
    ReadDevice(DECRYPT_DEVICE, read)
  }

  /** `encrypt_trustzone_data_with_key`: the encrypt device's content; neither data nor key is used. */
  function EncryptTrustzoneDataWithKey(data: string, key: string, read: string -> Option<string>): (r: Result<string, TrustZoneCtrlErrorCode>)
    ensures r.Ok? <==> read(ENCRYPT_DEVICE).Some?
    ensures r.Ok? ==> r.value == read(ENCRYPT_DEVICE).value
    ensures r.Err? ==> r.error == UnableToReadTrustZoneCert
  {
    ReadDevice(ENCRYPT_DEVICE, read)
  }

  /** Encryption and decryption give the same answer for every input. */
  lemma CipherIgnoresInput(d1: string, d2: string, key: string, read: string -> Option<string>)
    ensures EncryptTrustzoneData(d1, read) == EncryptTrustzoneData(d2, read) == EncryptTrustzoneDataWithKey(d2, key, read)
    ensures DecryptTrustzoneData(d1, read) == DecryptTrustzoneData(d2, read)
  {
  }

  function DeriveTrustzoneKey(secretOid: string, hkdfType: u16, infoFile: string, saltFile: string, outputFile: string,
                              exec: seq<string> -> ToolRun, read: string -> Option<string>): (r: Result<string, TrustZoneCtrlErrorCode>)
    ensures r.Ok? <==> exec(HkdfArgs(secretOid, hkdfType, infoFile, saltFile, outputFile)) == Exited(true) && read(outputFile).Some?
    ensures r.Ok? ==> r.value == read(outputFile).value
    ensures r.Err? ==> r.error == UnableToDeriveTrustZoneKey
  {
    OutputAfterSuccess(exec(HkdfArgs(secretOid, hkdfType, infoFile, saltFile, outputFile)), read, outputFile, UnableToDeriveTrustZoneKey)
  }

  function GenerateTrustzoneHmac(secretOid: string, hmacType: u16, inputData: string, outputFile: string,
                                 exec: seq<string> -> ToolRun, read: string -> Option<string>): (r: Result<string, TrustZoneCtrlErrorCode>)
    ensures r.Ok? <==> exec(HmacArgs(secretOid, hmacType, inputData, outputFile)) == Exited(true) && read(outputFile).Some?
    ensures r.Ok? ==> r.value == read(outputFile).value
    ensures r.Err? ==> r.error == UnableToGenerateTrustZoneHMAC
  {
    OutputAfterSuccess(exec(HmacArgs(secretOid, hmacType, inputData, outputFile)), read, outputFile, UnableToGenerateTrustZoneHMAC)
  }
}
