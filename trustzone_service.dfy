/**
 * The TrustZone gRPC service: decodes the proto integers into key types
 * and sizes, calls the controller, and maps its results onto replies.
 */
module TrustZoneService {
  import opened Common
  import opened Numbers
  import opened Grpc
  import opened TrustCtrl

  const INVALID_KEY_TYPE := "Invalid key type"
  const INVALID_KEY_SIZE := "Invalid key size"
  const VERIFICATION_SUCCESS := "Verification Success."

  type TzReply<T> = Reply<T, TrustZoneCtrlErrorCode>

  /** `key_type` 0..5 are the key types in declaration order; nothing else is one. */
  function DecodeKeyType(k: int): (r: Option<KeyType>)
    ensures r.Some? <==> 0 <= k <= 5
    ensures r.Some? ==> KeyTypeOrdinal(r.value) == k
  {
    match k
    case 0 => Some(Auth)
    case 1 => Some(Enc)
    case 2 => Some(HFWU)
    case 3 => Some(DevM)
    case 4 => Some(Sign)
    case 5 => Some(Agmt)
    case _ => None
  }

  /** `key_size` 0..5 are the key sizes in declaration order; nothing else is one. */
  function DecodeKeySize(k: int): (r: Option<KeySize>)
    ensures r.Some? <==> 0 <= k <= 5
    ensures r.Some? ==> KeySizeOrdinal(r.value) == k
  {
    match k
    case 0 => Some(ECC256)
    case 1 => Some(ECC384)
    case 2 => Some(ECC521)
    case 3 => Some(BRAINPOOL256)
    case 4 => Some(BRAINPOOL384)
    case 5 => Some(BRAINPOOL512)
    case _ => None
  }

  /** Every key type is decoded from its own number. */
  lemma DecodeKeyTypeOrdinal(t: KeyType)
    ensures DecodeKeyType(KeyTypeOrdinal(t)) == Some(t)
  {
  }

  /** Every key size is decoded from its own number. */
  lemma DecodeKeySizeOrdinal(s: KeySize)
    ensures DecodeKeySize(KeySizeOrdinal(s)) == Some(s)
  {
  }

  /** Decoded and encoded, proto key type k reaches the tool as the flag 2^k. */
  lemma ProtoKeyTypeFlag(k: int)
    requires 0 <= k <= 5
    ensures IsByteFlag(KeyTypeFlag(DecodeKeyType(k).value))
    ensures FlagValue(KeyTypeFlag(DecodeKeyType(k).value)) == Pow2(k)
  {
    KeyTypeFlagIsBit(DecodeKeyType(k).value);
  }

  /** A controller result as a reply: the value, or the error as a status. */
  function Forward<T>(r: Result<T, TrustZoneCtrlErrorCode>): (reply: TzReply<T>)
    ensures reply.Response? <==> r.Ok?
    ensures r.Ok? ==> reply == Response(r.value)
    ensures r.Err? ==> reply == Refused(FromError(r.error))
  {
    match r
    case Ok(v) => Response(v)
    case Err(e) => Refused(FromError(e))
  }

  /** `read_certification`: the certificate, or the controller's error as a status. */
  function ReadCertification(outputFile: string, region: string, exec: seq<string> -> ToolRun,
                             read: string -> Option<string>): (reply: TzReply<string>)
    ensures reply.Response? <==> exec(ReadCertArgs(outputFile, region)).Exited? && read(outputFile).Some?
    ensures reply.Response? ==> reply.message == read(outputFile).value
    ensures reply.Refused? ==> reply.status == FromError(UnableToReadTrustZoneCert)
  {
    Forward(ReadTrustzoneCert(outputFile, region, exec, read))
  }

  /** `write_certificate`: never a status; `success` says whether the write worked. */
  function WriteCertificate(certFile: string, oid: string, exec: seq<string> -> ToolRun): (reply: TzReply<bool>)
    ensures reply.Response?
    ensures reply.message <==> exec(WriteCertArgs(certFile, oid)) == Exited(true)
  {
    Response(WriteTrustzoneCert(certFile, oid, exec).Ok?)
  }

  /** `remove_certificate`: never a status; `success` says whether the removal worked. */
  function RemoveCertificate(oid: string, exec: seq<string> -> ToolRun): (reply: TzReply<bool>)
    ensures reply.Response?
    ensures reply.message <==> exec(RemoveCertArgs(oid)) == Exited(true)
  {
    Response(RemoveTrustzoneCert(oid, exec).Ok?)
  }

  /**
   * `generate_key`: the key type is checked first, then the key size, and
   * only a request with both valid reaches the key generator.
   */
  function GenerateKey(oid: string, keyType: int, keySize: int, outputFile: string,
                       exec: seq<string> -> ToolRun, read: string -> Option<string>): (reply: TzReply<string>)
    ensures !(0 <= keyType <= 5) ==> reply == Refused(InvalidArgument(INVALID_KEY_TYPE))
    ensures 0 <= keyType <= 5 && !(0 <= keySize <= 5) ==> reply == Refused(InvalidArgument(INVALID_KEY_SIZE))
    ensures 0 <= keyType <= 5 && 0 <= keySize <= 5 ==>
              reply == Forward(GenerateTrustzoneKey(oid, DecodeKeyType(keyType).value, DecodeKeySize(keySize).value,
                                                    outputFile, exec, read))
  {
    match DecodeKeyType(keyType)
    case None => Refused(InvalidArgument(INVALID_KEY_TYPE))
    case Some(t) =>
      match DecodeKeySize(keySize)
      case None => Refused(InvalidArgument(INVALID_KEY_SIZE))
      case Some(s) => Forward(GenerateTrustzoneKey(oid, t, s, outputFile, exec, read))
  }

  /** An invalid key type or size is answered without running any tool or reading any file. */
  lemma InvalidKeyRequestRunsNothing(oid: string, keyType: int, keySize: int, outputFile: string,
                                     exec1: seq<string> -> ToolRun, read1: string -> Option<string>,
                                     exec2: seq<string> -> ToolRun, read2: string -> Option<string>)
    requires !(0 <= keyType <= 5) || !(0 <= keySize <= 5)
    ensures GenerateKey(oid, keyType, keySize, outputFile, exec1, read1) ==
            GenerateKey(oid, keyType, keySize, outputFile, exec2, read2)
    ensures GenerateKey(oid, keyType, keySize, outputFile, exec1, read1).Refused?
  {
  }

  /**
   * `sign_data`: the signature the tool wrote, or the controller's error as
   * a status; it succeeds exactly when the sign tool, run with these
   * arguments, exits successfully and its output file can be read.
   */
  method SignData(keyOid: string, inputFile: string, outputFile: string, hashBeforeSign: bool,
                  exec: seq<string> -> ToolRun, read: string -> Option<string>) returns (reply: TzReply<string>)
    ensures exists args :: |args| == (if hashBeforeSign then 8 else 7) &&
                           args[..7] == [SIGN_TOOL, "-k", keyOid, "-o", outputFile, "-i", inputFile] &&
                           ("-H" in Switches(args) <==> hashBeforeSign) &&
                           (reply.Response? <==> exec(args) == Exited(true) && read(outputFile).Some?)
    ensures reply.Response? ==> read(outputFile).Some? && reply.message == read(outputFile).value
    ensures reply.Refused? ==> reply.status == FromError(UnableToSignTrustZoneData)
  {
    var signed := SignTrustzoneData(keyOid, inputFile, outputFile, hashBeforeSign, exec, read);
    reply := Forward(signed);
  }

  /** `verify_data`: a success always says "Verification Success.", whatever the controller said. */
  method VerifyData(pubkeyFile: string, inputFile: string, signatureFile: string, hashBeforeVerify: bool,
                    exec: seq<string> -> ToolRun) returns (reply: TzReply<string>)
    ensures reply.Response? ==> reply.message == VERIFICATION_SUCCESS
    ensures reply.Refused? ==> reply.status == FromError(UnableToVerifyTrustZoneData)
    ensures exists args :: |args| == (if hashBeforeVerify then 8 else 7) &&
                           args[..7] == [VERIFY_TOOL, "-p", pubkeyFile, "-i", inputFile, "-s", signatureFile] &&
                           ("-H" in Switches(args) <==> hashBeforeVerify) &&
                           (reply.Response? <==> exec(args) == Exited(true))
  {
    var verified := VerifyTrustzoneData(pubkeyFile, inputFile, signatureFile, hashBeforeVerify, exec);
    match verified {
      case Ok(_) => reply := Response(VERIFICATION_SUCCESS);
      case Err(e) => reply := Refused(FromError(e));
    }
  }

  /**
   * `derive_key`: the proto value must fit a `u16` (`try_into().unwrap()`
   * panics otherwise); then the controller's result is forwarded.
   */
  function DeriveKey(secretOid: string, hkdfType: int, infoFile: string, saltFile: string, outputFile: string,
                     exec: seq<string> -> ToolRun, read: string -> Option<string>): (reply: TzReply<string>)
    ensures !(0 <= hkdfType <= U16_MAX) ==> reply == Refused(HandlerPanic)
    ensures 0 <= hkdfType <= U16_MAX ==>
              reply == Forward(DeriveTrustzoneKey(secretOid, hkdfType, infoFile, saltFile, outputFile, exec, read))
  {
    if 0 <= hkdfType <= U16_MAX then
      Forward(DeriveTrustzoneKey(secretOid, hkdfType, infoFile, saltFile, outputFile, exec, read))
    else Refused(HandlerPanic)
  }

  /** `generate_hmac`: as `derive_key`, for the hmac type. */
  function GenerateHmac(secretOid: string, hmacType: int, inputData: string, outputFile: string,
                        exec: seq<string> -> ToolRun, read: string -> Option<string>): (reply: TzReply<string>)
    ensures !(0 <= hmacType <= U16_MAX) ==> reply == Refused(HandlerPanic)
    ensures 0 <= hmacType <= U16_MAX ==>
              reply == Forward(GenerateTrustzoneHmac(secretOid, hmacType, inputData, outputFile, exec, read))
  {
    if 0 <= hmacType <= U16_MAX then
      Forward(GenerateTrustzoneHmac(secretOid, hmacType, inputData, outputFile, exec, read))
    else Refused(HandlerPanic)
  }
}
