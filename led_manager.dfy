/** The LED gRPC service: decodes the colour number and forwards to the controller. */
module LedManager {
  import opened Common
  import opened Files
  import opened Grpc
  import opened Led

  /** The colour numbers of the protocol. */
  function ColorNumber(color: LedColor): int
  {
    match color
    case Red => 0
    case Green => 1
    case Blue => 2
  }

  /** The `match color` of `set_led` and `clear_led`: 0, 1, 2 and nothing else. */
  function DecodeColor(color: int): (r: Option<LedColor>)
    ensures r.Some? <==> 0 <= color <= 2
    ensures r.Some? ==> ColorNumber(r.value) == color
  {
    match color
    case 0 => Some(Red)
    case 1 => Some(Green)
    case 2 => Some(Blue)
    case _ => None
  }

  /** Every colour is decoded from its own number. */
  lemma DecodeColorNumber(c: LedColor)
    ensures DecodeColor(ColorNumber(c)) == Some(c)
  {
  }

  const INVALID_COLOR := "Invalid color"

  /** `set_led`: an unknown colour is refused and no file is written. */
  method SetLed(ctrl: LedCtrl, store: FileStore, color: int, fault: Fault) returns (r: Reply<Empty, LedCtrlErrorCode>)
    modifies store
    ensures DecodeColor(color).None? ==> r == Refused(InvalidArgument(INVALID_COLOR)) && store.files == old(store.files)
    ensures DecodeColor(color).Some? ==>
              && store.files == AfterWrite(old(store.files), ctrl.PathOf(DecodeColor(color).value), "1", fault)
              && r == if fault == NoFault then Response(Empty) else Refused(FromError(InvalidLedPathValueError))
  {
    var selected := DecodeColor(color);
    if selected.None? {
      return Refused(InvalidArgument(INVALID_COLOR));
    }
    var result := ctrl.SetLed(store, selected.value, fault);
    match result {
      case Ok(_) => r := Response(Empty);
      case Err(e) => r := Refused(FromError(e));
    }
  }

  /** `clear_led`: the same decoding, then the colour's file is written "0". */
  method ClearLed(ctrl: LedCtrl, store: FileStore, color: int, fault: Fault) returns (r: Reply<Empty, LedCtrlErrorCode>)
    modifies store
    ensures DecodeColor(color).None? ==> r == Refused(InvalidArgument(INVALID_COLOR)) && store.files == old(store.files)
    ensures DecodeColor(color).Some? ==>
              && store.files == AfterWrite(old(store.files), ctrl.PathOf(DecodeColor(color).value), "0", fault)
              && r == if fault == NoFault then Response(Empty) else Refused(FromError(InvalidLedPathValueError))
  {
    var selected := DecodeColor(color);
    if selected.None? {
      return Refused(InvalidArgument(INVALID_COLOR));
    }
    var result := ctrl.ClearLed(store, selected.value, fault);
    match result {
      case Ok(_) => r := Response(Empty);
      case Err(e) => r := Refused(FromError(e));
    }
  }
}
