/**
 * The conversions of the platform bindings' errors into the top-level crate's error enum:
 * Media Foundation's `BindingError` and AVFoundation's `AVFError`.
 */
module Errors {
  import opened Numeric
  import opened LegacyTypes
  import MfBindings

  /** The cause text an error carries: its `error` or `message` field, empty when it has none. */
  function Cause(e: NokhwaError): string
  {
    match e
    case UnitializedError => ""
    case InitializeError(_, error) => error
    case ShutdownError(_, error) => error
    case GeneralError(message) => message
    case StructureError(_, error) => error
    case OpenDeviceError(_, error) => error
    case GetPropertyError(_, error) => error
    case SetPropertyError(_, _, error) => error
    case OpenStreamError(message) => message
    case ReadFrameError(message) => message
    case ProcessFrameError(_, _, error) => error
    case StreamShutdownError(message) => message
    case UnsupportedOperationError(_) => ""
    case NotImplementedError(message) => message
  }

  /** The cause text of a Media Foundation error, empty for `NotImplementedError`. */
  function BindingCause(err: MfBindings.BindingError): string
  {
    match err
    case InitializeError(s) => s
    case DeInitializeError(s) => s
    case GUIDSetError(_, _, s) => s
    case GUIDReadError(_, s) => s
    case AttributeError(s) => s
    case EnumerateError(s) => s
    case DeviceOpenFailError(_, s) => s
    case ReadFrameError(s) => s
    case NotImplementedError => ""
  }

  /**
   * `From<BindingError> for NokhwaError`: start-up and shut-down failures are tagged with the
   * Media Foundation backend, GUID writes and reads become property errors, attribute
   * failures a structure error on "IMFAttribute", enumeration failures a read of "Devices",
   * and the docs-only stub's error a `NotImplementedError`. The device index of a failed
   * open becomes its decimal text.
   */
  function FromBindingError(err: MfBindings.BindingError): (e: NokhwaError)
    ensures e.InitializeError? <==> err.InitializeError?
    ensures e.ShutdownError? <==> err.DeInitializeError?
    ensures (e.InitializeError? || e.ShutdownError?) ==> e.backend == MediaFoundation
    ensures e.SetPropertyError? <==> err.GUIDSetError?
    ensures err.GUIDSetError? ==> e.property == err.guid && e.value == err.value
    ensures e.GetPropertyError? <==> err.GUIDReadError? || err.EnumerateError?
    ensures err.GUIDReadError? ==> e.property == err.guid
    ensures err.EnumerateError? ==> e.property == "Devices"
    ensures e.StructureError? <==> err.AttributeError?
    ensures err.AttributeError? ==> e.structure == "IMFAttribute"
    ensures e.OpenDeviceError? <==> err.DeviceOpenFailError?
    ensures err.DeviceOpenFailError? ==> e.device == NatToString(err.index)
    ensures e.ReadFrameError? <==> err.ReadFrameError?
    ensures e.NotImplementedError? <==> err.NotImplementedError?
    ensures err.NotImplementedError? ==> e.message == "Docs-Only MediaFoundation"
  {
    match err
    case InitializeError(error) => InitializeError(MediaFoundation, error)
    case DeInitializeError(error) => ShutdownError(MediaFoundation, error)
    case GUIDSetError(property, value, error) => SetPropertyError(property, value, error)
    case GUIDReadError(property, error) => GetPropertyError(property, error)
    case AttributeError(error) => StructureError("IMFAttribute", error)
    case EnumerateError(error) => GetPropertyError("Devices", error)
    case DeviceOpenFailError(device, error) => OpenDeviceError(NatToString(device), error)
    case ReadFrameError(error) => ReadFrameError(error)
    case NotImplementedError => NotImplementedError("Docs-Only MediaFoundation")
  }

  /** Every Media Foundation error keeps its cause text through the conversion. */
  lemma FromBindingErrorKeepsCause(err: MfBindings.BindingError)
    ensures !err.NotImplementedError? ==> Cause(FromBindingError(err)) == BindingCause(err)
    ensures FromBindingError(err).UnsupportedOperationError? == false && FromBindingError(err).UnitializedError? == false
  {
  }

  /**
   * Two conversions agree only on errors that agree: the conversion is one-to-one except
   * that an enumeration failure and a failed read of a GUID named "Devices" with the same
   * text become the same error.
   */
  lemma FromBindingErrorInjective(a: MfBindings.BindingError, b: MfBindings.BindingError)
    requires FromBindingError(a) == FromBindingError(b)
    ensures a == b || (a.EnumerateError? && b == MfBindings.GUIDReadError("Devices", a.message))
      || (b.EnumerateError? && a == MfBindings.GUIDReadError("Devices", b.message))
  {
    if a.DeviceOpenFailError? && b.DeviceOpenFailError? {
      NatToStringInjective(a.index, b.index);
    }
  }

  /** Distinct numbers have distinct decimal texts. */
  lemma NatToStringInjective(m: nat, n: nat)
    requires NatToString(m) == NatToString(n)
    ensures m == n
  {
    NatToStringDigits(m);
    NatToStringDigits(n);
  }

  /** The errors of the AVFoundation bindings, as the conversion matches on them. */
  datatype AVFError =
    | InvalidType(expected: string, found: string)
    | InvalidValue(found: string)
    | AlreadyBusy(why: string)
    | FailedToOpenDevice(index: nat, why: string)
    | ConfigNotAccepted
    | General(why: string)
    | RejectedInput
    | RejectedOutput
    | StreamOpen(why: string)
    | ReadFrame(why: string)
    | NotSupported

  /**
   * `From<AVFError> for NokhwaError`: type and value mismatches become property reads,
   * busy and general failures general errors with a prefix, a rejected configuration a
   * property write, rejected input or output and stream failures stream-open errors, and
   * an unsupported operation names the AVFoundation backend.
   */
  function FromAVFError(avf_error: AVFError): (e: NokhwaError)
    ensures e.GetPropertyError? <==> avf_error.InvalidType? || avf_error.InvalidValue?
    ensures avf_error.InvalidType? ==> e.property == "type of " + avf_error.expected
    ensures avf_error.InvalidValue? ==> e.property == avf_error.found && e.error == "Invalid Value"
    ensures e.GeneralError? <==> avf_error.AlreadyBusy? || avf_error.General?
    ensures e.OpenDeviceError? <==> avf_error.FailedToOpenDevice?
    ensures avf_error.FailedToOpenDevice? ==> e.device == NatToString(avf_error.index)
    ensures e.SetPropertyError? <==> avf_error.ConfigNotAccepted?
    ensures e.OpenStreamError? <==> avf_error.RejectedInput? || avf_error.RejectedOutput? || avf_error.StreamOpen?
    ensures e.ReadFrameError? <==> avf_error.ReadFrame?
    ensures e.UnsupportedOperationError? <==> avf_error.NotSupported?
    ensures avf_error.NotSupported? ==> e.api == AVFoundation
  {
    match avf_error
    case InvalidType(expected, found) => GetPropertyError("type of " + expected, "Invalid type, found " + found)
    case InvalidValue(found) => GetPropertyError(found, "Invalid Value")
    case AlreadyBusy(why) => GeneralError("Already Busy: " + why)
    case FailedToOpenDevice(index, why) => OpenDeviceError(NatToString(index), why)
    case ConfigNotAccepted => SetPropertyError("Configuration", "Invalid", "Rejected by AVFoundation")
    case General(why) => GeneralError("AVFoundation Error: " + why)
    case RejectedInput => OpenStreamError("AVFoundation Input Rejection")
    case RejectedOutput => OpenStreamError("AVFoundation Output Rejection")
    case StreamOpen(why) => OpenStreamError(why)
    case ReadFrame(why) => ReadFrameError(why)
    case NotSupported => UnsupportedOperationError(AVFoundation)
  }

  /** The text an AVFoundation error carries about its cause, if any. */
  function AvfCause(avf_error: AVFError): string
  {
    match avf_error
    case InvalidType(_, found) => found
    case AlreadyBusy(why) => why
    case FailedToOpenDevice(_, why) => why
    case General(why) => why
    case StreamOpen(why) => why
    case ReadFrame(why) => why
    case _ => ""
  }

  /**
   * The cause text of an AVFoundation error ends the converted error's cause text; the
   * stream-open, read and device-open causes are kept unchanged, and the fixed texts are
   * distinct for rejected input and rejected output.
   */
  lemma FromAVFErrorKeepsCause(avf_error: AVFError)
    ensures var c := Cause(FromAVFError(avf_error));
      |AvfCause(avf_error)| <= |c| && c[|c| - |AvfCause(avf_error)|..] == AvfCause(avf_error)
    ensures avf_error.StreamOpen? || avf_error.ReadFrame? || avf_error.FailedToOpenDevice? ==>
      Cause(FromAVFError(avf_error)) == AvfCause(avf_error)
    ensures FromAVFError(RejectedInput) != FromAVFError(RejectedOutput)
  {
    var c := Cause(FromAVFError(avf_error));
    match avf_error
    case InvalidType(_, found) =>
      assert c == "Invalid type, found " + found;
    case AlreadyBusy(why) =>
      assert c == "Already Busy: " + why;
    case General(why) =>
      assert c == "AVFoundation Error: " + why;
    case _ =>
  }
}
