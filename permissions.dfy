/** `getRequiredPermissions` of the call screen: the Android permissions call recording needs. */
module Permissions {

  import opened Wrappers
  import JsNumbers

  /** The `AndroidPermission` string union. */
  datatype Permission = RecordAudio | ReadMediaAudio | ReadExternalStorage | WriteExternalStorage

  /** `Platform.Version`: a number on Android, a string on other platforms. */
  datatype PlatformVersion = VersionNumber(n: int) | VersionString(s: string)

  /** The `sdkInt` the screen computes; `None` stands for NaN. */
  function SdkInt(v: PlatformVersion): Option<int> {
    match v
    case VersionNumber(n) => Some(n)
    case VersionString(s) => JsNumbers.ParseInt10(s)
  }

  /** `sdkInt < 33` as JavaScript evaluates it: false for NaN. */
  predicate BelowSdk33(sdkInt: Option<int>) {
    sdkInt.Some? && sdkInt.value < 33
  }

  method GetRequiredPermissions(v: PlatformVersion) returns (permissions: seq<Permission>)
    ensures |permissions| > 0 && permissions[0] == RecordAudio
    ensures WriteExternalStorage in permissions <==> BelowSdk33(SdkInt(v))
    ensures forall q | q in permissions :: q == RecordAudio || q == WriteExternalStorage
    ensures |permissions| == if BelowSdk33(SdkInt(v)) then 2 else 1
  {
    var sdkInt := SdkInt(v);
    permissions := [RecordAudio];
    if sdkInt.Some? && sdkInt.value < 33 {
      permissions := permissions + [WriteExternalStorage];
    }
  }

  /**
   * A version string that starts with the decimal form of a number (such as
   * `"17.0"`) gives the same SDK level as that number.
   */
  lemma VersionStringReadsAsNumber(n: int, rest: string)
    requires rest == [] || !JsNumbers.IsDigit(rest[0])
    ensures SdkInt(VersionString(JsNumbers.IntString(n) + rest)) == SdkInt(VersionNumber(n))
  {
    JsNumbers.ParseIntString(n, rest);
  }

  /** A version string without digits reads as NaN, so no storage permission is asked for. */
  lemma NoDigitsNoStorage(s: string)
    requires JsNumbers.DigitPrefix(JsNumbers.SignStripped(JsNumbers.TrimStart(s))) == 0
    ensures !BelowSdk33(SdkInt(VersionString(s)))
  {
  }
}
