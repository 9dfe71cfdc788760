/**
 The UI-model types the two screen states share: the platform, the window
 width class, the screen size in density-independent pixels (dp), the special
 full-screen error kinds, the error-message record and the failures a data
 fetch can raise.
 */
module UiModel {
  import opened Nullable

  /** The platform the window runs on; only `Desktop` is ever compared against. */
  datatype Platform = Android | Ios | Desktop

  /** The window width size class of Material 3 adaptive layouts. */
  datatype WidthClass = Compact | Medium | Expanded

  /** Screen size in dp. Dp values are Kotlin `Float`s; they are modelled as reals. */
  datatype ScreenSizeInfo = ScreenSizeInfo(heightDp: real, widthDp: real)

  /** The full-screen error a screen switches to for transport failures. */
  datatype SpecialErrorScreen = HttpError(statusCode: int) | NetworkError

  /** A transient error notification: a random id keys it, the text is shown. */
  datatype ErrorMessage = ErrorMessage(id: int, message: string)

  /**
   What a raised throwable is once `mapFromPlatform` has mapped it to a common
   form: an HTTP exception with its status code, an unresolved-address
   (network) exception, or anything else.
   */
  datatype TranslatedFailure = HttpException(httpStatusCode: int) | UnresolvedAddress | OtherFailure

  /** A raised throwable: only its nullable message text is read. */
  datatype Throwable = Throwable(message: Option<string>)

  const IntMin: int := -0x8000_0000
  const IntMax: int := 0x7fff_ffff

  /** Truncation of a real toward zero, as Kotlin's `toInt` rounds. */
  function TruncateTowardZero(x: real): (r: int)
    ensures 0.0 <= x ==> r as real <= x < r as real + 1.0
    ensures x < 0.0 ==> r as real - 1.0 < x <= r as real
  {
    if 0.0 <= x then x.Floor else -((-x).Floor)
  }

  /**
   Kotlin's `Float.toInt()`: rounds toward zero and saturates at the bounds
   of a 32-bit `Int`.
   */
  function FloatToInt(x: real): (r: int)
    ensures IntMin <= r <= IntMax
    ensures IntMin as real <= x < (IntMax + 1) as real ==> r == TruncateTowardZero(x)
    ensures x < IntMin as real ==> r == IntMin
    ensures (IntMax + 1) as real <= x ==> r == IntMax
  {
    var t := TruncateTowardZero(x);
    if t < IntMin then IntMin else if t > IntMax then IntMax else t
  }
}
