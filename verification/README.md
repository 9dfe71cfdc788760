# OctoMeter screen-state derivation, modelled in Dafny

This project models the view-state records of two screens of the OctoMeter
energy-tariff app. The records are `TariffsUIState` and `UsageUIState`, and
each is an immutable Kotlin data class. Every operation on them is a
`copy(...)` that yields the next state. The model implements the operations
as total functions on Dafny datatypes and proves what they promise.

- `nullable.dfy` (`Nullable`): Kotlin's nullable values and the elvis operator `?:`.
- `ui_model.dfy` (`UiModel`): the shared UI-model types. These are the platform,
  the width size class, the screen size in dp, the special error screens, the
  error-message record, the translated failures, and Kotlin's `Float.toInt()`.
- `error_messages.dfy` (`ErrorMessages`): the de-duplicated notification queue
  that both screens' `handleErrorAndStopLoading` maintain. It is defined once
  here and used by both state modules.
- `tariffs_ui_state.dfy` (`TariffsUi`): the Tariffs screen state. It covers
  the layout classifier, the screen-type resolver, the failure handler, the
  bottom-sheet and loading-screen predicates, and a controller trace `Run`.
- `usage_ui_state.dfy` (`UsageUi`): the Usage screen state. It covers the
  layout classifier, the data reset, the failure handler with its three-level
  message fallback, and a controller trace `Run`.

The collaborators that the source calls but does not define are inputs of the
operations:
- `getPlatformType()` becomes a `platform` parameter.
- `ScreenSizeInfo.isPortrait()` becomes an `isPortrait` parameter.
- `mapFromPlatform()` becomes a `translated` parameter, which is the failure as classified.
- The localized string from `getString(...)` becomes a `fallbackMessage` parameter.
- `generateRandomLong()` becomes a `newId` parameter.

Domain payloads such as `ProductDetails`, `Tariff` and `Insights` are abstract types.

`TariffScreenLayoutStyle` is declared outside the files modelled here. Its
`Compact` and `Wide` variants are taken to be Kotlin data classes, so the
`requestedLayout == Compact(useBottomSheet = true)` tests in
`shouldShowTariffsList` compare by value. The model therefore uses structural
equality of datatype values. If they were plain classes, `==` would compare
identity and those two tests would always be false.

## Model

| member | source | states |
|---|---|---|
| `ErrorMessages.AnyWithMessage` | composeApp/src/commonMain/kotlin/com/rwmobi/kunigami/ui/destinations/tariffs/TariffsUIState.kt:111 | The `any { it.message == message }` scan is true exactly when some queued entry has that text. |
| `ErrorMessages.AppendUnique` | composeApp/src/commonMain/kotlin/com/rwmobi/kunigami/ui/destinations/usage/UsageUIState.kt:111-124 | A text already queued leaves the queue unchanged. A new text is appended once, at the end, with the fresh id. Afterwards the text is queued, the old entries keep their order as a prefix, and "no two entries share a text" is preserved. |
| `ErrorMessages.AppendUniqueIdempotent` | composeApp/src/commonMain/kotlin/com/rwmobi/kunigami/ui/destinations/usage/UsageUIState.kt:111-112 | Reporting the same text again changes nothing, whatever id the second report would get. |
| `ErrorMessages.SameMessageTwiceGivesOneEntry` | composeApp/src/commonMain/kotlin/com/rwmobi/kunigami/ui/destinations/tariffs/TariffsUIState.kt:111-118 | Two reports with identical text on an empty queue leave exactly one entry. |
| `UiModel.FloatToInt` | composeApp/src/commonMain/kotlin/com/rwmobi/kunigami/ui/destinations/usage/UsageUIState.kt:65 | `toInt()` rounds toward zero inside the 32-bit range and saturates at `Int.MIN_VALUE` and `Int.MAX_VALUE` outside it. |
| `Nullable.Option.OrElse` | composeApp/src/commonMain/kotlin/com/rwmobi/kunigami/ui/destinations/tariffs/TariffsUIState.kt:106 | `x ?: fallback` is the value of `x` when it is non-null, and the fallback when it is null. |
| `Nullable.Option.Or` | composeApp/src/commonMain/kotlin/com/rwmobi/kunigami/ui/destinations/usage/UsageUIState.kt:107 | `x ?: y`, with `y` itself nullable, is null exactly when both are null; it is `x` whenever `x` is non-null, and `y` when `x` is null. |
| `UiModel.TruncateTowardZero` | composeApp/src/commonMain/kotlin/com/rwmobi/kunigami/ui/destinations/usage/UsageUIState.kt:65 | The truncated quotient lies within one unit of the real value, on the zero side: it is the floor for non-negative values and the ceiling for negative ones. |
| `TariffsUi.TariffsUIState.ShouldUseBottomSheet` | composeApp/src/commonMain/kotlin/com/rwmobi/kunigami/ui/destinations/tariffs/TariffsUIState.kt:52-55 | A bottom sheet is used exactly when the layout is `Compact(true)` or `Wide(true)`. |
| `TariffsUi.TariffsUIState.ShouldShowLoadingScreen` | composeApp/src/commonMain/kotlin/com/rwmobi/kunigami/ui/destinations/tariffs/TariffsUIState.kt:58 | The loading screen shows only while loading, never once any product summary is listed, and always while loading with no summaries. |
| `TariffsUi.TariffsUIState.IsErrorScreen` | composeApp/src/commonMain/kotlin/com/rwmobi/kunigami/ui/destinations/tariffs/TariffsUIState.kt:130 | The screen is an error screen exactly when the requested type is neither unset, nor List, nor FullScreenDetail. |
| `TariffsUi.TariffsUIState.ShouldShowTariffsList` | composeApp/src/commonMain/kotlin/com/rwmobi/kunigami/ui/destinations/tariffs/TariffsUIState.kt:125-128 | The list is withheld exactly when details are loaded and the layout is `Compact(false)` or `Wide(false)`. Any layout with a bottom sheet shows the list. |
| `TariffsUi.TariffsUIState.HasProductDetailsLoaded` | composeApp/src/commonMain/kotlin/com/rwmobi/kunigami/ui/destinations/tariffs/TariffsUIState.kt:132 | Details count as loaded exactly when they are non-null. Without details, the list predicate always holds. |
| `TariffsUi.LayoutAndResolutionKeepLoadingScreen` | composeApp/src/commonMain/kotlin/com/rwmobi/kunigami/ui/destinations/tariffs/TariffsUIState.kt:58-88 | A window-size change and a screen-type resolution each leave `shouldShowLoadingScreen()` exactly as it was, so neither can bring back or dismiss the blocking loader. |
| `TariffsUi.Initial` | composeApp/src/commonMain/kotlin/com/rwmobi/kunigami/ui/destinations/tariffs/TariffsUIState.kt:38-48 | A fresh state has the record's defaults: it is loading and shows the loading screen. There is no screen type, no post code and no details, the layout is `Compact(true)` with a bottom sheet and no wide list, no scroll is requested, and the queue is empty. |
| `TariffsUi.UpdateLayoutType` | composeApp/src/commonMain/kotlin/com/rwmobi/kunigami/ui/destinations/tariffs/TariffsUIState.kt:60-78 | Only the layout and the wide-list flag change; the screen type is not re-resolved. The layout is a list-detail pane exactly for Expanded windows and Compact exactly for Compact ones. A bottom sheet is used exactly when the window is not Expanded and not on desktop. The wide list is used exactly for Medium windows, or for Expanded windows wider than 1198 dp. |
| `TariffsUi.LayoutTable` | composeApp/src/commonMain/kotlin/com/rwmobi/kunigami/ui/destinations/tariffs/TariffsUIState.kt:61-72 | The exact case table: Compact gives `Compact(platform ≠ DESKTOP)` with no wide list. Medium gives `Wide(platform ≠ DESKTOP)` with the wide list. Expanded gives `ListDetailPane`, with the wide list exactly when half the width is strictly above 599 dp. |
| `TariffsUi.UpdateLayoutTypeIdempotent` | composeApp/src/commonMain/kotlin/com/rwmobi/kunigami/ui/destinations/tariffs/TariffsUIState.kt:60-78 | Applying the same window size twice gives the same state as applying it once. |
| `TariffsUi.UpdateScreenType` | composeApp/src/commonMain/kotlin/com/rwmobi/kunigami/ui/destinations/tariffs/TariffsUIState.kt:80-88 | Only the screen type changes, and an error screen is left exactly as it is. Otherwise the result is FullScreenDetail exactly when details are loaded and the layout is `Compact(false)` or `Wide(false)`, and List in every other case. |
| `TariffsUi.KeepBranchUnreachable` | composeApp/src/commonMain/kotlin/com/rwmobi/kunigami/ui/destinations/tariffs/TariffsUIState.kt:125-132 | Outside an error screen, either the list predicate or the details predicate holds. So the "nothing triggered, keep it" branch is never taken, and the resolver always yields List or FullScreenDetail. |
| `TariffsUi.UpdateScreenTypeIdempotent` | composeApp/src/commonMain/kotlin/com/rwmobi/kunigami/ui/destinations/tariffs/TariffsUIState.kt:80-88 | Resolving twice gives the same state as resolving once. |
| `TariffsUi.BottomSheetShowsList` | composeApp/src/commonMain/kotlin/com/rwmobi/kunigami/ui/destinations/tariffs/TariffsUIState.kt:52-55 | Whenever `shouldUseBottomSheet()` holds on a non-error screen, the resolver shows the list. Where the detail is then drawn is up to the rendering layer, which is not modelled. |
| `TariffsUi.ResolvedScreenAfterLayout` | composeApp/src/commonMain/kotlin/com/rwmobi/kunigami/ui/destinations/tariffs/TariffsUIState.kt:60-88 | A window-size change followed by resolution gives FullScreenDetail exactly on a desktop window that is not Expanded and has details loaded. Every other case gives List. |
| `TariffsUi.FilterErrorAndStopLoading` | composeApp/src/commonMain/kotlin/com/rwmobi/kunigami/ui/destinations/tariffs/TariffsUIState.kt:90-108 | Every outcome stops loading and hides the loading screen. An HTTP failure sets `Error(HttpError(code))` and a network failure sets `Error(NetworkError)`, with nothing else changed. Any other failure uses its own message, or the localized fallback when it has none. If that text is already queued the queue is unchanged; otherwise exactly one entry, with the fresh id and that text, is appended. The screen type and the queue invariant are kept. |
| `TariffsUi.HandleErrorAndStopLoading` | composeApp/src/commonMain/kotlin/com/rwmobi/kunigami/ui/destinations/tariffs/TariffsUIState.kt:110-123 | Only the queue and the loading flag change. The queue is unchanged if the text is present, and otherwise gains exactly the new entry at the end. The queue invariant is kept. |
| `TariffsUi.RunKeepsNoDuplicateMessages` | composeApp/src/commonMain/kotlin/com/rwmobi/kunigami/ui/destinations/tariffs/TariffsUIState.kt:110-123 | No sequence of layout changes, resolutions and failures ever queues two entries with the same text. |
| `TariffsUi.RunKeepsErrorScreen` | composeApp/src/commonMain/kotlin/com/rwmobi/kunigami/ui/destinations/tariffs/TariffsUIState.kt:80-83 | Once the screen type is an error, it stays an error under any sequence of updates. It stays exactly the same error unless another HTTP or network failure replaces it. |
| `UsageUi.Initial` | composeApp/src/commonMain/kotlin/com/rwmobi/kunigami/ui/destinations/usage/UsageUIState.kt:43-60 | A fresh state has the record's defaults: it is loading and holds no data. It shows the chart, portrait and in one column, with a Compact width class and no click tooltip. There is no demo flag, tariff or query filter, no scroll is requested, and the queue is empty. |
| `UsageUi.ChosenMessage` | composeApp/src/commonMain/kotlin/com/rwmobi/kunigami/ui/destinations/usage/UsageUIState.kt:107 | The text of a generic failure is the throwable's message, else `defaultMessage`, else the localized fallback. |
| `UsageUi.UpdateLayoutType` | composeApp/src/commonMain/kotlin/com/rwmobi/kunigami/ui/destinations/usage/UsageUIState.kt:63-80 | Only the four layout fields change. The tooltip is shown on click exactly off desktop, and the stored width class is the input's. The chart is Portrait exactly for a portrait screen, and otherwise has a maximum height of half the screen height. The column count is the number of whole 175 dp columns the width holds. |
| `UsageUi.ColumnExamples` | composeApp/src/commonMain/kotlin/com/rwmobi/kunigami/ui/destinations/usage/UsageUIState.kt:61-65 | Widths 0, 174, 175, 349 and 350 dp give 0, 0, 1, 1 and 2 columns. |
| `UsageUi.UpdateLayoutTypeIdempotent` | composeApp/src/commonMain/kotlin/com/rwmobi/kunigami/ui/destinations/usage/UsageUIState.kt:63-80 | Applying the same window size twice gives the same state as applying it once. |
| `UsageUi.ClearDataFieldsAndStopLoading` | composeApp/src/commonMain/kotlin/com/rwmobi/kunigami/ui/destinations/usage/UsageUIState.kt:82-89 | The profile, the grouped cells, the chart data and the insights become empty. The range becomes 0..0 and loading stops. The tariff, demo flag, query filter, screen type, error queue, scroll request and all four layout fields are unchanged. |
| `UsageUi.ClearDataFieldsIdempotent` | composeApp/src/commonMain/kotlin/com/rwmobi/kunigami/ui/destinations/usage/UsageUIState.kt:82-89 | Clearing twice gives the same state as clearing once. |
| `UsageUi.ClearDataCommutesWithLayout` | composeApp/src/commonMain/kotlin/com/rwmobi/kunigami/ui/destinations/usage/UsageUIState.kt:63-89 | Clearing the data and fitting the layout touch disjoint fields, so either order gives the same state. |
| `UsageUi.FilterErrorAndStopLoading` | composeApp/src/commonMain/kotlin/com/rwmobi/kunigami/ui/destinations/usage/UsageUIState.kt:91-109 | Every outcome stops loading. An HTTP failure sets `Error(HttpError(code))` and a network failure sets `Error(NetworkError)`, with nothing else changed. Any other failure uses the chosen text. If that text is already queued the queue is unchanged; otherwise exactly one entry, with the fresh id and that text, is appended. The screen type and the queue invariant are kept. |
| `UsageUi.HandleErrorAndStopLoading` | composeApp/src/commonMain/kotlin/com/rwmobi/kunigami/ui/destinations/usage/UsageUIState.kt:111-124 | Only the queue and the loading flag change. The queue is unchanged if the text is present, and otherwise gains exactly the new entry at the end. The queue invariant is kept. |
| `UsageUi.RunKeepsNoDuplicateMessages` | composeApp/src/commonMain/kotlin/com/rwmobi/kunigami/ui/destinations/usage/UsageUIState.kt:111-124 | No sequence of layout changes, data resets and failures ever queues two entries with the same text. |
| `UsageUi.RunKeepsErrorScreen` | composeApp/src/commonMain/kotlin/com/rwmobi/kunigami/ui/destinations/usage/UsageUIState.kt:91-104 | Once the screen type is an error, it stays an error under any sequence of updates. It stays exactly the same error unless another HTTP or network failure replaces it. |

## Left out

- Failure translation (`mapFromPlatform`) is not modelled: the translated class of the failure is an input. `HttpException` and `UnresolvedAddressException` are the only classes the handlers distinguish.
- Platform detection (`getPlatformType`) and the orientation test (`ScreenSizeInfo.isPortrait`) are not modelled. Their results are the inputs `platform` and `isPortrait`.
- Localized string lookup (`getString`) is not modelled. It suspends in the source; here its result is the plain input `fallbackMessage`.
- Random ids (`generateRandomLong`) are not modelled: the id of a new entry is the input `newId`. Nothing is claimed about id uniqueness.
- Dp values are Kotlin `Float`s and are modelled as reals, so IEEE rounding, NaN and infinities are not modelled. `FloatToInt` sends every real to the saturated truncation.
- UsageUi.UpdateLayoutType: the exact column-count bracket is stated only for widths from 0 up to 175·2^31 dp. Outside that range the contract only bounds the count to the 32-bit range, and the saturation itself is stated by `UiModel.FloatToInt`.
- Leaving an error screen is not modelled, because the dismissal action lives in the view models, which are not part of this model. The sticky-error lemmas therefore cover the operations of these two records only.
- `TariffsScreenType` is modelled with exactly the `List`, `FullScreenDetail` and `Error` variants that these files use, because its declaration is not part of this model. The `IsErrorScreen` characterisation ("not unset, List or FullScreenDetail") relies on that closed set.
- `UsageScreenType` is modelled with only the `Chart` and `Error` variants, the two these files use. Any other variant would not change any modelled operation.
- The payload types (product summaries and details, user profile, tariff, query filter, grouped cells, bar-chart data, insights) are abstract: no operation here looks inside them.
- Navigation routing and view-model wiring (`AppNavigationHost.kt`) are not modelled; they are glue code with no state logic of their own.
- The colour spectrum (`GenerateFreezingBlueSpectrum.kt`) is not modelled: it is floating-point HSL interpolation over a library colour type.
- The chart title (`ChartTitle.kt`) is not modelled: it is a composable text widget.
