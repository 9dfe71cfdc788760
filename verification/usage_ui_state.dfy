/**
 The Usage screen state: an immutable record with copy-style updates that fit
 the chart layout and column count to the window, clear the fetched data, and
 turn fetch failures into a sticky error screen or a queued notification.
 */
module UsageUi {
  import opened Nullable
  import opened UiModel
  import opened ErrorMessages

  /** Payloads of the usage domain; their contents never matter here. */
  type UserProfile
  type Tariff
  type ConsumptionQueryFilter
  type ConsumptionGroupedCells
  type BarChartData
  type Insights

  /** The screen types this state is seen to request. */
  datatype UsageScreenType = Chart | Error(specialErrorScreen: SpecialErrorScreen)

  datatype RequestedChartLayout = Portrait | LandScape(requestedMaxHeight: real)

  /** A closed range `start..endInclusive` of consumption values. */
  datatype ConsumptionRange = ConsumptionRange(start: real, endInclusive: real)

  /** Width in dp of one usage column. */
  const UsageColumnWidth: real := 175.0

  datatype UsageUIState = UsageUIState(
    isLoading: bool,
    isDemoMode: Option<bool>,
    userProfile: Option<UserProfile>,
    tariff: Option<Tariff>,
    showToolTipOnClick: bool,
    requestedScreenType: UsageScreenType,
    requestedChartLayout: RequestedChartLayout,
    requestedAdaptiveLayout: WidthClass,
    requestedUsageColumns: int,
    consumptionQueryFilter: Option<ConsumptionQueryFilter>,
    consumptionGroupedCells: seq<ConsumptionGroupedCells>,
    consumptionRange: ConsumptionRange,
    barChartData: Option<BarChartData>,
    insights: Option<Insights>,
    requestScrollToTop: bool,
    errorMessages: seq<ErrorMessage>
  ) {

    /** None of the fetched data fields holds anything. */
    predicate HasNoData() {
      && userProfile.None?
      && |consumptionGroupedCells| == 0
      && consumptionRange == ConsumptionRange(0.0, 0.0)
      && barChartData.None?
      && insights.None?
    }

    /** The two states agree on every field that is not a layout field. */
    predicate SameExceptLayout(other: UsageUIState) {
      other == this.(showToolTipOnClick := other.showToolTipOnClick,
                     requestedAdaptiveLayout := other.requestedAdaptiveLayout,
                     requestedChartLayout := other.requestedChartLayout,
                     requestedUsageColumns := other.requestedUsageColumns)
    }
  }

  /** The text of a generic failure: its own message, else the default, else the fallback. */
  function ChosenMessage(throwable: Throwable, defaultMessage: Option<string>, fallbackMessage: string): (m: string)
    ensures throwable.message.Some? ==> m == throwable.message.value
    ensures throwable.message.None? && defaultMessage.Some? ==> m == defaultMessage.value
    ensures throwable.message.None? && defaultMessage.None? ==> m == fallbackMessage
  {
    throwable.message.Or(defaultMessage).OrElse(fallbackMessage)
  }

  /** The state a fresh Usage screen starts from (the record's defaults). */
  function Initial(): (s: UsageUIState)
    ensures s.isLoading && s.HasNoData() && NoDuplicateMessages(s.errorMessages)
    ensures s.requestedScreenType == Chart && s.requestedUsageColumns == 1
    ensures s.errorMessages == [] && !s.showToolTipOnClick && !s.requestScrollToTop
    ensures s.requestedChartLayout == Portrait && s.requestedAdaptiveLayout == WidthClass.Compact
    ensures s.isDemoMode == None && s.tariff == None && s.consumptionQueryFilter == None
  {
    UsageUIState(
      isLoading := true,
      isDemoMode := None,
      userProfile := None,
      tariff := None,
      showToolTipOnClick := false,
      requestedScreenType := Chart,
      requestedChartLayout := Portrait,
      requestedAdaptiveLayout := WidthClass.Compact,
      requestedUsageColumns := 1,
      consumptionQueryFilter := None,
      consumptionGroupedCells := [],
      consumptionRange := ConsumptionRange(0.0, 0.0),
      barChartData := None,
      insights := None,
      requestScrollToTop := false,
      errorMessages := []
    )
  }

  /**
   Fits the layout fields to the window. `platform` is the platform the window
   size class reports and `isPortrait` the orientation the screen size
   reports. The column count is how many whole 175 dp columns the width holds;
   a landscape chart may use half the screen height.
   */
  function UpdateLayoutType(s: UsageUIState, screen: ScreenSizeInfo, widthClass: WidthClass, platform: Platform,
                            isPortrait: bool): (r: UsageUIState)
    ensures s.SameExceptLayout(r)
    ensures r.showToolTipOnClick <==> platform != Desktop
    ensures r.requestedAdaptiveLayout == widthClass
    ensures r.requestedChartLayout.Portrait? <==> isPortrait
    ensures !isPortrait ==> 2.0 * r.requestedChartLayout.requestedMaxHeight == screen.heightDp
    ensures 0.0 <= screen.widthDp < UsageColumnWidth * (IntMax + 1) as real ==>
      && 0 <= r.requestedUsageColumns
      && r.requestedUsageColumns as real * UsageColumnWidth <= screen.widthDp
      && screen.widthDp < (r.requestedUsageColumns + 1) as real * UsageColumnWidth
    ensures IntMin <= r.requestedUsageColumns <= IntMax
  {
    var showToolTipOnClick := platform != Desktop;
    var usageColumns := FloatToInt(screen.widthDp / UsageColumnWidth);
    var requestedLayout :=
      if isPortrait then Portrait
      else LandScape(requestedMaxHeight := screen.heightDp / 2.0);
    s.(showToolTipOnClick := showToolTipOnClick,
       requestedAdaptiveLayout := widthClass,
       requestedChartLayout := requestedLayout,
       requestedUsageColumns := usageColumns)
  }

  /**
   Drops the fetched data and stops loading; the tariff, the query filter,
   the screen type, the layout fields and the error queue are kept.
   */
  function ClearDataFieldsAndStopLoading(s: UsageUIState): (r: UsageUIState)
    ensures r.HasNoData() && !r.isLoading
    ensures r.tariff == s.tariff && r.isDemoMode == s.isDemoMode
    ensures r.consumptionQueryFilter == s.consumptionQueryFilter
    ensures r.requestedScreenType == s.requestedScreenType && r.errorMessages == s.errorMessages
    ensures r.requestScrollToTop == s.requestScrollToTop
    ensures r.showToolTipOnClick == s.showToolTipOnClick
    ensures r.requestedChartLayout == s.requestedChartLayout
    ensures r.requestedAdaptiveLayout == s.requestedAdaptiveLayout
    ensures r.requestedUsageColumns == s.requestedUsageColumns
  {
    s.(userProfile := None,
       consumptionGroupedCells := [],
       consumptionRange := ConsumptionRange(0.0, 0.0),
       barChartData := None,
       insights := None,
       isLoading := false)
  }

  /**
   Files a fetch failure. `translated` is the platform-translated form of
   `throwable`; `defaultMessage` is the caller's optional text and
   `fallbackMessage` the localized "could not load tariff" text; `newId` is
   the random id a new notification would get.
   */
  function FilterErrorAndStopLoading(s: UsageUIState, throwable: Throwable, translated: TranslatedFailure,
                                     defaultMessage: Option<string>, fallbackMessage: string,
                                     newId: int): (r: UsageUIState)
    ensures !r.isLoading
    ensures translated.HttpException? ==>
      r == s.(requestedScreenType := Error(HttpError(translated.httpStatusCode)), isLoading := false)
    ensures translated.UnresolvedAddress? ==>
      r == s.(requestedScreenType := Error(NetworkError), isLoading := false)
    ensures translated.OtherFailure? ==> r == s.(errorMessages := r.errorMessages, isLoading := false)
    ensures translated.OtherFailure? && Contains(s.errorMessages, ChosenMessage(throwable, defaultMessage, fallbackMessage)) ==>
      r.errorMessages == s.errorMessages
    ensures translated.OtherFailure? && !Contains(s.errorMessages, ChosenMessage(throwable, defaultMessage, fallbackMessage)) ==>
      r.errorMessages == s.errorMessages + [ErrorMessage(newId, ChosenMessage(throwable, defaultMessage, fallbackMessage))]
    // Corollaries of the two clauses above, spelled out for callers.
    ensures translated.OtherFailure? ==>
      && Contains(r.errorMessages, ChosenMessage(throwable, defaultMessage, fallbackMessage))
      && |s.errorMessages| <= |r.errorMessages| <= |s.errorMessages| + 1
      && r.errorMessages[..|s.errorMessages|] == s.errorMessages
      && (NoDuplicateMessages(s.errorMessages) ==> NoDuplicateMessages(r.errorMessages))
  {
    match translated
    case HttpException(code) =>
      s.(requestedScreenType := Error(HttpError(code)), isLoading := false)
    case UnresolvedAddress =>
      s.(requestedScreenType := Error(NetworkError), isLoading := false)
    case OtherFailure =>
      HandleErrorAndStopLoading(s, ChosenMessage(throwable, defaultMessage, fallbackMessage), newId)
  }

  /**
   Queues `message` unless a queued entry already has that text, and stops
   loading; the screen type and all payloads are untouched.
   */
  function HandleErrorAndStopLoading(s: UsageUIState, message: string, newId: int): (r: UsageUIState)
    ensures r == s.(errorMessages := r.errorMessages, isLoading := false)
    ensures Contains(s.errorMessages, message) ==> r.errorMessages == s.errorMessages
    ensures !Contains(s.errorMessages, message) ==> r.errorMessages == s.errorMessages + [ErrorMessage(newId, message)]
    ensures NoDuplicateMessages(s.errorMessages) ==> NoDuplicateMessages(r.errorMessages)
  {
    s.(errorMessages := AppendUnique(s.errorMessages, message, newId), isLoading := false)
  }

  /** Column counts at the widths around the column boundaries. */
  lemma ColumnExamples(s: UsageUIState, platform: Platform, isPortrait: bool)
    ensures UpdateLayoutType(s, ScreenSizeInfo(800.0, 0.0), WidthClass.Compact, platform, isPortrait).requestedUsageColumns == 0
    ensures UpdateLayoutType(s, ScreenSizeInfo(800.0, 174.0), WidthClass.Compact, platform, isPortrait).requestedUsageColumns == 0
    ensures UpdateLayoutType(s, ScreenSizeInfo(800.0, 175.0), WidthClass.Compact, platform, isPortrait).requestedUsageColumns == 1
    ensures UpdateLayoutType(s, ScreenSizeInfo(800.0, 349.0), WidthClass.Compact, platform, isPortrait).requestedUsageColumns == 1
    ensures UpdateLayoutType(s, ScreenSizeInfo(800.0, 350.0), Medium, platform, isPortrait).requestedUsageColumns == 2
  {
  }

  /** Re-applying the same window size changes nothing. */
  lemma UpdateLayoutTypeIdempotent(s: UsageUIState, screen: ScreenSizeInfo, widthClass: WidthClass,
                                   platform: Platform, isPortrait: bool)
    ensures UpdateLayoutType(UpdateLayoutType(s, screen, widthClass, platform, isPortrait), screen, widthClass, platform, isPortrait)
            == UpdateLayoutType(s, screen, widthClass, platform, isPortrait)
  {
  }

  /** Clearing twice is clearing once. */
  lemma ClearDataFieldsIdempotent(s: UsageUIState)
    ensures ClearDataFieldsAndStopLoading(ClearDataFieldsAndStopLoading(s)) == ClearDataFieldsAndStopLoading(s)
  {
  }

  /** Clearing the data and fitting the layout touch disjoint fields, so they commute. */
  lemma ClearDataCommutesWithLayout(s: UsageUIState, screen: ScreenSizeInfo, widthClass: WidthClass,
                                    platform: Platform, isPortrait: bool)
    ensures UpdateLayoutType(ClearDataFieldsAndStopLoading(s), screen, widthClass, platform, isPortrait)
            == ClearDataFieldsAndStopLoading(UpdateLayoutType(s, screen, widthClass, platform, isPortrait))
  {
  }

  /** The events the screen's controller applies to its state, one at a time. */
  datatype Action =
    | WindowSizeChanged(screen: ScreenSizeInfo, widthClass: WidthClass, platform: Platform, isPortrait: bool)
    | DataCleared
    | FetchFailed(throwable: Throwable, translated: TranslatedFailure, defaultMessage: Option<string>,
                  fallbackMessage: string, newId: int)

  function Apply(s: UsageUIState, a: Action): UsageUIState {
    match a
    case WindowSizeChanged(screen, widthClass, platform, isPortrait) =>
      UpdateLayoutType(s, screen, widthClass, platform, isPortrait)
    case DataCleared => ClearDataFieldsAndStopLoading(s)
    case FetchFailed(throwable, translated, defaultMessage, fallbackMessage, newId) =>
      FilterErrorAndStopLoading(s, throwable, translated, defaultMessage, fallbackMessage, newId)
  }

  /** Applies the actions in order, as the controller serializes them. */
  function Run(s: UsageUIState, actions: seq<Action>): UsageUIState
    decreases |actions|
  {
    if |actions| == 0 then s else Run(Apply(s, actions[0]), actions[1..])
  }

  /** An action that replaces a sticky error screen by another one. */
  predicate RaisesErrorScreen(a: Action) {
    a.FetchFailed? && !a.translated.OtherFailure?
  }

  /** No sequence of updates ever queues two notifications with the same text. */
  lemma {:induction false} RunKeepsNoDuplicateMessages(s: UsageUIState, actions: seq<Action>)
    requires NoDuplicateMessages(s.errorMessages)
    ensures NoDuplicateMessages(Run(s, actions).errorMessages)
    decreases |actions|
  {
    if |actions| > 0 {
      var t := Apply(s, actions[0]);
      assert NoDuplicateMessages(t.errorMessages);
      RunKeepsNoDuplicateMessages(t, actions[1..]);
    }
  }

  /**
   An error screen is sticky: no update in this model leaves it, and unless
   another HTTP or network failure arrives it stays exactly the same error.
   */
  lemma {:induction false} RunKeepsErrorScreen(s: UsageUIState, actions: seq<Action>)
    requires s.requestedScreenType.Error?
    ensures Run(s, actions).requestedScreenType.Error?
    ensures (forall i :: 0 <= i < |actions| ==> !RaisesErrorScreen(actions[i]))
            ==> Run(s, actions).requestedScreenType == s.requestedScreenType
    decreases |actions|
  {
    if |actions| > 0 {
      var t := Apply(s, actions[0]);
      assert t.requestedScreenType.Error?;
      RunKeepsErrorScreen(t, actions[1..]);
      if forall i :: 0 <= i < |actions| ==> !RaisesErrorScreen(actions[i]) {
        assert !RaisesErrorScreen(actions[0]);
        assert t.requestedScreenType == s.requestedScreenType;
        assert forall i :: 0 <= i < |actions[1..]| ==> !RaisesErrorScreen(actions[1..][i]) by {
          forall i | 0 <= i < |actions[1..]| ensures !RaisesErrorScreen(actions[1..][i]) {
            assert actions[1..][i] == actions[i + 1];
          }
        }
      }
    }
  }
}
