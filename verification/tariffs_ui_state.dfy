/**
 The Tariffs screen state: an immutable record with copy-style updates that
 pick the layout from the window size, resolve which sub-screen to show, and
 turn fetch failures into a sticky error screen or a queued notification.
 */
module TariffsUi {
  import opened Nullable
  import opened UiModel
  import opened ErrorMessages

  /** Payloads of the tariffs domain; their contents never matter here. */
  type ProductSummary
  type ProductDetails

  datatype TariffScreenLayoutStyle =
    | Compact(useBottomSheet: bool)
    | Wide(useBottomSheet: bool)
    | ListDetailPane

  datatype TariffsScreenType = List | FullScreenDetail | Error(specialErrorScreen: SpecialErrorScreen)

  /** Half the screen width must exceed this many dp for the wide list layout. */
  const WindowWidthCompact: real := 599.0

  datatype TariffsUIState = TariffsUIState(
    isLoading: bool,
    queryPostCode: Option<string>,
    productSummaries: seq<ProductSummary>,
    productDetails: Option<ProductDetails>,
    requestedScreenType: Option<TariffsScreenType>,
    requestedLayout: TariffScreenLayoutStyle,
    requestedWideListLayout: bool,
    requestScrollToTop: bool,
    errorMessages: seq<ErrorMessage>
  ) {

    /** A bottom sheet is used exactly by the compact and wide layouts that ask for one. */
    predicate ShouldUseBottomSheet()
      ensures ShouldUseBottomSheet() <==> requestedLayout in {TariffScreenLayoutStyle.Compact(true), Wide(true)}
    {
      (requestedLayout.Wide? && requestedLayout.useBottomSheet)
      || (requestedLayout.Compact? && requestedLayout.useBottomSheet)
    }

    /** The blocking loading screen shows only while nothing is listed yet. */
    predicate ShouldShowLoadingScreen()
      ensures ShouldShowLoadingScreen() ==> isLoading
      ensures |productSummaries| > 0 ==> !ShouldShowLoadingScreen()
      ensures isLoading && productSummaries == [] ==> ShouldShowLoadingScreen()
    {
      isLoading && |productSummaries| == 0
    }

    /** The requested screen is one of the sticky error screens. */
    predicate IsErrorScreen()
      ensures IsErrorScreen() <==> requestedScreenType !in {None, Some(List), Some(FullScreenDetail)}
    {
      requestedScreenType.Some? && requestedScreenType.value.Error?
    }

    /**
     The list is shown unless details are loaded on a compact or wide layout
     that has no bottom sheet.
     */
    predicate ShouldShowTariffsList()
      ensures !ShouldShowTariffsList() <==>
        productDetails.Some? && requestedLayout in {TariffScreenLayoutStyle.Compact(false), Wide(false)}
      ensures ShouldUseBottomSheet() ==> ShouldShowTariffsList()
    {
      || productDetails.None?
      || requestedLayout.ListDetailPane?
      || requestedLayout == TariffScreenLayoutStyle.Compact(true)
      || requestedLayout == Wide(true)
    }

    predicate HasProductDetailsLoaded()
      ensures HasProductDetailsLoaded() <==> productDetails != None
      ensures !HasProductDetailsLoaded() ==> ShouldShowTariffsList()
    {
      productDetails.Some?
    }
  }

  /** The state a fresh Tariffs screen starts from (the record's defaults). */
  function Initial(): (s: TariffsUIState)
    ensures s.isLoading && s.ShouldShowLoadingScreen() && s.ShouldUseBottomSheet()
    ensures s.requestedScreenType == None && s.productDetails == None && s.queryPostCode == None
    ensures s.requestedLayout == TariffScreenLayoutStyle.Compact(true) && !s.requestedWideListLayout
    ensures !s.requestScrollToTop && s.errorMessages == []
    ensures !s.IsErrorScreen() && NoDuplicateMessages(s.errorMessages)
  {
    TariffsUIState(
      isLoading := true,
      queryPostCode := None,
      productSummaries := [],
      productDetails := None,
      requestedScreenType := None,
      requestedLayout := TariffScreenLayoutStyle.Compact(useBottomSheet := true),
      requestedWideListLayout := false,
      requestScrollToTop := false,
      errorMessages := []
    )
  }

  /**
   Picks the layout style and the wide-list flag from the window; every other
   field, the requested screen type included, is left as it was. `platform`
   is the platform the window size class reports.
   */
  function UpdateLayoutType(s: TariffsUIState, screen: ScreenSizeInfo, widthClass: WidthClass,
                            platform: Platform): (r: TariffsUIState)
    ensures r == s.(requestedLayout := r.requestedLayout, requestedWideListLayout := r.requestedWideListLayout)
    ensures r.requestedLayout.ListDetailPane? <==> widthClass == Expanded
    ensures r.requestedLayout.Compact? <==> widthClass == WidthClass.Compact
    ensures r.ShouldUseBottomSheet() <==> widthClass != Expanded && platform != Desktop
    ensures r.requestedWideListLayout <==> widthClass == Medium || (widthClass == Expanded && screen.widthDp > 1198.0)
  {
    var layout := match widthClass
      case Compact => TariffScreenLayoutStyle.Compact(useBottomSheet := platform != Desktop)
      case Medium => Wide(useBottomSheet := platform != Desktop)
      case _ => ListDetailPane;
    var wideList :=
      if widthClass == WidthClass.Compact then false
      else if widthClass == Medium then true
      else if screen.widthDp / 2.0 > WindowWidthCompact then true
      else false;
    s.(requestedLayout := layout, requestedWideListLayout := wideList)
  }

  /**
   Resolves the sub-screen to show. An error screen is kept; otherwise the
   full-screen detail is shown exactly when details are loaded and the layout
   is a compact or wide one without a bottom sheet, and the list in all other
   cases, so the final "keep it" branch is never taken.
   */
  function UpdateScreenType(s: TariffsUIState): (r: TariffsUIState)
    ensures r == s.(requestedScreenType := r.requestedScreenType)
    ensures s.IsErrorScreen() ==> r == s
    ensures !s.IsErrorScreen() ==>
      r.requestedScreenType ==
        if s.productDetails.Some? && s.requestedLayout in {TariffScreenLayoutStyle.Compact(false), Wide(false)}
        then Some(FullScreenDetail) else Some(List)
  {
    var screenType :=
      if s.IsErrorScreen() then s.requestedScreenType
      else if s.ShouldShowTariffsList() then Some(List)
      else if s.HasProductDetailsLoaded() then Some(FullScreenDetail)
      else s.requestedScreenType;
    s.(requestedScreenType := screenType)
  }

  /**
   Files a fetch failure. `translated` is the platform-translated form of
   `throwable`; `fallbackMessage` is the localized "could not load account"
   text; `newId` is the random id a new notification would get.
   */
  function FilterErrorAndStopLoading(s: TariffsUIState, throwable: Throwable, translated: TranslatedFailure,
                                     fallbackMessage: string, newId: int): (r: TariffsUIState)
    ensures !r.isLoading && !r.ShouldShowLoadingScreen()
    ensures translated.HttpException? ==>
      r == s.(requestedScreenType := Some(Error(HttpError(translated.httpStatusCode))), isLoading := false)
    ensures translated.UnresolvedAddress? ==>
      r == s.(requestedScreenType := Some(Error(NetworkError)), isLoading := false)
    ensures translated.OtherFailure? ==> r == s.(errorMessages := r.errorMessages, isLoading := false)
    ensures translated.OtherFailure? && Contains(s.errorMessages, throwable.message.OrElse(fallbackMessage)) ==>
      r.errorMessages == s.errorMessages
    ensures translated.OtherFailure? && !Contains(s.errorMessages, throwable.message.OrElse(fallbackMessage)) ==>
      r.errorMessages == s.errorMessages + [ErrorMessage(newId, throwable.message.OrElse(fallbackMessage))]
    // Corollaries of the two clauses above, spelled out for callers.
    ensures translated.OtherFailure? ==>
      && |s.errorMessages| <= |r.errorMessages| <= |s.errorMessages| + 1
      && r.errorMessages[..|s.errorMessages|] == s.errorMessages
      && (NoDuplicateMessages(s.errorMessages) ==> NoDuplicateMessages(r.errorMessages))
    ensures translated.OtherFailure? && throwable.message.Some? ==> Contains(r.errorMessages, throwable.message.value)
    ensures translated.OtherFailure? && throwable.message.None? ==> Contains(r.errorMessages, fallbackMessage)
  {
    match translated
    case HttpException(code) =>
      s.(requestedScreenType := Some(Error(HttpError(code))), isLoading := false)
    case UnresolvedAddress =>
      s.(requestedScreenType := Some(Error(NetworkError)), isLoading := false)
    case OtherFailure =>
      HandleErrorAndStopLoading(s, throwable.message.OrElse(fallbackMessage), newId)
  }

  /**
   Queues `message` unless a queued entry already has that text, and stops
   loading; the screen type and all payloads are untouched.
   */
  function HandleErrorAndStopLoading(s: TariffsUIState, message: string, newId: int): (r: TariffsUIState)
    ensures r == s.(errorMessages := r.errorMessages, isLoading := false)
    ensures Contains(s.errorMessages, message) ==> r.errorMessages == s.errorMessages
    ensures !Contains(s.errorMessages, message) ==> r.errorMessages == s.errorMessages + [ErrorMessage(newId, message)]
    ensures NoDuplicateMessages(s.errorMessages) ==> NoDuplicateMessages(r.errorMessages)
  {
    s.(errorMessages := AppendUnique(s.errorMessages, message, newId), isLoading := false)
  }

  /** The layout table, one width class at a time. */
  lemma LayoutTable(s: TariffsUIState, screen: ScreenSizeInfo, platform: Platform)
    ensures UpdateLayoutType(s, screen, WidthClass.Compact, platform).requestedLayout
            == TariffScreenLayoutStyle.Compact(platform != Desktop)
    ensures !UpdateLayoutType(s, screen, WidthClass.Compact, platform).requestedWideListLayout
    ensures UpdateLayoutType(s, screen, Medium, platform).requestedLayout == Wide(platform != Desktop)
    ensures UpdateLayoutType(s, screen, Medium, platform).requestedWideListLayout
    ensures UpdateLayoutType(s, screen, Expanded, platform).requestedLayout == ListDetailPane
    ensures UpdateLayoutType(s, screen, Expanded, platform).requestedWideListLayout
            <==> screen.widthDp / 2.0 > WindowWidthCompact
  {
  }

  /** Re-applying the same window size changes nothing. */
  lemma UpdateLayoutTypeIdempotent(s: TariffsUIState, screen: ScreenSizeInfo, widthClass: WidthClass, platform: Platform)
    ensures UpdateLayoutType(UpdateLayoutType(s, screen, widthClass, platform), screen, widthClass, platform)
            == UpdateLayoutType(s, screen, widthClass, platform)
  {
  }

  /** Outside an error screen the resolver always lands on the list or the detail. */
  lemma KeepBranchUnreachable(s: TariffsUIState)
    ensures !s.IsErrorScreen() ==> s.ShouldShowTariffsList() || s.HasProductDetailsLoaded()
    ensures !s.IsErrorScreen() ==> UpdateScreenType(s).requestedScreenType in {Some(List), Some(FullScreenDetail)}
  {
  }

  /** Resolving twice is resolving once. */
  lemma UpdateScreenTypeIdempotent(s: TariffsUIState)
    ensures UpdateScreenType(UpdateScreenType(s)) == UpdateScreenType(s)
  {
  }

  /** A layout with a bottom sheet always resolves a non-error screen to the list. */
  lemma BottomSheetShowsList(s: TariffsUIState)
    requires !s.IsErrorScreen() && s.ShouldUseBottomSheet()
    ensures UpdateScreenType(s).requestedScreenType == Some(List)
  {
  }

  /**
   After a window-size change is resolved, a non-error screen shows the full
   screen detail exactly on a desktop window that is not expanded and has
   product details loaded.
   */
  lemma ResolvedScreenAfterLayout(s: TariffsUIState, screen: ScreenSizeInfo, widthClass: WidthClass, platform: Platform)
    requires !s.IsErrorScreen()
    ensures UpdateScreenType(UpdateLayoutType(s, screen, widthClass, platform)).requestedScreenType
            == if s.productDetails.Some? && platform == Desktop && widthClass != Expanded
               then Some(FullScreenDetail) else Some(List)
  {
  }

  /**
   Neither a window-size change nor a screen-type resolution can bring back
   (or dismiss) the blocking loading screen: both keep the loading flag and
   the product summaries it is decided by.
   */
  lemma LayoutAndResolutionKeepLoadingScreen(s: TariffsUIState, screen: ScreenSizeInfo, widthClass: WidthClass,
                                             platform: Platform)
    ensures UpdateLayoutType(s, screen, widthClass, platform).ShouldShowLoadingScreen() <==> s.ShouldShowLoadingScreen()
    ensures UpdateScreenType(s).ShouldShowLoadingScreen() <==> s.ShouldShowLoadingScreen()
  {
  }

  /** The events the screen's controller applies to its state, one at a time. */
  datatype Action =
    | WindowSizeChanged(screen: ScreenSizeInfo, widthClass: WidthClass, platform: Platform)
    | ScreenTypeResolved
    | FetchFailed(throwable: Throwable, translated: TranslatedFailure, fallbackMessage: string, newId: int)

  function Apply(s: TariffsUIState, a: Action): TariffsUIState {
    match a
    case WindowSizeChanged(screen, widthClass, platform) => UpdateLayoutType(s, screen, widthClass, platform)
    case ScreenTypeResolved => UpdateScreenType(s)
    case FetchFailed(throwable, translated, fallbackMessage, newId) =>
      FilterErrorAndStopLoading(s, throwable, translated, fallbackMessage, newId)
  }

  /** Applies the actions in order, as the controller serializes them. */
  function Run(s: TariffsUIState, actions: seq<Action>): TariffsUIState
    decreases |actions|
  {
    if |actions| == 0 then s else Run(Apply(s, actions[0]), actions[1..])
  }

  /** An action that replaces a sticky error screen by another one. */
  predicate RaisesErrorScreen(a: Action) {
    a.FetchFailed? && !a.translated.OtherFailure?
  }

  /** No sequence of updates ever queues two notifications with the same text. */
  lemma {:induction false} RunKeepsNoDuplicateMessages(s: TariffsUIState, actions: seq<Action>)
    requires NoDuplicateMessages(s.errorMessages)
    ensures NoDuplicateMessages(Run(s, actions).errorMessages)
    decreases |actions|
  {
    if |actions| > 0 {
      var t := Apply(s, actions[0]);
      assert NoDuplicateMessages(t.errorMessages);
      RunKeepsNoDuplicateMessages(t, actions[1..]);
    }
  }

  /**
   An error screen is sticky: no update in this model leaves it, and unless
   another HTTP or network failure arrives it stays exactly the same error.
   */
  lemma {:induction false} RunKeepsErrorScreen(s: TariffsUIState, actions: seq<Action>)
    requires s.IsErrorScreen()
    ensures Run(s, actions).IsErrorScreen()
    ensures (forall i :: 0 <= i < |actions| ==> !RaisesErrorScreen(actions[i]))
            ==> Run(s, actions).requestedScreenType == s.requestedScreenType
    decreases |actions|
  {
    if |actions| > 0 {
      var t := Apply(s, actions[0]);
      assert t.IsErrorScreen();
      RunKeepsErrorScreen(t, actions[1..]);
      if forall i :: 0 <= i < |actions| ==> !RaisesErrorScreen(actions[i]) {
        assert !RaisesErrorScreen(actions[0]);
        assert t.requestedScreenType == s.requestedScreenType;
        assert forall i :: 0 <= i < |actions[1..]| ==> !RaisesErrorScreen(actions[1..][i]) by {
          forall i | 0 <= i < |actions[1..]| ensures !RaisesErrorScreen(actions[1..][i]) {
            assert actions[1..][i] == actions[i + 1];
          }
        }
      }
    }
  }
}
