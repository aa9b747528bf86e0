/**
 * The decision logic of the UWP action renderer (ActionHelpers.cpp), with all
 * control construction abstracted away: each operation computes a plan (a
 * margin, an alignment, a style name, the kind of button, the warnings it
 * adds) from the action model and the host configuration.
 */
module ActionHelpers {
  import opened Xaml

  // ---------------------------------------------------------------------------
  // The action model and the actions section of the host configuration
  // ---------------------------------------------------------------------------

  /** The action kinds this code distinguishes; every other kind behaves alike. */
  datatype ActionType = OpenUrl | ShowCard | OtherActionType

  /** What to do when no renderer is registered for an action's type string. */
  datatype Fallback = NoFallback | Drop | Content(fallbackContent: Action)

  /** An action element; an empty icon URL stands for an absent one (a null HSTRING is empty). */
  datatype Action = Action(
    actionType: ActionType,
    typeString: string,
    title: string,
    iconUrl: string,
    style: string,
    fallback: Fallback)

  datatype ActionAlignment = Left | Center | Right | Stretch

  datatype IconPlacement = AboveTitle | LeftOfTitle

  datatype ActionMode = Inline | Popup

  /** The actions configuration read by the helpers. */
  datatype ActionsConfig = ActionsConfig(
    buttonSpacing: UInt32,
    orientation: Orientation,
    alignment: ActionAlignment,
    maxActions: UInt32,
    iconPlacement: IconPlacement,
    iconSize: UInt32,
    showCardMode: ActionMode)

  /** The warnings these helpers add to the render context. */
  datatype Warning =
    | FallbackDrop(droppedType: string)
    | FallbackContent(fromType: string, toType: string)
    | MaxActionsExceeded
    | UnsupportedValue(message: string)
    | InteractivityNotSupported

  // ---------------------------------------------------------------------------
  // Margins
  // ---------------------------------------------------------------------------

  /** Half the button spacing, by unsigned integer division. */
  function HalfSpacing(config: ActionsConfig): nat
  {
    config.buttonSpacing / 2
  }

  /** The margin of every action button: half the spacing on each side of the orientation axis. */
  function ButtonMargin(config: ActionsConfig): Thickness
  {
    var half := HalfSpacing(config) as real;
    if config.orientation == Horizontal then Thickness(half, 0.0, half, 0.0)
    else Thickness(0.0, half, 0.0, half)
  }

  /** GetButtonMargin: clears the thickness, then writes the two sides of the orientation axis. */
  method GetButtonMargin(config: ActionsConfig) returns (buttonMargin: Thickness)
    ensures config.orientation == Horizontal ==>
      buttonMargin.left == buttonMargin.right == (config.buttonSpacing / 2) as real &&
      buttonMargin.top == buttonMargin.bottom == 0.0
    ensures config.orientation == Vertical ==>
      buttonMargin.top == buttonMargin.bottom == (config.buttonSpacing / 2) as real &&
      buttonMargin.left == buttonMargin.right == 0.0
    ensures buttonMargin == ButtonMargin(config)
  {
    buttonMargin := Thickness(0.0, 0.0, 0.0, 0.0);
    var buttonSpacing := config.buttonSpacing;
    if config.orientation == Horizontal {
      buttonMargin := buttonMargin.(left := (buttonSpacing / 2) as real);
      buttonMargin := buttonMargin.(right := buttonMargin.left);
    } else {
      buttonMargin := buttonMargin.(top := (buttonSpacing / 2) as real);
      buttonMargin := buttonMargin.(bottom := buttonMargin.top);
    }
  }

  /** The margin of the panel that hosts the buttons, computed from the button margin. */
  function ActionsPanelMargin(orientation: Orientation, buttonMargin: Thickness): Thickness
  {
    if orientation == Horizontal then Thickness(buttonMargin.left * -1.0, 0.0, buttonMargin.right * -1.0, 0.0)
    else Thickness(0.0, buttonMargin.top * -1.0, 0.0, buttonMargin.bottom * -1.0)
  }

  /**
   * The panel margin cancels the button margin exactly: together they are zero
   * on every side, so the first and last buttons sit flush with the panel edges.
   */
  lemma PanelMarginCancelsButtonMargin(config: ActionsConfig)
    ensures ActionsPanelMargin(config.orientation, ButtonMargin(config)) == Negate(ButtonMargin(config))
  {
  }

  /**
   * Two neighbouring buttons are separated by the configured spacing rounded
   * down to an even number, since each carries half of it, and the axis that
   * is not the orientation axis carries no margin.
   */
  lemma AdjacentButtonGap(config: ActionsConfig)
    ensures var m := ButtonMargin(config);
      var gap := if config.orientation == Horizontal then m.right + m.left else m.bottom + m.top;
      var cross := if config.orientation == Horizontal then m.top + m.bottom else m.left + m.right;
      gap == (config.buttonSpacing - config.buttonSpacing % 2) as real && cross == 0.0 &&
      config.buttonSpacing as real - 1.0 <= gap <= config.buttonSpacing as real
  {
    var s := config.buttonSpacing;
    assert 2 * (s / 2) == s - s % 2;
  }

  // ---------------------------------------------------------------------------
  // Alignment and panel choice
  // ---------------------------------------------------------------------------

  /** The switch from the configured action alignment to a XAML horizontal alignment. */
  function ToHorizontalAlignment(alignment: ActionAlignment): HorizontalAlignment
  {
    match alignment
    case Center => AlignCenter
    case Left => AlignLeft
    case Right => AlignRight
    case Stretch => AlignStretch
  }

  /** The horizontal alignment BuildAction gives every button. */
  function ButtonAlignment(config: ActionsConfig): (r: HorizontalAlignment)
    ensures config.orientation == Horizontal ==> r == AlignStretch
    ensures config.orientation == Vertical ==> r == ToHorizontalAlignment(config.alignment)
  {
    if config.orientation == Horizontal then AlignStretch
    else ToHorizontalAlignment(config.alignment)
  }

  /** The panel that hosts the buttons: a grid of equal columns, or a stack panel. */
  datatype Panel = GridPanel | StackPanel(orientation: Orientation, alignment: HorizontalAlignment)

  /**
   * A grid is used exactly when the alignment is Stretch and the orientation
   * Horizontal. A stack panel takes the configured orientation and alignment,
   * so in a vertical stack every button is aligned as the panel is.
   */
  function ChoosePanel(config: ActionsConfig): (r: Panel)
    ensures r.GridPanel? <==> config.alignment == Stretch && config.orientation == Horizontal
    ensures r.StackPanel? ==>
      r.orientation == config.orientation && r.alignment == ToHorizontalAlignment(config.alignment) &&
      (r.alignment == AlignStretch <==> config.alignment == Stretch)
    ensures config.orientation == Vertical ==> r == StackPanel(Vertical, ButtonAlignment(config))
  {
    if config.alignment == Stretch && config.orientation == Horizontal then GridPanel
    else StackPanel(config.orientation, ToHorizontalAlignment(config.alignment))
  }

  // ---------------------------------------------------------------------------
  // Sentiment styling
  // ---------------------------------------------------------------------------

  /** Where a button's style is looked up: the host's override styles, or the built-in sentiment defaults. */
  datatype StyleRef = OverrideStyle(name: string) | SentimentDefaultStyle(name: string)

  const ActionStylePrefix: string := "Adaptive.Action"

  /** HandleActionStyling: the style a button receives for its action's style string. */
  function HandleActionStyling(style: string, overrideStyles: set<string>): (r: StyleRef)
    ensures r.SentimentDefaultStyle? <==>
      (style == "positive" && "Adaptive.Action.Positive" !in overrideStyles) ||
      (style == "destructive" && "Adaptive.Action.Destructive" !in overrideStyles)
    ensures r.OverrideStyle? ==> |r.name| >= |ActionStylePrefix| && r.name[..|ActionStylePrefix|] == ActionStylePrefix
    ensures style == "" || style == "default" ==> r == OverrideStyle("Adaptive.Action")
    ensures style == "positive" ==>
      r == if "Adaptive.Action.Positive" in overrideStyles then OverrideStyle("Adaptive.Action.Positive")
           else SentimentDefaultStyle("PositiveActionDefaultStyle")
    ensures style == "destructive" ==>
      r == if "Adaptive.Action.Destructive" in overrideStyles then OverrideStyle("Adaptive.Action.Destructive")
           else SentimentDefaultStyle("DestructiveActionDefaultStyle")
    ensures style != "" && style != "default" && style != "positive" && style != "destructive" ==>
      r == OverrideStyle("Adaptive.Action." + style)
  {
    if style == "default" || style == "" then OverrideStyle("Adaptive.Action")
    else if style == "positive" then
      if "Adaptive.Action.Positive" in overrideStyles then OverrideStyle("Adaptive.Action.Positive")
      else SentimentDefaultStyle("PositiveActionDefaultStyle")
    else if style == "destructive" then
      if "Adaptive.Action.Destructive" in overrideStyles then OverrideStyle("Adaptive.Action.Destructive")
      else SentimentDefaultStyle("DestructiveActionDefaultStyle")
    else OverrideStyle("Adaptive.Action." + style)
  }

  /**
   * Only the two sentiments consult the override styles, so for every other
   * style string the choice does not depend on them; and because comparison is
   * ordinal, "Positive" is not the positive sentiment.
   */
  lemma StylingConsultsOverridesOnlyForSentiments(style: string, overrides1: set<string>, overrides2: set<string>)
    ensures style != "positive" && style != "destructive" ==>
      HandleActionStyling(style, overrides1) == HandleActionStyling(style, overrides2)
    ensures HandleActionStyling("Positive", overrides1).OverrideStyle?
    ensures HandleActionStyling("positive", overrides1) == HandleActionStyling("positive", overrides2) <==>
      ("Adaptive.Action.Positive" in overrides1 <==> "Adaptive.Action.Positive" in overrides2)
  {
  }

  // ---------------------------------------------------------------------------
  // Buttons
  // ---------------------------------------------------------------------------

  datatype ButtonKind = LinkButton | StandardButton

  /** CreateAppropriateButton: OpenUrl actions become link buttons, everything else (and no action) a standard button. */
  function CreateAppropriateButton(action: Option<Action>): (r: ButtonKind)
    ensures r == LinkButton <==> action.Some? && action.value.actionType == OpenUrl
  {
    if action.Some? && action.value.actionType == OpenUrl then LinkButton else StandardButton
  }

  /** What a button shows. */
  datatype ButtonContent =
    | TitleText(title: string)
    | IconAboveTitle(iconUrl: string, title: string, iconHeight: UInt32)
    | IconLeftOfTitle(iconUrl: string, title: string, separatorSpacing: UInt32)

  /** What rendering the icon through the registered "Image" element renderer gives. */
  datatype IconRendering =
    | NoImageRenderer   // no element renderer is registered for "Image"
    | IconElement       // the renderer produced an element for the icon
    | NoIconElement     // the renderer produced no element

  /** The outcome of arranging a button's content as written: a content, or a null icon dereferenced. */
  datatype ArrangeOutcome = Arranged(content: ButtonContent) | NullIconDereferenced

  /**
   * ArrangeButtonContent as written. Without an "Image" renderer the icon
   * stays null, and the code goes on to query it for its framework element.
   */
  function ArrangeButtonContentAsWritten(action: Action, config: ActionsConfig, allActionsHaveIcons: bool,
                                         icon: IconRendering, defaultSpacing: UInt32): (r: ArrangeOutcome)
    ensures r.NullIconDereferenced? <==> action.iconUrl != "" && icon == NoImageRenderer
  {
    if action.iconUrl == "" then Arranged(TitleText(action.title))
    else if icon == NoIconElement then Arranged(TitleText(action.title))
    else if icon == NoImageRenderer then NullIconDereferenced
    else if config.iconPlacement == AboveTitle && allActionsHaveIcons then
      Arranged(IconAboveTitle(action.iconUrl, action.title, config.iconSize))
    else Arranged(IconLeftOfTitle(action.iconUrl, action.title, defaultSpacing))
  }

  /**
   * ArrangeButtonContent, with a missing "Image" renderer treated like a
   * renderer that produces no icon: the button shows its title.
   * `defaultSpacing` is the host's default spacing, used for the separator
   * between an icon and its title.
   */
  function ArrangeButtonContent(action: Action, config: ActionsConfig, allActionsHaveIcons: bool,
                                icon: IconRendering, defaultSpacing: UInt32): (r: ButtonContent)
    ensures r.IconAboveTitle? <==>
      action.iconUrl != "" && icon == IconElement && config.iconPlacement == AboveTitle && allActionsHaveIcons
    ensures r.TitleText? <==> action.iconUrl == "" || icon != IconElement
    ensures r.IconLeftOfTitle? ==> r.separatorSpacing == defaultSpacing
    ensures r.title == action.title
    ensures !r.TitleText? ==> r.iconUrl == action.iconUrl
    ensures r.IconAboveTitle? ==> r.iconHeight == config.iconSize
  {
    if action.iconUrl == "" then TitleText(action.title)
    else if icon != IconElement then TitleText(action.title)
    else if config.iconPlacement == AboveTitle && allActionsHaveIcons then
      IconAboveTitle(action.iconUrl, action.title, config.iconSize)
    else IconLeftOfTitle(action.iconUrl, action.title, defaultSpacing)
  }

  /**
   * The code as written dereferences a null icon exactly when an action with
   * an icon is arranged without an "Image" renderer; in every other case it
   * arranges the content as ArrangeButtonContent does.
   */
  lemma ArrangeAsWrittenMatchesExceptWithoutImageRenderer(action: Action, config: ActionsConfig, allActionsHaveIcons: bool,
                                                           icon: IconRendering, defaultSpacing: UInt32)
    ensures ArrangeButtonContentAsWritten(action, config, allActionsHaveIcons, icon, defaultSpacing) ==
              Arranged(ArrangeButtonContent(action, config, allActionsHaveIcons, icon, defaultSpacing)) <==>
            !(action.iconUrl != "" && icon == NoImageRenderer)
  {
  }

  /** An action with an icon, on a host with no "Image" renderer, as written. */
  lemma IconWithoutImageRendererDereferencesNull(config: ActionsConfig, defaultSpacing: UInt32)
    ensures ArrangeButtonContentAsWritten(Action(OtherActionType, "Action.Submit", "Send", "icon.png", "", NoFallback),
                                          config, true, NoImageRenderer, defaultSpacing) == NullIconDereferenced
  {
  }

  /** The button BuildAction produces for an action. */
  datatype ButtonPlan = ButtonPlan(
    kind: ButtonKind,
    margin: Thickness,
    alignment: HorizontalAlignment,
    automationName: string,
    content: ButtonContent,
    style: StyleRef,
    clickSends: Action)

  /**
   * BuildAction. `allowAboveTitleIconPlacement` is the flag the action-set
   * builder publishes in the render arguments; `overrideStyles` names the
   * styles the host overrides.
   */
  function BuildAction(action: Action, config: ActionsConfig, allowAboveTitleIconPlacement: bool,
                       icon: IconRendering, defaultSpacing: UInt32, overrideStyles: set<string>): (r: ButtonPlan)
    ensures r.kind == LinkButton <==> action.actionType == OpenUrl
    ensures config.orientation == Horizontal ==>
      r.alignment == AlignStretch && r.margin.top == r.margin.bottom == 0.0 &&
      r.margin.left == r.margin.right == (config.buttonSpacing / 2) as real
    ensures config.orientation == Vertical ==>
      r.alignment == ToHorizontalAlignment(config.alignment) && r.margin.left == r.margin.right == 0.0 &&
      r.margin.top == r.margin.bottom == (config.buttonSpacing / 2) as real
    ensures r.content.IconAboveTitle? ==> config.iconPlacement == AboveTitle && allowAboveTitleIconPlacement
    ensures r.automationName == action.title && r.content.title == action.title
    ensures r.content == ArrangeButtonContent(action, config, allowAboveTitleIconPlacement, icon, defaultSpacing)
    ensures r.style == HandleActionStyling(action.style, overrideStyles)
    ensures r.clickSends == action
  {
    ButtonPlan(
      CreateAppropriateButton(Some(action)),
      ButtonMargin(config),
      ButtonAlignment(config),
      action.title,
      ArrangeButtonContent(action, config, allowAboveTitleIconPlacement, icon, defaultSpacing),
      HandleActionStyling(action.style, overrideStyles),
      action)
  }

  // ---------------------------------------------------------------------------
  // Inline show cards, touch targets and select actions
  // ---------------------------------------------------------------------------

  datatype InlineShowCardCheck = InlineShowCardCheck(isShowCard: bool, warnings: seq<Warning>)

  /** WarnForInlineShowCard: a present ShowCard action is reported with one UnsupportedValue warning. */
  function WarnForInlineShowCard(action: Option<Action>, warning: string): (r: InlineShowCardCheck)
    ensures r.isShowCard <==> action.Some? && action.value.actionType == ShowCard
    ensures r.warnings == if r.isShowCard then [UnsupportedValue(warning)] else []
  {
    if action.Some? && action.value.actionType == ShowCard then
      InlineShowCardCheck(true, [UnsupportedValue(warning)])
    else InlineShowCardCheck(false, [])
  }

  /** The hit-target button WrapInTouchTarget puts around an element. */
  datatype TouchTarget = TouchTarget(
    kind: ButtonKind,
    padding: Option<Thickness>,
    margin: Option<Thickness>,
    style: string,
    automationName: Option<string>,
    clickSends: Option<Action>)

  /** The element that results from wrapping: the original one, or the original inside a touch target. */
  datatype Wrapped = Unwrapped | InTouchTarget(target: TouchTarget)

  datatype WrapResult = WrapResult(element: Wrapped, warnings: seq<Warning>)

  /**
   * WrapInTouchTarget. `elementSpacing` is the spacing size of the wrapped
   * card element (none for a card-level target); `cardPadding` is the host's
   * padding, used only for full-width targets.
   */
  function WrapInTouchTarget(elementSpacing: Option<UInt32>, action: Option<Action>, cardPadding: UInt32,
                             fullWidth: bool, style: string): (r: WrapResult)
    ensures r.element.Unwrapped? <==> action.Some? && action.value.actionType == ShowCard
    ensures r.warnings == if r.element.Unwrapped? then [UnsupportedValue("Inline ShowCard not supported for SelectAction")] else []
    ensures r.element.InTouchTarget? ==>
      var t := r.element.target;
      t.style == style &&
      t.kind == CreateAppropriateButton(action) &&
      (t.padding.Some? <==> elementSpacing.Some?) &&
      (t.padding.Some? ==>
         t.margin == Some(Negate(t.padding.value)) &&
         t.padding.value.top == t.padding.value.bottom == elementSpacing.value as real / 2.0 &&
         t.padding.value.left == t.padding.value.right == (if fullWidth then cardPadding as real else 0.0)) &&
      (t.padding.None? ==> t.margin.None?) &&
      (t.clickSends.Some? <==> action.Some?) &&
      (action.Some? ==> t.clickSends == action && t.automationName == Some(action.value.title))
  {
    var check := WarnForInlineShowCard(action, "Inline ShowCard not supported for SelectAction");
    if check.isShowCard then WrapResult(Unwrapped, check.warnings)
    else
      var padding: real := if fullWidth then cardPadding as real else 0.0;
      var spacings: (Option<Thickness>, Option<Thickness>) :=
        match elementSpacing
        case None => (None, None)
        case Some(spacingSize) =>
          var topBottomPadding := spacingSize as real / 2.0;
          (Some(Thickness(padding, topBottomPadding, padding, topBottomPadding)),
           Some(Thickness(padding * -1.0, topBottomPadding * -1.0, padding * -1.0, topBottomPadding * -1.0)));
      var name := if action.Some? then Some(action.value.title) else None;
      WrapResult(InTouchTarget(TouchTarget(CreateAppropriateButton(action), spacings.0, spacings.1, style, name, action)), [])
  }

  /** HandleSelectAction: wraps the element for a select action when the host supports interactivity. */
  function HandleSelectAction(elementSpacing: Option<UInt32>, selectAction: Option<Action>, supportsInteractivity: bool,
                              fullWidthTouchTarget: bool, cardPadding: UInt32): (r: WrapResult)
    ensures r.element.InTouchTarget? <==>
      selectAction.Some? && supportsInteractivity && selectAction.value.actionType != ShowCard
    ensures r.element.InTouchTarget? ==> r.element.target.style == "Adaptive.SelectAction" && r.warnings == []
    ensures InteractivityNotSupported in r.warnings <==> selectAction.Some? && !supportsInteractivity
    ensures UnsupportedValue("Inline ShowCard not supported for SelectAction") in r.warnings <==>
      selectAction.Some? && supportsInteractivity && selectAction.value.actionType == ShowCard
    ensures |r.warnings| <= 1
  {
    if selectAction.Some? && supportsInteractivity then
      WrapInTouchTarget(elementSpacing, selectAction, cardPadding, fullWidthTouchTarget, "Adaptive.SelectAction")
    else
      WrapResult(Unwrapped, if selectAction.Some? then [InteractivityNotSupported] else [])
  }

  // ---------------------------------------------------------------------------
  // Inline actions of text inputs
  // ---------------------------------------------------------------------------

  datatype VirtualKey = Enter | OtherKey(code: nat)

  /** A CoreVirtualKeyStates value: the flags Down and Locked; None is neither. */
  datatype KeyStates = KeyStates(down: bool, locked: bool)

  predicate IsNone(states: KeyStates)
  {
    !states.down && !states.locked
  }

  datatype KeyOutcome = KeyOutcome(sendsAction: bool, handled: bool)

  /** HandleKeydownForInlineAction: Enter with neither Shift nor Ctrl sends the action and handles the key. */
  function HandleKeydownForInlineAction(key: VirtualKey, shift: KeyStates, ctrl: KeyStates): (r: KeyOutcome)
    ensures r.sendsAction <==> key == Enter && IsNone(shift) && IsNone(ctrl)
    ensures r.handled == r.sendsAction
  {
    if key == Enter && IsNone(shift) && IsNone(ctrl) then KeyOutcome(true, true)
    else KeyOutcome(false, false)
  }

  /** What the inline-action button shows: the icon with the title as tool tip, or the centred title. */
  datatype InlineActionContent = IconWithToolTip(iconUrl: string, toolTip: string) | CenteredTitle(title: string)

  datatype InlineActionPlan =
    | TextBoxOnly
    | TextBoxWithAction(
        columns: seq<GridLength>,
        textBoxColumn: nat,
        separatorColumn: nat,
        separatorSpacing: UInt32,
        actionColumn: nat,
        content: InlineActionContent,
        target: TouchTarget,
        enterInvokesAction: bool)

  datatype InlineActionResult = InlineActionResult(plan: InlineActionPlan, warnings: seq<Warning>)

  /**
   * HandleInlineAction: a text box with an inline action becomes a three-column
   * grid (text box, separator, action button), except for a ShowCard action;
   * Enter invokes the action only in a single-line text box.
   */
  function HandleInlineAction(inlineAction: Action, isMultiLine: bool, defaultSpacing: UInt32): (r: InlineActionResult)
    ensures r.plan.TextBoxOnly? <==> inlineAction.actionType == ShowCard
    ensures r.warnings == if r.plan.TextBoxOnly? then [UnsupportedValue("Inline ShowCard not supported for InlineAction")] else []
    ensures r.plan.TextBoxWithAction? ==>
      var p := r.plan;
      |p.columns| == 3 && p.textBoxColumn < p.separatorColumn < p.actionColumn < 3 &&
      p.columns[p.textBoxColumn] == Star(1.0) &&
      p.columns[p.separatorColumn] == Auto && p.columns[p.actionColumn] == Auto &&
      p.enterInvokesAction == !isMultiLine &&
      p.target.style == "Adaptive.Input.Text.InlineAction" && p.target.padding.None? &&
      p.target.clickSends == Some(inlineAction) &&
      (p.content.IconWithToolTip? <==> inlineAction.iconUrl != "")
  {
    var check := WarnForInlineShowCard(Some(inlineAction), "Inline ShowCard not supported for InlineAction");
    if check.isShowCard then InlineActionResult(TextBoxOnly, check.warnings)
    else
      var content := if inlineAction.iconUrl != "" then IconWithToolTip(inlineAction.iconUrl, inlineAction.title)
                     else CenteredTitle(inlineAction.title);
      var wrapped := WrapInTouchTarget(None, Some(inlineAction), 0, false, "Adaptive.Input.Text.InlineAction");
      var target := wrapped.element.target;
      InlineActionResult(
        TextBoxWithAction([Star(1.0), Auto, Auto], 0, 1, defaultSpacing, 2, content, target, !isMultiLine),
        check.warnings + wrapped.warnings)
  }
}
