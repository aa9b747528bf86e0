# Adaptive Cards rendering core

A Dafny model of three parts of the Adaptive Cards renderers, with proofs
about each:

- **The UWP action helpers** (`ActionHelpers.cpp`). These turn the actions
  of a card into buttons:
  - the margin of each button and the negative margin of the panel that hosts them;
  - the choice between a grid of equal columns and a stack panel;
  - button alignment, sentiment styling, link or standard buttons, and icon placement;
  - touch targets for select actions and the inline action of a text input, including the Enter rule;
  - the action-set builder, which:
    - walks each child's fallback chain against the registered action renderers;
    - renders at most MaxActions children and warns for each one past that;
    - gives each rendered button its own star column in a stretched horizontal set;
    - builds show cards inline.
- **The XAML column set renderer** (`ColumnSet.Xaml.cs`). It builds one grid
  column and one child per column, in order. The column's size string picks
  the width: stretch, auto, a numeric weight, or auto when the number does
  not parse. An alternate renderer, when set, replaces the whole rendering.
- **The .NET host options** (`HostOptions.cs`). These are the option objects
  and their defaults:
  - the boundary constructors;
  - the ShouldSerialize predicates of TextOptions, which write only the
    properties that differ from their defaults;
  - the subtle colour ColorOption derives from a normal colour. The alpha
    byte is scaled by the double 0.7 and truncated to a byte.

Modules:

- `Xaml` (`xaml.dfy`): shared value types.
- `ActionHelpers` (`action_helpers.dfy`): the per-button decisions.
- `ActionSet` (`action_set.dfy`): the fallback walk and the action-set loop.
- `ColumnSet` (`column_set.dfy`): the column set renderer.
- `HostOptions` (`host_options.dfy`): the host options.

### How the action-set loop is specified

The callback the builder runs for each child is specified as a function,
`ActionSet.Step`. The whole iteration is the left fold `ActionSet.Run` of
that function over the children. The imperative methods are proved to
compute exactly `Run`.

Separate lemmas then describe `Run` through definitions that do not use the
loop:

- `RenderedOf`: the children that resolve to a renderer.
- `Take`: the budget cut-off.
- `OverLimit`: the children that end up past the budget.
- `FailsWithinBudget`: the first child within the budget whose fallback walk ends in None.

### How the subtle colour is computed

The byte arithmetic is modelled exactly:

1. The product `b * .7` is the exact integer `b * 3152519739159347`, scaled by 2^-52.
2. It is rounded to the precision of a double, to nearest with ties to even.
3. It is truncated to a byte.

So `(byte)(90 * .7)` is 62, not 63.

## Model

| member | source | states |
|---|---|---|
| ActionHelpers.GetButtonMargin | source/uwp/Renderer/lib/ActionHelpers.cpp:25-44 | A horizontal set puts half the button spacing (unsigned integer division) on the left and right and nothing on top or bottom. A vertical set does the reverse. |
| ActionHelpers.PanelMarginCancelsButtonMargin | source/uwp/Renderer/lib/ActionHelpers.cpp:840-858 | The actions panel's margin is the button margin negated on every side, so the two sum to zero. |
| ActionHelpers.AdjacentButtonGap | source/uwp/Renderer/lib/ActionHelpers.cpp:25-44 | Two neighbouring buttons are exactly the spacing rounded down to even apart, which is within 1 of the spacing. The other axis gets no margin. |
| ActionHelpers.ButtonAlignment | source/uwp/Renderer/lib/ActionHelpers.cpp:308-331 | Horizontal buttons stretch. Vertical buttons take the configured alignment, one XAML alignment per configured value. |
| ActionHelpers.ChoosePanel | source/uwp/Renderer/lib/ActionHelpers.cpp:794-838 | A grid is chosen exactly when the alignment is Stretch and the orientation Horizontal. Otherwise a stack panel takes the configured orientation and the XAML alignment of the configured alignment (Center, Left, Right or Stretch), so it stretches exactly when the alignment is Stretch. |
| ActionHelpers.HandleActionStyling | source/uwp/Renderer/lib/ActionHelpers.cpp:182-258 | "" and "default" give "Adaptive.Action". "positive" gives "Adaptive.Action.Positive" when the host defines it, otherwise the built-in "PositiveActionDefaultStyle"; "destructive" likewise with "Adaptive.Action.Destructive" and "DestructiveActionDefaultStyle". Any other style string s gives "Adaptive.Action." + s. The built-in style is used exactly for a sentiment the host does not override. |
| ActionHelpers.StylingConsultsOverridesOnlyForSentiments | source/uwp/Renderer/lib/ActionHelpers.cpp:182-258 | Only the two sentiments depend on the host's override styles. Matching is case-sensitive ("Positive" is not a sentiment). The positive choice varies exactly as the override's presence does. |
| ActionHelpers.CreateAppropriateButton | source/uwp/Renderer/lib/ActionHelpers.cpp:1026-1047 | A link button is created exactly for an OpenUrl action. |
| ActionHelpers.ArrangeButtonContent | source/uwp/Renderer/lib/ActionHelpers.cpp:46-180 | Title only when there is no icon URL or no icon element is rendered. A missing "Image" renderer counts as no icon element here, the corrected behaviour. Icon above the title, with the configured icon height, exactly when an icon element is rendered, the placement is AboveTitle and every action of the set has an icon. Otherwise the icon sits left of the title with the default spacing. The title and icon URL are kept. |
| ActionHelpers.ArrangeButtonContentAsWritten | source/uwp/Renderer/lib/ActionHelpers.cpp:99-120 | As written, the arrangement dereferences a null icon exactly when the action has an icon URL and no "Image" renderer is registered. |
| ActionHelpers.ArrangeAsWrittenMatchesExceptWithoutImageRenderer | source/uwp/Renderer/lib/ActionHelpers.cpp:99-120 | The code as written arranges the same content as ArrangeButtonContent in every case except an icon without an "Image" renderer. |
| ActionHelpers.IconWithoutImageRendererDereferencesNull | source/uwp/Renderer/lib/ActionHelpers.cpp:99-120 | A submit action with icon "icon.png", on a host without an "Image" renderer, dereferences the null icon. |
| ActionHelpers.BuildAction | source/uwp/Renderer/lib/ActionHelpers.cpp:274-372 | Link button exactly for OpenUrl. Margin and alignment per orientation. The content is the arrangement of the action under the set's icon flag, so the icon goes above the title only when the set allows it. The style is the action's sentiment styling. The automation name is the title, and a click sends the action. |
| ActionHelpers.WarnForInlineShowCard | source/uwp/Renderer/lib/ActionHelpers.cpp:374-390 | Reports a ShowCard exactly when a ShowCard action is present, adding exactly one UnsupportedValue warning in that case and none otherwise. |
| ActionHelpers.WrapInTouchTarget | source/uwp/Renderer/lib/ActionHelpers.cpp:603-690 | A ShowCard is left unwrapped with its warning. Any other element gets a touch target: top/bottom padding is half the element spacing, left/right is the card padding when full width (else 0), and the margin is the negated padding. No element spacing means no padding and no margin. The target carries the action and its title. |
| ActionHelpers.HandleSelectAction | source/uwp/Renderer/lib/ActionHelpers.cpp:714-737 | The element is wrapped exactly for a non-ShowCard select action with interactivity on, using style "Adaptive.SelectAction". Interactivity off gives the InteractivityNotSupported warning; a ShowCard gives its warning. At most one warning. |
| ActionHelpers.HandleKeydownForInlineAction | source/uwp/Renderer/lib/ActionHelpers.cpp:392-422 | The action is sent, and the key handled, exactly for Enter with neither Shift nor Ctrl down or locked. |
| ActionHelpers.HandleInlineAction | source/uwp/Renderer/lib/ActionHelpers.cpp:424-601 | A ShowCard inline action leaves the text box alone with one warning. Any other gives three columns (text box star, separator auto, button auto). The button is an "Adaptive.Input.Text.InlineAction" target with no padding that sends the action. It shows the icon with a tool tip exactly when there is an icon URL. Enter invokes it exactly in a single-line box. |
| ActionSet.Resolve | source/uwp/Renderer/lib/ActionHelpers.cpp:893-930 | An action with a registered renderer is rendered without warnings. Every warning of the walk is a fallback-content or fallback-drop warning. |
| ActionSet.ResolveByChain | source/uwp/Renderer/lib/ActionHelpers.cpp:893-930 | Rendered exactly when some action in the fallback chain is registered, and then by a registered chain member. Dropped exactly when none is registered and the chain ends in Drop. Failed exactly when none is registered and it ends in None. |
| ActionSet.ResolveWarnings | source/uwp/Renderer/lib/ActionHelpers.cpp:903-927 | A dropped action warns once per Content step of its chain, then once for the drop. A failed one warns only for the Content steps. |
| ActionSet.ResolveRendersFirstRegistered | source/uwp/Renderer/lib/ActionHelpers.cpp:893-930 | The rendered action is the first registered member of the chain. The warnings are exactly the Content steps that lead to it. |
| ActionSet.FindRenderer | source/uwp/Renderer/lib/ActionHelpers.cpp:893-930 | The `while (!renderer)` loop yields the resolution's outcome (dropped, failed or the action to render) and its warnings. |
| ActionSet.ActionCallback | source/uwp/Renderer/lib/ActionHelpers.cpp:884-1003 | One callback computes exactly the specification step for its child. |
| ActionSet.IterateActions | source/uwp/Renderer/lib/ActionHelpers.cpp:884-1003 | The iteration, which ends at the first failing callback, computes exactly the fold of the step over the children. |
| ActionSet.EveryActionHasIcon | source/uwp/Renderer/lib/ActionHelpers.cpp:863-873 | True exactly when every child action has a non-empty icon URL. |
| ActionSet.BuildActionSetHelper | source/uwp/Renderer/lib/ActionHelpers.cpp:772-1024 | The builder yields exactly the action-set plan: the panel choice, the negated margin, style "Adaptive.Actions", and the icon flag published while rendering and reset to false afterwards. On top of that, the loop's buttons, grid columns, show cards, warnings and stop index. |
| ActionSet.RunCounter | source/uwp/Renderer/lib/ActionHelpers.cpp:875-1001 | The counter never exceeds the number of children. The number of buttons is the smaller of the counter and MaxActions. A stop happens only within the budget. |
| ActionSet.RunGridColumns | source/uwp/Renderer/lib/ActionHelpers.cpp:982-993 | In a grid, button k sits in column k and every column is a star of weight 1. In a stack panel, no columns are created. |
| ActionSet.RunShowCards | source/uwp/Renderer/lib/ActionHelpers.cpp:941-980 | The inline show cards are, in order, the rendered ShowCard actions, and only when the show-card mode is Inline. |
| ActionSet.RunWithinBudget | source/uwp/Renderer/lib/ActionHelpers.cpp:884-1003 | The loop ends unstopped and under budget exactly when no child fails and fewer than MaxActions children render. Then the counter is the number rendered. |
| ActionSet.RunRendersFirstRendered | source/uwp/Renderer/lib/ActionHelpers.cpp:884-1003 | The buttons are the first MaxActions resolved actions of the children up to the stop. |
| ActionSet.RunStopsAtFirstFailure | source/uwp/Renderer/lib/ActionHelpers.cpp:925-927 | The iteration stops at child f exactly when f is the first child whose fallback walk ends in None while the budget still has room. |
| ActionSet.RunOverflowCount | source/uwp/Renderer/lib/ActionHelpers.cpp:995-1001 | There is one MaxActionsExceeded warning for each child counted past the budget. |
| ActionSet.RunOverLimit | source/uwp/Renderer/lib/ActionHelpers.cpp:884-1003 | The children processed past the budget are the counter minus the buttons. |
| ActionSet.RunOverflowWarnings | source/uwp/Renderer/lib/ActionHelpers.cpp:995-1000 | The number of MaxActionsExceeded warnings is the number of processed children past the budget. |
| ActionSet.WarningsStep | source/uwp/Renderer/lib/ActionHelpers.cpp:884-1003 | A reached child adds to the set's warnings those of its fallback walk while fewer than MaxActions earlier children render, and one MaxActionsExceeded otherwise. |
| ActionSet.RunWarnings | source/uwp/Renderer/lib/ActionHelpers.cpp:884-1003 | The set's warnings are, in child order, each reached child's own: its fallback-walk warnings within the budget, one MaxActionsExceeded past it. The reached children run up to and including the one whose walk fails. |
| ActionSet.RunAfterStop | source/uwp/Renderer/lib/ActionHelpers.cpp:925-927 | Once a callback has failed, later children change nothing. |
| ActionSet.IconAboveTitleNeedsEveryIcon | source/uwp/Renderer/lib/ActionHelpers.cpp:863-877 | A button of the set shows its icon above its title only if the placement is AboveTitle and every child, rendered or not, has an icon URL. |
| ActionSet.BuildActions | source/uwp/Renderer/lib/ActionHelpers.cpp:739-770 | Appends the separator exactly when asked, then the action-set plan. |
| ColumnSet.LowerEqualsLiteral | Renderers/XamlRenderer/Containers/ColumnSet.Xaml.cs:40-43 | Comparing the lower-cased size with a lower-case constant is comparing ignoring case. |
| ColumnSet.ColumnWidth | Renderers/XamlRenderer/Containers/ColumnSet.Xaml.cs:40-52 | Star 1 for no size or "stretch" in any case, and Auto for "auto". Otherwise the parsed number as a star, or Auto when it does not parse. |
| ColumnSet.ColumnWidthIgnoresCase | Renderers/XamlRenderer/Containers/ColumnSet.Xaml.cs:40-52 | Size strings equal up to case give the same width. |
| ColumnSet.WeightedWidthIsParsed | Renderers/XamlRenderer/Containers/ColumnSet.Xaml.cs:45-52 | A star width other than 1 comes from a size string that parses as that weight. |
| ColumnSet.RejectedWidthIsNegativeNumber | Renderers/XamlRenderer/Containers/ColumnSet.Xaml.cs:47-49 | A column's width is one the framework rejects exactly when its size string is neither stretch nor auto and parses as a negative number. |
| ColumnSet.WidthsPerColumn | Renderers/XamlRenderer/Containers/ColumnSet.Xaml.cs:35-52 | Exactly one column definition per column, the k-th being column k's width. |
| ColumnSet.PlacementsPerColumn | Renderers/XamlRenderer/Containers/ColumnSet.Xaml.cs:34-56 | Exactly one child per column, the k-th being column k's element in grid column k. |
| ColumnSet.Grid.AddColumnDefinition | Renderers/XamlRenderer/Containers/ColumnSet.Xaml.cs:42-51 | Appends one column definition and changes nothing else. |
| ColumnSet.Grid.AddChild | Renderers/XamlRenderer/Containers/ColumnSet.Xaml.cs:54-55 | Appends the element with its column and changes nothing else. |
| ColumnSet.Render | Renderers/XamlRenderer/Containers/ColumnSet.Xaml.cs:26-59 | With an alternate renderer, returns its element. When every width is accepted, a fresh "Adaptive.ColumnSet" grid whose definitions and children are exactly one per column, in order. Otherwise the rendering ends with the exception at the first column whose width is rejected. |
| HostOptions.BoundaryOptions.constructor | source/dotnet/Library/AdaptiveCards/Rendering/HostOptions.cs:77 | Every side is 0. |
| HostOptions.BoundaryOptions.Uniform | source/dotnet/Library/AdaptiveCards/Rendering/HostOptions.cs:79-82 | Every side is the given size. |
| HostOptions.BoundaryOptions.Sides | source/dotnet/Library/AdaptiveCards/Rendering/HostOptions.cs:83-89 | Each side is its own argument. |
| HostOptions.TextOptions.constructor | source/dotnet/Library/AdaptiveCards/Rendering/HostOptions.cs:365-389 | The defaults: size Normal, weight Normal, colour Default, not subtle. |
| HostOptions.TextOptions.ShouldSerializeSize | source/dotnet/Library/AdaptiveCards/Rendering/HostOptions.cs:391-394 | True exactly when the size is not the default size. |
| HostOptions.TextOptions.ShouldSerializeColor | source/dotnet/Library/AdaptiveCards/Rendering/HostOptions.cs:396-399 | True exactly when the colour is not the default colour. |
| HostOptions.TextOptions.ShouldSerializeWeight | source/dotnet/Library/AdaptiveCards/Rendering/HostOptions.cs:402-405 | True exactly when the weight is not the default weight. |
| HostOptions.TextOptions.ShouldSerializeIsSubtle | source/dotnet/Library/AdaptiveCards/Rendering/HostOptions.cs:407-410 | True exactly when IsSubtle is not its default, false. |
| HostOptions.TextOptions.Serialized | source/dotnet/Library/AdaptiveCards/Rendering/HostOptions.cs:391-410 | Each property is written, with its value, exactly when it differs from its default (IsSubtle exactly when true). |
| HostOptions.Deserialized | source/dotnet/Library/AdaptiveCards/Rendering/HostOptions.cs:372-389 | A property missing from the JSON takes its default. |
| HostOptions.SerializationRoundTrip | source/dotnet/Library/AdaptiveCards/Rendering/HostOptions.cs:372-410 | Reading back what is serialized gives the same values, so skipping default properties loses nothing. |
| HostOptions.SerializesNothingIffDefault | source/dotnet/Library/AdaptiveCards/Rendering/HostOptions.cs:372-410 | Nothing is serialized exactly when every value is its default. |
| HostOptions.ToByteBase16 | source/dotnet/Library/AdaptiveCards/Rendering/HostOptions.cs:224 | Two hex digits always convert, to 16·high + low. Apart from a leading '+', a successful conversion comes from two hex digits. |
| HostOptions.ScaleByPointSeven | source/dotnet/Library/AdaptiveCards/Rendering/HostOptions.cs:224 | `(byte)(b * .7)` is 7b/10 rounded down, or one less; one less can happen only when b is a multiple of ten. |
| HostOptions.ScaleExamples | source/dotnet/Library/AdaptiveCards/Rendering/HostOptions.cs:224 | `(byte)(b * .7)` gives 178, 70, 62, 11 and 0 for 255, 100, 90, 16 and 0. |
| HostOptions.Hex2RoundTrip | source/dotnet/Library/AdaptiveCards/Rendering/HostOptions.cs:225 | Two-digit hex formatting and base-16 byte parsing are inverse. |
| HostOptions.DeriveSubtleAsWritten | source/dotnet/Library/AdaptiveCards/Rendering/HostOptions.cs:222-225 | As written, the derivation fails exactly as the corrected one does. On success the colour starts with '#' and ends with the normal colour's tail, and it is one character shorter than the normal colour when the scaled alpha is below 16. |
| HostOptions.UnpaddedOpacityDropsDigit | source/dotnet/Library/AdaptiveCards/Rendering/HostOptions.cs:225 | As written, "#10FFFFFF" gets the subtle colour "#bFFFFFF", one digit short. |
| HostOptions.DeriveSubtle | source/dotnet/Library/AdaptiveCards/Rendering/HostOptions.cs:222-225 | Fails exactly when the colour is shorter than 3 characters or characters 1–2 are not a hex byte. On success the subtle colour has the same length and starts with '#'. Its characters 1–2 parse to the alpha scaled by 0.7, and the rest is the normal colour's tail unchanged. |
| HostOptions.AsWrittenAgreesUnlessOpacityBelowSixteen | source/dotnet/Library/AdaptiveCards/Rendering/HostOptions.cs:222-225 | The derivation as written equals the corrected one exactly when it fails or the scaled alpha is at least 16. |
| HostOptions.ColorOption.Create | source/dotnet/Library/AdaptiveCards/Rendering/HostOptions.cs:219-229 | A given subtle colour is kept as is. A missing one is derived, and construction fails exactly when the derivation fails. |
| HostOptions.DeriveFromOpaque | source/dotnet/Library/AdaptiveCards/Rendering/HostOptions.cs:222-225 | An opaque colour "#FF" + rgb has the subtle colour "#b2" + rgb. |
| HostOptions.ColorOptions.constructor | source/dotnet/Library/AdaptiveCards/Rendering/HostOptions.cs:197-214 | The seven default colours, each opaque with subtle alpha b2. |
| HostOptions.AdaptiveCardOptions.constructor | source/dotnet/Library/AdaptiveCards/Rendering/HostOptions.cs:99-112 | Card padding 8 on every side, background "#FFFFFF". |
| HostOptions.SeparationOption.constructor | source/dotnet/Library/AdaptiveCards/Rendering/HostOptions.cs:149-168 | Spacing, line thickness and line colour as given. |
| HostOptions.SeparationOptions.constructor | source/dotnet/Library/AdaptiveCards/Rendering/HostOptions.cs:133-146 | Default spacing 10 with no line. Strong spacing 20 with a 1-thick "#FF707070" line. |
| HostOptions.FontSizeOptions.constructor | source/dotnet/Library/AdaptiveCards/Rendering/HostOptions.cs:180-194 | Sizes 10, 12, 14, 17, 20. |
| HostOptions.ImageSizeOptions.constructor | source/dotnet/Library/AdaptiveCards/Rendering/HostOptions.cs:240-250 | Sizes 60, 120, 180. |
| HostOptions.ImageSetOptions.constructor | source/dotnet/Library/AdaptiveCards/Rendering/HostOptions.cs:324-329 | Image size Medium. |
| HostOptions.ShowCardOptions.constructor | source/dotnet/Library/AdaptiveCards/Rendering/HostOptions.cs:299-314 | Inline mode, background "#FFF8F8F8", auto padding on. |
| HostOptions.ActionOptions.constructor | source/dotnet/Library/AdaptiveCards/Rendering/HostOptions.cs:256-296 | Horizontal, centred, the three colours, border 1, weight 400, font size 12, spacing 8, and action padding 4 on every side. |
| HostOptions.FactSetOptions.constructor | source/dotnet/Library/AdaptiveCards/Rendering/HostOptions.cs:331-349 | The title is bold and otherwise default, so it serializes only its weight. The value has the defaults. Spacing is 20. |
| HostOptions.ColumnOptions.constructor | source/dotnet/Library/AdaptiveCards/Rendering/HostOptions.cs:351-360 | Default separation options: spacing 10 with no line, and strong spacing 20 with a 1-thick "#FF707070" line. |
| HostOptions.HostOptions.constructor | source/dotnet/Library/AdaptiveCards/Rendering/HostOptions.cs:11-72 | Font family "Calibri", interactivity on, MaxActions 5, and the four default action types. |

## Left out

- XAML objects themselves are not modelled:
  - controls, resource-dictionary styles and automation properties;
  - tool tips, images and their load events;
  - appending to panels.

  Plans record the decisions (style names, margins, columns, contents) in
  their place.
- SetMatchingHeight (ActionHelpers.cpp:260-272) is not modelled. It is a
  XAML binding between two elements, with no decision in it.
- WireButtonClickToAction (ActionHelpers.cpp:692-712) is not modelled. It
  registers an event handler, and plans record only which action a click
  sends.
- Things the code gets from elsewhere are parameters:
  - what the "Image" element renderer gives for an icon: no renderer, an
    element, or no element;
  - the host's spacing sizes;
  - the style overrides the host defines;
  - the key states the CoreWindow reports;
  - the set of type strings with a registered action renderer.

  renderer->Render is not modelled: a button is recorded as the action it
  renders.
- BuildShowCard and AddInlineShowCard are not modelled. An inline show card
  is recorded as its ShowCard action.
- Failures of COM calls (RETURN_IF_FAILED, THROW_IF_FAILED) are not
  modelled. The only failure modelled is a fallback walk ending in None.
- BuildActionSetHelper: the code ignores the status IterateOverVector returns
  at ActionHelpers.cpp:884. The model follows the code: a None fallback stops
  the iteration at that child, and the set built so far is still returned.
  Recording the stop in stoppedAt is the model's own addition.
  XamlHelpers::IterateOverVector is not part of this model. The model
  assumes it stops at the first callback that fails.
- Thickness sides and grid weights are doubles, modelled as reals. In the
  action helpers every value involved is a 32-bit integer or such an integer
  halved, so doubles represent them exactly. A column weight is whatever
  double.TryParse returns, and rounding of the parsed number is not modelled.
- ColumnSet.ColumnWidth lower-cases only ASCII letters. .NET's ToLower is
  culture-sensitive.
- double.TryParse is a parameter, not modelled. It returns reals, so the
  NaN and infinities it can also return are not modelled.
- ColumnSet.ColumnWidth: a NaN or infinite weight, which the GridLength
  constructor rejects with an exception, is not modelled. The negative
  weights that ColumnDefinition.Width rejects are modelled by WidthAccepted
  and Render. Both rules come from the XAML framework, not from these
  source files.
- The ColumnSize.Stretch and ColumnSize.Auto constants are taken to be
  "stretch" and "auto". ColumnSize is not part of this model.
- ColumnSet.Render identifies each column's element by a number. An element
  placed in two columns, which would be moved by the second SetColumn, is
  not modelled.
- The enum members of TextSize, TextWeight, TextColor, ImageSize, ActionType
  and HorizontalAlignment, and the type strings of the default supported
  actions, come from object-model files that are not part of this model.
- Newtonsoft JSON details are not modelled: naming strategies, the
  string-enum converter, and null handling. Serialization is modelled only
  through the ShouldSerialize predicates.
- Null strings are not modelled. A null normal colour, which would throw, is
  not modelled.
- HostOptions.ToByteBase16 maps every exception of Convert.ToByte to one
  error, NotAHexByte. It covers only the two-character strings the
  constructor passes.
- HostOptions.ColorOption.Create derives a missing subtle colour with the
  corrected two-digit formatting, DeriveSubtle, not the code as written.
  As written, a normal colour whose scaled alpha is below 16 gets a subtle
  colour one character shorter. For example, "#00FFFFFF" gives "#0FFFFFF"
  where Create gives "#00FFFFFF". DeriveSubtleAsWritten models that, and
  AsWrittenAgreesUnlessOpacityBelowSixteen states exactly when the two agree.
  The default colours all have alpha FF and are unaffected.
- ActionHelpers.BuildAction arranges the content with the corrected
  ArrangeButtonContent. As written, an action with an icon on a host
  without an "Image" renderer dereferences a null pointer (see Findings).
- ActionHelpers.HandleInlineAction: an inline action with an icon looks up
  the "Image" renderer and uses it without checking it. A host without one
  is not modelled.
- HostOptions.HostOptions.constructor: its contract states only the scalar
  defaults and the action types. The nested option objects' defaults are
  stated by their own constructors' contracts.

## Findings

| source | as written | input that shows it | evidently intended | confidence | as-written member | corrected member |
|---|---|---|---|---|---|---|
| source/uwp/Renderer/lib/ActionHelpers.cpp:102-120 | When no "Image" element renderer is registered, the icon keeps its null value past the check at line 102, and line 120 calls `As` on the null pointer. | An action with a non-empty icon URL rendered by a host whose element renderers have no "Image" entry. | Treat a missing renderer like a renderer that returns no icon: set the title as the content and return, as lines 105-109 do. | not executed; from reading the code, since ComPtr::As dereferences its pointer | ActionHelpers.IconWithoutImageRendererDereferencesNull | ActionHelpers.ArrangeButtonContent |
| source/dotnet/Library/AdaptiveCards/Rendering/HostOptions.cs:225 | The scaled opacity byte is formatted with `ToString("x")`, which writes bytes below 16 as a single digit. | `new ColorOption("#10FFFFFF")`: alpha 0x10 scales to 11, so the subtle colour is "#bFFFFFF", one digit short, and its channels are shifted. | Two-digit formatting (`"x2"`), keeping the "#AARRGGBB" layout. | not executed; follows from the .NET formatting rules | HostOptions.UnpaddedOpacityDropsDigit | HostOptions.DeriveSubtle |
