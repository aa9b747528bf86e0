/**
 * Building an action set (BuildActionSetHelper and BuildActions in
 * ActionHelpers.cpp): every child action is resolved through its fallback
 * chain against the registered action renderers, the first MaxActions
 * children that are not dropped are rendered, later ones are reported, and
 * in a stretched horizontal set every rendered button gets its own equal
 * grid column.
 *
 * The specification is the left fold Run of one callback step, Step, over
 * the children; BuildActionSetHelper computes it with loops, and the lemmas
 * characterise Run by independent definitions (RenderedOf, Take, OverLimit,
 * FailsWithinBudget).
 */
module ActionSet {
  import opened Xaml
  import opened ActionHelpers

  // ---------------------------------------------------------------------------
  // Fallback resolution of one action
  // ---------------------------------------------------------------------------

  /** The action followed by its fallback contents, as long as the fallback is Content. */
  function Chain(a: Action): (c: seq<Action>)
    ensures |c| >= 1 && c[0] == a
    ensures !c[|c| - 1].fallback.Content?
    decreases a
  {
    if a.fallback.Content? then [a] + Chain(a.fallback.fallbackContent) else [a]
  }

  /** The end of the fallback chain: an action whose fallback is Drop or None. */
  function LastInChain(a: Action): Action
  {
    var c := Chain(a);
    c[|c| - 1]
  }

  predicate NoneRegistered(actions: seq<Action>, registry: set<string>)
  {
    forall i | 0 <= i < |actions| :: actions[i].typeString !in registry
  }

  /** One FallbackContent warning for each substitution along a chain. */
  function ContentWarnings(chain: seq<Action>): (ws: seq<Warning>)
    requires |chain| >= 1
    ensures |ws| == |chain| - 1
  {
    seq(|chain| - 1, i requires 0 <= i < |chain| - 1 => FallbackContent(chain[i].typeString, chain[i + 1].typeString))
  }

  lemma ContentWarningsCons(a: Action, rest: seq<Action>)
    requires |rest| >= 1
    ensures ContentWarnings([a] + rest) == [FallbackContent(a.typeString, rest[0].typeString)] + ContentWarnings(rest)
  {
    var l, r := ContentWarnings([a] + rest), [FallbackContent(a.typeString, rest[0].typeString)] + ContentWarnings(rest);
    assert |l| == |r|;
    forall i | 0 <= i < |l| ensures l[i] == r[i] {
      if i > 0 {
        assert ([a] + rest)[i] == rest[i - 1];
      }
    }
  }

  /** How the fallback walk for one child ends: a renderer was found, the child is dropped, or the walk fails. */
  datatype Outcome = Render(action: Action) | Skip | Fail

  datatype Resolution = Resolution(outcome: Outcome, warnings: seq<Warning>)

  /**
   * The while (!renderer) loop of one callback: look up the renderer for the
   * type string; without one, Drop ends the walk with a drop warning, Content
   * substitutes the fallback content with a warning and tries again, and None
   * makes the callback fail.
   */
  function Resolve(a: Action, registry: set<string>): (r: Resolution)
    ensures a.typeString in registry ==> r == Resolution(Render(a), [])
    ensures forall w | w in r.warnings :: w.FallbackContent? || w.FallbackDrop?
    decreases a
  {
    if a.typeString in registry then Resolution(Render(a), [])
    else
      match a.fallback
      case Drop => Resolution(Skip, [FallbackDrop(a.typeString)])
      case NoFallback => Resolution(Fail, [])
      case Content(b) =>
        var r := Resolve(b, registry);
        Resolution(r.outcome, [FallbackContent(a.typeString, b.typeString)] + r.warnings)
  }

  lemma ChainStep(a: Action, registry: set<string>)
    requires a.fallback.Content?
    ensures var b := a.fallback.fallbackContent;
      Chain(a) == [a] + Chain(b) && LastInChain(a) == LastInChain(b) &&
      (NoneRegistered(Chain(a), registry) <==> a.typeString !in registry && NoneRegistered(Chain(b), registry))
  {
    var b := a.fallback.fallbackContent;
    var ca, cb := Chain(a), Chain(b);
    assert ca == [a] + cb;
    if NoneRegistered(ca, registry) {
      assert ca[0] == a;
      forall i | 0 <= i < |cb| ensures cb[i].typeString !in registry {
        assert cb[i] == ca[i + 1];
      }
    }
    if a.typeString !in registry && NoneRegistered(cb, registry) {
      forall i | 0 <= i < |ca| ensures ca[i].typeString !in registry {
        if i > 0 {
          assert ca[i] == cb[i - 1];
        }
      }
    }
  }

  /**
   * How the walk ends, in terms of the fallback chain: a renderer is found
   * exactly when some action of the chain is registered; otherwise the end of
   * the chain decides between dropping the child and failing.
   */
  lemma {:induction false} ResolveByChain(a: Action, registry: set<string>)
    ensures var r := Resolve(a, registry);
      (r.outcome.Render? <==> !NoneRegistered(Chain(a), registry)) &&
      (r.outcome.Render? ==> r.outcome.action in Chain(a) && r.outcome.action.typeString in registry) &&
      (r.outcome.Skip? <==> NoneRegistered(Chain(a), registry) && LastInChain(a).fallback.Drop?) &&
      (r.outcome.Fail? <==> NoneRegistered(Chain(a), registry) && LastInChain(a).fallback.NoFallback?)
    decreases a
  {
    if a.typeString !in registry && a.fallback.Content? {
      var b := a.fallback.fallbackContent;
      ResolveByChain(b, registry);
      ChainStep(a, registry);
    }
  }

  /**
   * The warnings of a dropped or failed child: one FallbackContent warning
   * per substitution along the whole chain, and for a dropped child a final
   * FallbackDrop warning naming the type at the end of the chain.
   */
  lemma {:induction false} ResolveWarnings(a: Action, registry: set<string>)
    ensures var r := Resolve(a, registry);
      (r.outcome.Skip? ==> r.warnings == ContentWarnings(Chain(a)) + [FallbackDrop(LastInChain(a).typeString)]) &&
      (r.outcome.Fail? ==> r.warnings == ContentWarnings(Chain(a)))
    decreases a
  {
    if a.typeString !in registry && a.fallback.Content? {
      var b := a.fallback.fallbackContent;
      ResolveWarnings(b, registry);
      ChainStep(a, registry);
      ContentWarningsCons(a, Chain(b));
    }
  }

  /** The index of the first action of a sequence whose type string is registered, or its length. */
  function FirstRegistered(actions: seq<Action>, registry: set<string>): (k: nat)
    ensures k <= |actions| && NoneRegistered(actions[..k], registry)
    ensures k < |actions| ==> actions[k].typeString in registry
  {
    if actions == [] || actions[0].typeString in registry then 0
    else 1 + FirstRegistered(actions[1..], registry)
  }

  /**
   * A rendered child is rendered as the first action of its fallback chain
   * that has a registered renderer, after one FallbackContent warning for
   * each substitution that led there.
   */
  lemma {:induction false} ResolveRendersFirstRegistered(a: Action, registry: set<string>)
    requires Resolve(a, registry).outcome.Render?
    ensures var c := Chain(a);
      var k := FirstRegistered(c, registry);
      k < |c| && Resolve(a, registry).outcome.action == c[k] &&
      Resolve(a, registry).warnings == ContentWarnings(c[..k + 1])
    decreases a
  {
    if a.typeString in registry {
      assert FirstRegistered(Chain(a), registry) == 0;
    } else {
      var b := a.fallback.fallbackContent;
      ChainStep(a, registry);
      ResolveRendersFirstRegistered(b, registry);
      var cb := Chain(b);
      var kb := FirstRegistered(cb, registry);
      FirstRegisteredCons(a, cb, registry);
      PrefixCons(a, cb, kb + 1);
      ContentWarningsCons(a, cb[..kb + 1]);
    }
  }

  lemma FirstRegisteredCons(a: Action, rest: seq<Action>, registry: set<string>)
    requires a.typeString !in registry
    ensures FirstRegistered([a] + rest, registry) == 1 + FirstRegistered(rest, registry)
  {
    assert ([a] + rest)[1..] == rest;
  }

  lemma PrefixCons<T>(x: T, rest: seq<T>, j: nat)
    requires j <= |rest|
    ensures ([x] + rest)[..j + 1] == [x] + rest[..j]
  {
  }

  // ---------------------------------------------------------------------------
  // The callback loop as a specification
  // ---------------------------------------------------------------------------

  /** The state the IterateOverVector callback updates, child by child. */
  datatype LoopState = LoopState(
    currentAction: nat,
    buttons: seq<Action>,
    gridColumns: seq<nat>,
    columnDefinitions: seq<GridLength>,
    showCards: seq<Action>,
    warnings: seq<Warning>,
    stoppedAt: Option<nat>)

  const Start: LoopState := LoopState(0, [], [], [], [], [], None)

  /** A rendered ShowCard action builds its card inline when the show-card action mode is Inline. */
  predicate BuildsInlineShowCard(action: Action, config: ActionsConfig)
  {
    action.actionType == ShowCard && config.showCardMode == Inline
  }

  /**
   * One callback, for the child at `index`. A failed callback stops the
   * iteration, so once stoppedAt is set nothing changes any more.
   */
  function Step(s: LoopState, child: Action, index: nat, config: ActionsConfig, registry: set<string>): LoopState
  {
    if s.stoppedAt.Some? then s
    else if s.currentAction < config.maxActions then
      var r := Resolve(child, registry);
      match r.outcome
      case Skip => s.(warnings := s.warnings + r.warnings)
      case Fail => s.(warnings := s.warnings + r.warnings, stoppedAt := Some(index))
      case Render(action) =>
        var grid := ChoosePanel(config).GridPanel?;
        LoopState(
          s.currentAction + 1,
          s.buttons + [action],
          s.gridColumns + (if grid then [s.currentAction] else []),
          s.columnDefinitions + (if grid then [Star(1.0)] else []),
          s.showCards + (if BuildsInlineShowCard(action, config) then [action] else []),
          s.warnings + r.warnings,
          None)
    else
      s.(currentAction := s.currentAction + 1, warnings := s.warnings + [MaxActionsExceeded])
  }

  /** The callback applied to the children in order. */
  function Run(children: seq<Action>, config: ActionsConfig, registry: set<string>): LoopState
    decreases |children|
  {
    if children == [] then Start
    else
      var n := |children| - 1;
      Step(Run(children[..n], config, registry), children[n], n, config, registry)
  }

  // ---------------------------------------------------------------------------
  // Independent descriptions of the result
  // ---------------------------------------------------------------------------

  /** The actions of the children that resolve to a rendered action, in child order, ignoring the budget. */
  function RenderedOf(children: seq<Action>, registry: set<string>): seq<Action>
    decreases |children|
  {
    if children == [] then []
    else
      var n := |children| - 1;
      RenderedOf(children[..n], registry) +
        (match Resolve(children[n], registry).outcome case Render(a) => [a] case _ => [])
  }

  function Take<T>(s: seq<T>, m: nat): seq<T>
  {
    if |s| <= m then s else s[..m]
  }

  /** The number of children preceded by at least `maxActions` children that resolve to a rendered action. */
  function OverLimit(children: seq<Action>, registry: set<string>, maxActions: nat): nat
    decreases |children|
  {
    if children == [] then 0
    else
      var n := |children| - 1;
      OverLimit(children[..n], registry, maxActions) +
        (if |RenderedOf(children[..n], registry)| >= maxActions then 1 else 0)
  }

  /**
   * The warnings child n adds once it is reached: those of its fallback walk
   * while fewer than `maxActions` children before it resolve to a rendered
   * action, a single MaxActionsExceeded after that.
   */
  function ChildWarnings(children: seq<Action>, registry: set<string>, maxActions: nat, n: nat): seq<Warning>
    requires n < |children|
  {
    if |RenderedOf(children[..n], registry)| < maxActions then Resolve(children[n], registry).warnings
    else [MaxActionsExceeded]
  }

  /** The warnings of all the children, each child's in child order. */
  function WarningsOf(children: seq<Action>, registry: set<string>, maxActions: nat): seq<Warning>
    decreases |children|
  {
    if children == [] then []
    else
      var n := |children| - 1;
      WarningsOf(children[..n], registry, maxActions) + ChildWarnings(children, registry, maxActions, n)
  }

  predicate NoFailure(children: seq<Action>, registry: set<string>)
  {
    forall i | 0 <= i < |children| :: !Resolve(children[i], registry).outcome.Fail?
  }

  /**
   * Child f is the first whose fallback walk fails, and fewer than
   * `maxActions` children before it resolve to a rendered action, so it is
   * reached within the budget.
   */
  predicate FailsWithinBudget(children: seq<Action>, registry: set<string>, maxActions: nat, f: nat)
  {
    f < |children| && Resolve(children[f], registry).outcome.Fail? &&
    NoFailure(children[..f], registry) && |RenderedOf(children[..f], registry)| < maxActions
  }

  /** The children the iteration reached: all of them, or those before the one whose callback failed. */
  function Processed(children: seq<Action>, stoppedAt: Option<nat>): seq<Action>
  {
    if stoppedAt.Some? && stoppedAt.value <= |children| then children[..stoppedAt.value] else children
  }

  /** The ShowCard actions among `actions` whose cards are built inline. */
  function InlineShowCards(actions: seq<Action>, config: ActionsConfig): seq<Action>
    decreases |actions|
  {
    if actions == [] then []
    else
      var n := |actions| - 1;
      InlineShowCards(actions[..n], config) + (if BuildsInlineShowCard(actions[n], config) then [actions[n]] else [])
  }

  // ---------------------------------------------------------------------------
  // Lemmas about Run
  // ---------------------------------------------------------------------------

  lemma PrefixOfPrefix<T>(s: seq<T>, n: nat, k: nat)
    requires k <= n <= |s|
    ensures s[..n][..k] == s[..k]
  {
  }

  /**
   * The counter: it never exceeds the number of children, the rendered
   * buttons are as many as the counter while it is below MaxActions and
   * MaxActions after that, and the iteration can only stop within the budget.
   */
  lemma {:induction false} RunCounter(children: seq<Action>, config: ActionsConfig, registry: set<string>)
    ensures var s := Run(children, config, registry);
      s.currentAction <= |children| &&
      |s.buttons| == (if s.currentAction <= config.maxActions then s.currentAction else config.maxActions) &&
      (s.stoppedAt.Some? ==> s.stoppedAt.value < |children| && s.currentAction < config.maxActions)
    decreases |children|
  {
    if children != [] {
      RunCounter(children[..|children| - 1], config, registry);
    }
  }

  /**
   * Grid columns: in a grid the k-th rendered button is placed in grid column
   * k and one star column of weight 1 is appended per rendered button; a
   * stack panel gets neither.
   */
  lemma {:induction false} RunGridColumns(children: seq<Action>, config: ActionsConfig, registry: set<string>)
    ensures var s := Run(children, config, registry);
      if ChoosePanel(config).GridPanel? then
        |s.gridColumns| == |s.buttons| == |s.columnDefinitions| &&
        (forall k | 0 <= k < |s.gridColumns| :: s.gridColumns[k] == k) &&
        (forall k | 0 <= k < |s.columnDefinitions| :: s.columnDefinitions[k] == Star(1.0))
      else s.gridColumns == [] && s.columnDefinitions == []
    decreases |children|
  {
    if children != [] {
      var n := |children| - 1;
      RunGridColumns(children[..n], config, registry);
      RunCounter(children[..n], config, registry);
    }
  }

  /** Exactly the rendered ShowCard actions build their card inline, in order, when the mode is Inline. */
  lemma {:induction false} RunShowCards(children: seq<Action>, config: ActionsConfig, registry: set<string>)
    ensures var s := Run(children, config, registry);
      s.showCards == InlineShowCards(s.buttons, config)
    decreases |children|
  {
    if children != [] {
      var n := |children| - 1;
      RunShowCards(children[..n], config, registry);
      var s0 := Run(children[..n], config, registry);
      var s := Run(children, config, registry);
      if s.buttons != s0.buttons {
        assert s.buttons[..|s.buttons| - 1] == s0.buttons;
      }
    }
  }

  /**
   * The iteration has neither stopped nor exhausted the budget exactly when no
   * child fails and fewer than MaxActions children resolve to a rendered
   * action; then the counter is the number of those children.
   */
  lemma {:induction false} RunWithinBudget(children: seq<Action>, config: ActionsConfig, registry: set<string>)
    ensures var s := Run(children, config, registry);
      (s.stoppedAt.None? && s.currentAction < config.maxActions) <==>
        (NoFailure(children, registry) && |RenderedOf(children, registry)| < config.maxActions)
    ensures var s := Run(children, config, registry);
      s.stoppedAt.None? && s.currentAction < config.maxActions ==>
        s.currentAction == |RenderedOf(children, registry)|
    decreases |children|
  {
    if children != [] {
      var n := |children| - 1;
      var c0 := children[..n];
      RunWithinBudget(c0, config, registry);
      var s0 := Run(c0, config, registry);
      var s := Run(children, config, registry);
      assert NoFailure(children, registry) <==>
        NoFailure(c0, registry) && !Resolve(children[n], registry).outcome.Fail? by {
        assert forall i | 0 <= i < n :: c0[i] == children[i];
      }
      if s.stoppedAt.None? && s.currentAction < config.maxActions {
        assert s0.stoppedAt.None? && s0.currentAction < config.maxActions;
      }
    }
  }

  /**
   * The rendered buttons are the first MaxActions of the actions that the
   * reached children resolve to; children that are dropped take no place.
   */
  lemma {:induction false} RunRendersFirstRendered(children: seq<Action>, config: ActionsConfig, registry: set<string>)
    ensures var s := Run(children, config, registry);
      s.buttons == Take(RenderedOf(Processed(children, s.stoppedAt), registry), config.maxActions)
    decreases |children|
  {
    if children != [] {
      var n := |children| - 1;
      var c0 := children[..n];
      RunRendersFirstRendered(c0, config, registry);
      RunCounter(c0, config, registry);
      var s0 := Run(c0, config, registry);
      var s := Run(children, config, registry);
      var m := config.maxActions as nat;
      if s0.stoppedAt.Some? {
        PrefixOfPrefix(children, n, s0.stoppedAt.value);
      } else if s0.currentAction < m {
        assert s.stoppedAt.Some? ==> Processed(children, s.stoppedAt) == c0;
      } else {
        var r0 := RenderedOf(c0, registry);
        var r := RenderedOf(children, registry);
        assert |Take(r0, m)| == m;
        assert r[..|r0|] == r0;
        assert Take(r, m) == Take(r0, m) by {
          assert r[..m] == r0[..m];
        }
      }
    }
  }

  /**
   * The iteration stops at child f exactly when f is the first failing child
   * and it is reached within the budget (and never, if there is no such f).
   */
  lemma {:induction false} RunStopsAtFirstFailure(children: seq<Action>, config: ActionsConfig, registry: set<string>, f: nat)
    ensures Run(children, config, registry).stoppedAt == Some(f) <==>
      FailsWithinBudget(children, registry, config.maxActions, f)
    decreases |children|
  {
    if children != [] {
      var n := |children| - 1;
      var c0 := children[..n];
      RunCounter(children, config, registry);
      RunCounter(c0, config, registry);
      if f < n {
        RunStopsAtFirstFailure(c0, config, registry, f);
        PrefixOfPrefix(children, n, f);
        assert children[f] == c0[f];
      } else if f == n {
        RunWithinBudget(c0, config, registry);
      }
    }
  }

  /** The MaxActionsExceeded warnings are as many as the children the counter counts beyond the rendered buttons. */
  lemma {:induction false} RunOverflowCount(children: seq<Action>, config: ActionsConfig, registry: set<string>)
    ensures var s := Run(children, config, registry);
      multiset(s.warnings)[MaxActionsExceeded] == s.currentAction - |s.buttons|
    decreases |children|
  {
    if children != [] {
      var n := |children| - 1;
      var c0 := children[..n];
      RunOverflowCount(c0, config, registry);
      RunCounter(c0, config, registry);
      var r := Resolve(children[n], registry);
      assert MaxActionsExceeded !in r.warnings;
    }
  }

  /**
   * The children the counter counts beyond the rendered buttons are the
   * reached children preceded by at least MaxActions children that resolve
   * to a rendered action.
   */
  lemma {:induction false} RunOverLimit(children: seq<Action>, config: ActionsConfig, registry: set<string>)
    ensures var s := Run(children, config, registry);
      OverLimit(Processed(children, s.stoppedAt), registry, config.maxActions) == s.currentAction - |s.buttons|
    decreases |children|
  {
    if children != [] {
      var n := |children| - 1;
      var c0 := children[..n];
      RunOverLimit(c0, config, registry);
      RunCounter(c0, config, registry);
      var s0 := Run(c0, config, registry);
      var s := Run(children, config, registry);
      var m := config.maxActions as nat;
      if s0.stoppedAt.Some? {
        assert s == s0;
        PrefixOfPrefix(children, n, s0.stoppedAt.value);
        assert Processed(children, s.stoppedAt) == Processed(c0, s0.stoppedAt);
      } else if s0.currentAction < m {
        RunWithinBudget(c0, config, registry);
        assert |RenderedOf(c0, registry)| < m;
        if s.stoppedAt.Some? {
          assert Processed(children, s.stoppedAt) == c0;
          assert s.currentAction == s0.currentAction && s.buttons == s0.buttons;
        } else {
          assert Processed(children, s.stoppedAt) == children;
          assert OverLimit(children, registry, m) == OverLimit(c0, registry, m);
          assert s.currentAction - |s.buttons| == s0.currentAction - |s0.buttons|;
        }
      } else {
        RunRendersFirstRendered(c0, config, registry);
        assert |Take(RenderedOf(c0, registry), m)| == m;
        assert s == s0.(currentAction := s0.currentAction + 1, warnings := s0.warnings + [MaxActionsExceeded]);
        assert Processed(children, s.stoppedAt) == children;
        assert OverLimit(children, registry, m) == OverLimit(c0, registry, m) + 1;
      }
    }
  }

  /**
   * Every reached child preceded by at least MaxActions children that resolve
   * to a rendered action adds exactly one MaxActionsExceeded warning, and no
   * other child adds one.
   */
  lemma RunOverflowWarnings(children: seq<Action>, config: ActionsConfig, registry: set<string>)
    ensures var s := Run(children, config, registry);
      multiset(s.warnings)[MaxActionsExceeded] == OverLimit(Processed(children, s.stoppedAt), registry, config.maxActions)
  {
    RunOverflowCount(children, config, registry);
    RunOverLimit(children, config, registry);
  }

  /** A reached child adds its own warnings to those of the children before it. */
  lemma WarningsStep(children: seq<Action>, config: ActionsConfig, registry: set<string>)
    requires children != [] && Run(children[..|children| - 1], config, registry).stoppedAt.None?
    ensures Run(children, config, registry).warnings ==
      Run(children[..|children| - 1], config, registry).warnings +
      ChildWarnings(children, registry, config.maxActions, |children| - 1)
  {
    var n := |children| - 1;
    var c0 := children[..n];
    var s0 := Run(c0, config, registry);
    var m := config.maxActions as nat;
    if s0.currentAction < m {
      RunWithinBudget(c0, config, registry);
      assert |RenderedOf(c0, registry)| < m;
    } else {
      RunCounter(c0, config, registry);
      RunRendersFirstRendered(c0, config, registry);
      assert |Take(RenderedOf(c0, registry), m)| == m;
      assert |RenderedOf(c0, registry)| >= m;
    }
  }

  /** The children the iteration reached: all of them, or those up to and including the one whose callback failed. */
  function Reached(children: seq<Action>, stoppedAt: Option<nat>): seq<Action>
  {
    if stoppedAt.Some? && stoppedAt.value < |children| then children[..stoppedAt.value + 1] else children
  }

  /** After a stop, one more child changes neither the warnings nor the reached children. */
  lemma WarningsAfterStop(children: seq<Action>, config: ActionsConfig, registry: set<string>)
    requires children != [] && Run(children[..|children| - 1], config, registry).stoppedAt.Some?
    ensures var c0 := children[..|children| - 1];
      var s0 := Run(c0, config, registry);
      var s := Run(children, config, registry);
      s.warnings == s0.warnings && Reached(children, s.stoppedAt) == Reached(c0, s0.stoppedAt)
  {
    var n := |children| - 1;
    var c0 := children[..n];
    RunCounter(c0, config, registry);
    PrefixOfPrefix(children, n, Run(c0, config, registry).stoppedAt.value + 1);
  }

  /** Before a stop, the reached children grow by the child the iteration reaches. */
  lemma ReachedStep(children: seq<Action>, config: ActionsConfig, registry: set<string>)
    requires children != [] && Run(children[..|children| - 1], config, registry).stoppedAt.None?
    ensures var c0 := children[..|children| - 1];
      Reached(children, Run(children, config, registry).stoppedAt) == children &&
      Reached(c0, Run(c0, config, registry).stoppedAt) == c0
  {
    assert children[..|children| - 1 + 1] == children;
  }

  /** The warnings of the action set are, in child order, those of every child the iteration reached. */
  lemma {:induction false} RunWarnings(children: seq<Action>, config: ActionsConfig, registry: set<string>)
    ensures var s := Run(children, config, registry);
      s.warnings == WarningsOf(Reached(children, s.stoppedAt), registry, config.maxActions)
    decreases |children|
  {
    if children != [] {
      var c0 := children[..|children| - 1];
      RunWarnings(c0, config, registry);
      if Run(c0, config, registry).stoppedAt.Some? {
        WarningsAfterStop(children, config, registry);
      } else {
        WarningsStep(children, config, registry);
        ReachedStep(children, config, registry);
      }
    }
  }

  /** Run over one more child is one more Step. */
  lemma RunExtend(children: seq<Action>, i: nat, config: ActionsConfig, registry: set<string>)
    requires i < |children|
    ensures Run(children[..i + 1], config, registry) == Step(Run(children[..i], config, registry), children[i], i, config, registry)
  {
    assert children[..i + 1][..i] == children[..i];
  }

  /** Once the iteration has stopped, the remaining children change nothing. */
  lemma {:induction false} RunAfterStop(children: seq<Action>, k: nat, config: ActionsConfig, registry: set<string>)
    requires k <= |children| && Run(children[..k], config, registry).stoppedAt.Some?
    ensures Run(children, config, registry) == Run(children[..k], config, registry)
    decreases |children| - k
  {
    if k < |children| {
      var n := |children| - 1;
      PrefixOfPrefix(children, n, k);
      RunAfterStop(children[..n], k, config, registry);
    } else {
      assert children[..k] == children;
    }
  }

  // ---------------------------------------------------------------------------
  // The action set
  // ---------------------------------------------------------------------------

  predicate AllHaveIcons(children: seq<Action>)
  {
    forall i | 0 <= i < |children| :: children[i].iconUrl != ""
  }

  /** What BuildActionSetHelper produces. */
  datatype ActionSetPlan = ActionSetPlan(
    panel: Panel,
    panelMargin: Thickness,
    panelStyle: string,
    allowAboveTitleIconPlacement: bool,
    buttons: seq<Action>,
    gridColumns: seq<nat>,
    columnDefinitions: seq<GridLength>,
    showCards: seq<Action>,
    warnings: seq<Warning>,
    stoppedAt: Option<nat>,
    allowAboveTitleIconPlacementAfter: bool)

  /**
   * The plan of an action set. allowAboveTitleIconPlacement is the flag the
   * render arguments carry while the children are rendered;
   * allowAboveTitleIconPlacementAfter is the value it is reset to.
   */
  function ActionSetSpec(children: seq<Action>, config: ActionsConfig, registry: set<string>): ActionSetPlan
  {
    var s := Run(children, config, registry);
    ActionSetPlan(
      ChoosePanel(config),
      ActionsPanelMargin(config.orientation, ButtonMargin(config)),
      "Adaptive.Actions",
      AllHaveIcons(children),
      s.buttons, s.gridColumns, s.columnDefinitions, s.showCards, s.warnings, s.stoppedAt,
      false)
  }

  /**
   * The fallback walk of one callback (the while (!renderer) loop): follow
   * Content fallbacks until a type string has a renderer, stopping at Drop or
   * None.
   */
  method FindRenderer(child: Action, registry: set<string>) returns (action: Action, dropped: bool, failed: bool, warnings: seq<Warning>)
    ensures !(dropped && failed)
    ensures Resolve(child, registry).warnings == warnings
    ensures Resolve(child, registry).outcome ==
      if dropped then Skip else if failed then Fail else Render(action)
  {
    action := child;
    warnings := [];
    dropped, failed := false, false;
    while action.typeString !in registry
      invariant Resolve(child, registry).outcome == Resolve(action, registry).outcome
      invariant Resolve(child, registry).warnings == warnings + Resolve(action, registry).warnings
      decreases action
    {
      match action.fallback {
        case Drop =>
          warnings := warnings + [FallbackDrop(action.typeString)];
          dropped := true;
          return;
        case Content(fallbackAction) =>
          warnings := warnings + [FallbackContent(action.typeString, fallbackAction.typeString)];
          action := fallbackAction;
        case NoFallback =>
          failed := true;
          return;
      }
    }
  }

  /**
   * The IterateOverVector callback for the child at `index`: within the
   * budget, walk the fallbacks and render, place and count the action; past
   * it, only warn and count. A failed walk records where the iteration stopped.
   */
  method ActionCallback(s: LoopState, child: Action, index: nat, config: ActionsConfig, registry: set<string>, grid: bool)
    returns (t: LoopState)
    requires s.stoppedAt.None? && grid == ChoosePanel(config).GridPanel?
    ensures t == Step(s, child, index, config, registry)
  {
    t := s;
    if t.currentAction < config.maxActions {
      var action, dropped, failed, walkWarnings := FindRenderer(child, registry);
      t := t.(warnings := t.warnings + walkWarnings);
      if dropped {
        return;
      }
      if failed {
        t := t.(stoppedAt := Some(index));
        return;
      }
      t := t.(buttons := t.buttons + [action]);
      if BuildsInlineShowCard(action, config) {
        t := t.(showCards := t.showCards + [action]);
      }
      if grid {
        t := t.(columnDefinitions := t.columnDefinitions + [Star(1.0)], gridColumns := t.gridColumns + [t.currentAction]);
      }
    } else {
      t := t.(warnings := t.warnings + [MaxActionsExceeded]);
    }
    t := t.(currentAction := t.currentAction + 1);
  }

  /** The loop deciding whether every child action has an icon URL. */
  method EveryActionHasIcon(children: seq<Action>) returns (allActionsHaveIcons: bool)
    ensures allActionsHaveIcons <==> forall i | 0 <= i < |children| :: children[i].iconUrl != ""
  {
    allActionsHaveIcons := true;
    for k := 0 to |children|
      invariant allActionsHaveIcons <==> forall j | 0 <= j < k :: children[j].iconUrl != ""
    {
      if children[k].iconUrl == "" {
        allActionsHaveIcons := false;
      }
    }
  }

  /**
   * IterateOverVector over the children with the action callback; the
   * iteration ends early when a callback fails.
   */
  method IterateActions(children: seq<Action>, config: ActionsConfig, registry: set<string>, grid: bool)
    returns (state: LoopState)
    requires grid == ChoosePanel(config).GridPanel?
    ensures state == Run(children, config, registry)
  {
    state := Start;
    var i := 0;
    while i < |children| && state.stoppedAt.None?
      invariant 0 <= i <= |children|
      invariant state == Run(children[..i], config, registry)
    {
      RunExtend(children, i, config, registry);
      state := ActionCallback(state, children[i], i, config, registry, grid);
      i := i + 1;
    }
    if state.stoppedAt.Some? {
      RunAfterStop(children, i, config, registry);
    } else {
      assert children[..i] == children;
    }
  }

  /**
   * BuildActionSetHelper, with the registry of action renderers given as the
   * set of type strings that have one.
   */
  method BuildActionSetHelper(children: seq<Action>, config: ActionsConfig, registry: set<string>) returns (plan: ActionSetPlan)
    ensures plan == ActionSetSpec(children, config, registry)
  {
    var actionAlignment := config.alignment;
    var actionsOrientation := config.orientation;
    var actionsPanel := ChoosePanel(config);

    var buttonMargin := GetButtonMargin(config);
    var panelMargin := ActionsPanelMargin(actionsOrientation, buttonMargin);

    var maxActions := config.maxActions;

    var allActionsHaveIcons := EveryActionHasIcon(children);
    var allowAboveTitleIconPlacement := allActionsHaveIcons;

    var state := IterateActions(children, config, registry, actionsPanel.GridPanel?);

    allowAboveTitleIconPlacement := false;
    plan := ActionSetPlan(
      actionsPanel, panelMargin, "Adaptive.Actions", allActionsHaveIcons,
      state.buttons, state.gridColumns, state.columnDefinitions, state.showCards, state.warnings, state.stoppedAt,
      allowAboveTitleIconPlacement);
  }

  /**
   * Every button BuildAction renders for the set shows its icon above its
   * title only when the placement is AboveTitle and every child of the set,
   * rendered or not, has an icon.
   */
  lemma IconAboveTitleNeedsEveryIcon(children: seq<Action>, config: ActionsConfig, registry: set<string>,
                                     icon: IconRendering, defaultSpacing: UInt32, overrideStyles: set<string>, k: nat)
    requires k < |ActionSetSpec(children, config, registry).buttons|
    ensures var plan := ActionSetSpec(children, config, registry);
      BuildAction(plan.buttons[k], config, plan.allowAboveTitleIconPlacement, icon, defaultSpacing, overrideStyles)
        .content.IconAboveTitle? ==>
      config.iconPlacement == AboveTitle && forall i | 0 <= i < |children| :: children[i].iconUrl != ""
  {
  }

  /** An element BuildActions appends to the card body. */
  datatype BodyElement = Separator(spacing: UInt32) | ActionSetControl(plan: ActionSetPlan)

  /**
   * BuildActions: an optional separator with the configured actions spacing,
   * then the action set. `separatorSpacing` is the spacing size of that
   * configured spacing.
   */
  method BuildActions(children: seq<Action>, config: ActionsConfig, registry: set<string>,
                      insertSeparator: bool, separatorSpacing: UInt32) returns (appended: seq<BodyElement>)
    ensures |appended| == if insertSeparator then 2 else 1
    ensures insertSeparator ==> appended[0] == Separator(separatorSpacing)
    ensures appended[|appended| - 1] == ActionSetControl(ActionSetSpec(children, config, registry))
  {
    appended := [];
    if insertSeparator {
      appended := appended + [Separator(separatorSpacing)];
    }
    var actionSetControl := BuildActionSetHelper(children, config, registry);
    appended := appended + [ActionSetControl(actionSetControl)];
  }
}
