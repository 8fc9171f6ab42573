/** The decision rules of Blacklight's facets helper: whether and how a facet
    field is rendered, whether it starts collapsed, which partial and which
    presenter it uses, and how a facet item reduces to its value.

    The helper's collaborators are inputs here: the configuration looked up
    for a facet, the answer of `should_render_field?`, whether the search
    state has a constraint on the facet, and the request's `action`
    parameter. */
module FacetsHelper {
  import opened Wrappers

  /** A component class that renders a facet field. */
  datatype ComponentType = ComponentType(name: string)

  /** A presenter class that prepares a facet field for display. */
  datatype PresenterType = PresenterType(name: string)

  const FacetFieldListComponent := ComponentType("Blacklight::FacetFieldListComponent")
  const FacetFieldPresenter := PresenterType("Blacklight::FacetFieldPresenter")

  /** The request action on which facets are rendered without their layout. */
  const FacetAction := "facet"

  const FacetPivotPartial := "facet_pivot"
  const FacetLimitPartial := "facet_limit"

  /** The Ruby value held by a facet configuration's `component` entry. */
  datatype ComponentSetting =
    | NilComponent
    | FalseComponent
      /** The legacy `component: true`, meaning "the default component". */
    | TrueComponent
    | ComponentClass(t: ComponentType)
      /** Any other value, e.g. a string by mistake; it is not a class. */
    | OtherValue(text: string)

  /** The configuration of one facet field. */
  datatype FieldConfig = FieldConfig(
    key: string,
    partial: Option<string>,
    pivot: bool,
    collapse: bool,
    component: ComponentSetting,
    presenter: Option<PresenterType>)

  /** A facet item: either an object that has a `value`, or a raw value. */
  datatype FacetItem =
    | ValueItem(value: string, hits: int, displayLabel: Option<string>)
    | RawItem(raw: string)

  /** A facet field of the search response, as handed to the helper. */
  datatype DisplayFacet = DisplayFacet(name: string, items: seq<FacetItem>)

  /** An exception raised by the helper: `selector` sent to a receiver lacking it. */
  datatype HelperError = NoMethodError(receiver: string, selector: string)

  /** What `render_facet_limit` passes to the component it renders. */
  datatype FacetRender = FacetRender(
    component: ComponentType,
    presenter: PresenterType,
    config: FieldConfig,
    facet: DisplayFacet,
    layout: bool)

  /** `render_facet_limit` renders nothing, renders a component, or raises. */
  datatype RenderOutcome = Nothing | Rendered(view: FacetRender) | Raised(error: HelperError)

  /** An outcome together with the number of deprecation warnings emitted on the way. */
  datatype RenderResult = RenderResult(outcome: RenderOutcome, warnings: nat)

  /** The component resolved from a setting, and the warnings its resolution emitted. */
  datatype Resolution = Resolution(component: Result<ComponentType, HelperError>, warnings: nat)

  predicate IsWhitespace(c: char) {
    c == ' ' || c == '\t' || c == '\n' || c == '\U{0B}' || c == '\U{0C}' || c == '\r'
  }

  /** ActiveSupport's `blank?` on a string: empty or whitespace only. */
  predicate IsBlankString(s: string) {
    forall i :: 0 <= i < |s| ==> IsWhitespace(s[i])
  }

  /** ActiveSupport's `blank?` on the values a `component` entry can hold. */
  predicate IsBlank(setting: ComponentSetting) {
    || setting.NilComponent?
    || setting.FalseComponent?
    || (setting.OtherValue? && IsBlankString(setting.text))
  }

  /** The component `render_facet_limit` instantiates for a configured setting:
      `setting.presence || FacetFieldListComponent`, with `true` replaced by
      the default and one deprecation warning; a value that is not a class
      fails when `new` is sent to it. */
  function ResolveComponent(setting: ComponentSetting): (r: Resolution)
    ensures IsBlank(setting) ==> r == Resolution(Success(FacetFieldListComponent), 0)
    ensures setting == TrueComponent ==> r == Resolution(Success(FacetFieldListComponent), 1)
    ensures setting.ComponentClass? ==> r == Resolution(Success(setting.t), 0)
    ensures r.component.Failure? <==> setting.OtherValue? && !IsBlank(setting)
    ensures r.component.Failure? ==> r.component.error.selector == "new"
    ensures r.warnings == 1 <==> setting == TrueComponent
    ensures r.warnings <= 1
  {
    match setting
    case NilComponent => Resolution(Success(FacetFieldListComponent), 0)
    case FalseComponent => Resolution(Success(FacetFieldListComponent), 0)
    case TrueComponent => Resolution(Success(FacetFieldListComponent), 1)
    case ComponentClass(t) => Resolution(Success(t), 0)
    case OtherValue(s) =>
      if IsBlankString(s) then Resolution(Success(FacetFieldListComponent), 0)
      else Resolution(Failure(NoMethodError(s, "new")), 0)
  }

  /** The layout flag handed to the component: never on the `facet` action,
      otherwise the caller's choice. */
  function EffectiveLayout(action: Option<string>, layout: bool): (r: bool)
    ensures action == Some(FacetAction) ==> !r
    ensures action != Some(FacetAction) ==> r == layout
    ensures r ==> layout
  {
    if action == Some(FacetAction) then false else layout
  }

  /** The presenter class of a facet field: the configured one, else the default. */
  function PresenterFor(config: FieldConfig): (r: PresenterType)
    ensures config.presenter.Some? ==> r == config.presenter.value
    ensures config.presenter.None? ==> r == FacetFieldPresenter
  {
    config.presenter.GetOr(FacetFieldPresenter)
  }

  /** `render_facet_limit(display_facet, layout:)`, given the looked-up
      `config`, the answer `shouldRender` of `should_render_field?` and the
      request's `action`. */
  function RenderFacetLimit(facet: DisplayFacet, config: FieldConfig, shouldRender: bool,
                            action: Option<string>, layout: bool := true): (r: RenderResult)
    ensures !shouldRender ==> r == RenderResult(Nothing, 0)
    ensures shouldRender ==> r.warnings == ResolveComponent(config.component).warnings
    ensures r.warnings == 1 <==> shouldRender && config.component == TrueComponent
    ensures r.warnings <= 1
    ensures r.outcome.Rendered? <==> shouldRender && ResolveComponent(config.component).component.Success?
    ensures r.outcome.Raised? <==> shouldRender && config.component.OtherValue? && !IsBlank(config.component)
    ensures r.outcome.Raised? ==> r.outcome.error == NoMethodError(config.component.text, "new")
    ensures r.outcome.Rendered? ==>
              r.outcome.view == FacetRender(ResolveComponent(config.component).component.value,
                                            PresenterFor(config), config, facet,
                                            EffectiveLayout(action, layout))
  {
    if !shouldRender then RenderResult(Nothing, 0)
    else
      var resolution := ResolveComponent(config.component);
      match resolution.component
      case Success(component) =>
        RenderResult(Rendered(FacetRender(component, PresenterFor(config), config, facet,
                                          EffectiveLayout(action, layout))),
                     resolution.warnings)
      case Failure(e) => RenderResult(Raised(e), resolution.warnings)
  }

  /** `should_collapse_facet?`: `active` is whether the search state has a
      constraint on the facet. */
  function ShouldCollapseFacet(config: FieldConfig, active: bool): (r: bool)
    ensures active ==> !r
    ensures !active && config.collapse ==> r
    ensures !active && !config.collapse ==> !r
  {
    !active && config.collapse
  }

  /** `facet_partial_name(display_facet = nil)`, given the configuration
      looked up for the facet; a missing facet fails on `name`. */
  function FacetPartialName(facet: Option<DisplayFacet>, config: FieldConfig): (r: Result<string, HelperError>)
    ensures facet.None? ==> r.Failure? && r.error.selector == "name"
    ensures facet.Some? && config.partial.Some? ==> r == Success(config.partial.value)
    ensures facet.Some? && config.partial.None? && config.pivot ==> r == Success(FacetPivotPartial)
    ensures facet.Some? && config.partial.None? && !config.pivot ==> r == Success(FacetLimitPartial)
  {
    match facet
    case None => Failure(NoMethodError("nil", "name"))
    case Some(_) =>
      var name := if config.partial.Some? then config.partial
                  else if config.pivot then Some(FacetPivotPartial)
                  else None;
      Success(name.GetOr(FacetLimitPartial))
  }

  /** `facet_value_for_facet_item`: an item's `value` if it has one, else the item. */
  function FacetValue(item: FacetItem): (r: string)
    ensures item.ValueItem? ==> r == item.value
    ensures item.RawItem? ==> r == item.raw
  {
    match item
    case ValueItem(v, _, _) => v
    case RawItem(raw) => raw
  }

  // Properties relating the rules above.

  /** The legacy `component: true` renders exactly what configuring the
      default component class renders, plus one deprecation warning. */
  lemma LegacyTrueMatchesDefault(facet: DisplayFacet, config: FieldConfig, shouldRender: bool,
                                 action: Option<string>, layout: bool)
    requires config.component == TrueComponent
    ensures var legacy := RenderFacetLimit(facet, config, shouldRender, action, layout);
            var explicit := RenderFacetLimit(facet, config.(component := ComponentClass(FacetFieldListComponent)),
                                             shouldRender, action, layout);
            && (legacy.outcome.Rendered? <==> explicit.outcome.Rendered?)
            && (legacy.outcome.Rendered? ==> legacy.outcome.view == explicit.outcome.view.(config := config))
            && legacy.warnings == explicit.warnings + (if shouldRender then 1 else 0)
  {
  }

  /** A blank `component` entry renders the default component, silently,
      whenever the facet is rendered at all. */
  lemma BlankComponentRendersDefault(facet: DisplayFacet, config: FieldConfig,
                                     action: Option<string>, layout: bool)
    requires IsBlank(config.component)
    ensures var r := RenderFacetLimit(facet, config, true, action, layout);
            r.warnings == 0 && r.outcome.Rendered? && r.outcome.view.component == FacetFieldListComponent
  {
  }

  /** Resolution is a fixpoint: configuring the class a setting resolved to
      resolves to that class again, without a warning. */
  lemma ResolvedComponentIsStable(setting: ComponentSetting)
    requires ResolveComponent(setting).component.Success?
    ensures var c := ResolveComponent(setting).component.value;
            ResolveComponent(ComponentClass(c)) == Resolution(Success(c), 0)
  {
  }

  /** The layout passed to the component depends only on the action and the
      caller's flag, never on the configuration. */
  lemma LayoutIgnoresConfig(facet: DisplayFacet, c1: FieldConfig, c2: FieldConfig,
                            action: Option<string>, layout: bool)
    requires RenderFacetLimit(facet, c1, true, action, layout).outcome.Rendered?
    requires RenderFacetLimit(facet, c2, true, action, layout).outcome.Rendered?
    ensures RenderFacetLimit(facet, c1, true, action, layout).outcome.view.layout
         == RenderFacetLimit(facet, c2, true, action, layout).outcome.view.layout
    ensures RenderFacetLimit(facet, c1, true, action).outcome.view.layout == (action != Some(FacetAction))
  {
  }

  /** Whether a facet is collapsed reads only its activity and its
      `collapse` flag: the partial, pivot flag, component and presenter of
      its configuration play no part. */
  lemma CollapseReadsOnlyActivityAndFlag(config: FieldConfig, active: bool, partial: Option<string>,
                                         pivot: bool, component: ComponentSetting,
                                         presenter: Option<PresenterType>)
    ensures ShouldCollapseFacet(config, active)
         == ShouldCollapseFacet(config.(partial := partial, pivot := pivot, component := component,
                                        presenter := presenter), active)
  {
  }

  /** Example: a `format` facet configured to collapse is collapsed while
      inactive and open while active. */
  lemma FormatFacetCollapseExample()
    ensures var format := FieldConfig("format", None, false, true, NilComponent, None);
            ShouldCollapseFacet(format, false) && !ShouldCollapseFacet(format, true)
  {
  }

  /** The partial name reads the facet only for its presence, and the
      configuration only for `partial` and `pivot`: any other facet, and
      any `collapse`, component or presenter, give the same name. */
  lemma PartialNameReadsOnlyPartialAndPivot(f1: DisplayFacet, f2: DisplayFacet, config: FieldConfig,
                                            collapse: bool, component: ComponentSetting,
                                            presenter: Option<PresenterType>)
    ensures FacetPartialName(Some(f1), config)
         == FacetPartialName(Some(f2), config.(collapse := collapse, component := component,
                                               presenter := presenter))
  {
  }

  /** The presenter class reads only the `presenter` entry: the component,
      partial, pivot and collapse settings do not change it. */
  lemma PresenterReadsOnlyPresenter(config: FieldConfig, component: ComponentSetting,
                                    partial: Option<string>, pivot: bool, collapse: bool)
    ensures PresenterFor(config)
         == PresenterFor(config.(component := component, partial := partial, pivot := pivot,
                                 collapse := collapse))
  {
  }

  /** An item's value ignores its hit count and label: an item with value
      `v` reduces to the same value as the raw value `v`. */
  lemma FacetValueIgnoresHitsAndLabel(v: string, hits: int, displayLabel: Option<string>)
    ensures FacetValue(ValueItem(v, hits, displayLabel)) == FacetValue(RawItem(v))
  {
  }
}
