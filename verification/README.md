# Blacklight facet and spellcheck decision rules, in Dafny

This project models two groups of pure decision rules from Blacklight, a
Rails toolkit for search interfaces over Solr.

The first group comes from the facets helper (`Blacklight::FacetsHelperBehavior`):
- whether `render_facet_limit` renders a facet at all;
- which component class it renders, including the legacy `component: true` setting, which resolves to the default and emits a deprecation warning;
- which presenter class it hands over;
- the effective `layout` flag;
- whether a facet is collapsed;
- which partial names a facet;
- how a facet item reduces to its value.

The second group comes from the spellcheck component (`Blacklight::Response::SpellcheckComponent`):
- how its suggestion list defaults to the response's spelling words;
- whether it renders;
- whether a response qualifies for suggestions.

Everything is a total function over small datatypes. Three modules:
- `Wrappers` (`wrappers.dfy`) holds `Option` (Ruby's `nil`) and `Result` (a return value or a raised exception).
- `FacetsHelper` (`facets_helper.dfy`) holds the facet rules.
- `Spellcheck` (`spellcheck.dfy`) holds the spellcheck rules.

The helper's collaborators are plain parameters:
- the configuration `facet_configuration_for_field` returns;
- the answer of `should_render_field?`;
- whether `search_state.has_facet?` holds for the facet;
- the request's `params[:action]`;
- the configured `spell_max`.

Ruby semantics kept where they change the outcome:
- A `component` entry can hold `nil`, `false`, `true`, a class or some other value. ActiveSupport's `presence` maps a blank value (`nil`, `false`, a blank string) to the default. A non-blank value that is not a class makes `new` raise `NoMethodError`. `render_facet_limit` then raises, which the model shows as the `Raised` outcome.
- `Array(@options).any?` is `Enumerable#any?`: it is true when some element is not `nil`, not merely when the list is non-empty. Suggestion lists therefore hold `Term`s (`Nil` or `Str`). For lists of strings, as the search backend returns them, the two coincide (`AnyOfStringsIsNonEmpty`).
- `options || default` keeps an explicit empty list, since `[]` is truthy in Ruby. Such a component never renders.
- `render?` consults the response only when there is an option. With options but no response, `response.total` raises `NoMethodError`.
- An explicit partial wins even when it is the empty string, because `""` is truthy in Ruby.
- `facet_partial_name` called with its default `nil` facet raises `NoMethodError` on `name`.

Further facts about the code that shape the model:
- `facet_configuration_for_field` is an input, so a missing configuration is not modelled.
- A non-class `component` raises `NoMethodError` when `new` is sent to it (facets_helper_behavior.rb:27).
- Suggestions show when `words.any?` holds (spellcheck_component.rb:34).

## Model

| member | source | states |
|---|---|---|
| FacetsHelper.ResolveComponent | app/helpers/blacklight/facets_helper_behavior.rb:20-24 | A blank setting gives the default component with no warning. `true` gives the default component with exactly one warning. A class is used unchanged. Only a non-blank non-class value fails, on `new`. |
| FacetsHelper.EffectiveLayout | app/helpers/blacklight/facets_helper_behavior.rb:29 | On the `facet` action the layout is off. Otherwise it is the caller's flag. It is never on when the caller turned it off. |
| FacetsHelper.PresenterFor | app/helpers/blacklight/facets_helper_behavior.rb:65-67 | The configured presenter class when there is one, else `FacetFieldPresenter`. |
| FacetsHelper.RenderFacetLimit | app/helpers/blacklight/facets_helper_behavior.rb:16-32 | When `should_render_field?` is false: nothing rendered and no warning. Otherwise the warning count is that of the component resolution, at most one, and one exactly for `component: true`. It renders iff the resolution succeeds, with the resolved component, the presenter class, the config, the facet and the effective layout. It raises `NoMethodError` on `new` iff the component setting is a non-blank non-class; presenters are always classes here. |
| Wrappers.Option.GetOr | app/helpers/blacklight/facets_helper_behavior.rb:66 | Ruby's `x || default` on a value that is `nil` or an object: the value when present, else the default. |
| FacetsHelper.LegacyTrueMatchesDefault | app/helpers/blacklight/facets_helper_behavior.rb:20-24 | `component: true` renders the same view as configuring `FacetFieldListComponent` explicitly, with one more warning when the facet renders. |
| FacetsHelper.BlankComponentRendersDefault | app/helpers/blacklight/facets_helper_behavior.rb:20 | A blank component entry on a facet that should render always renders `FacetFieldListComponent`, without a warning. |
| FacetsHelper.ResolvedComponentIsStable | app/helpers/blacklight/facets_helper_behavior.rb:20-24 | Configuring the class a setting resolved to resolves to the same class again, with no warning. |
| FacetsHelper.LayoutIgnoresConfig | app/helpers/blacklight/facets_helper_behavior.rb:16-29 | The rendered layout does not depend on the configuration. With the default `layout: true` it is on exactly when the action is not `facet`. |
| FacetsHelper.ShouldCollapseFacet | app/helpers/blacklight/facets_helper_behavior.rb:34-46 | Implements the three documented rules: an active facet is not collapsed; an inactive one configured to collapse is; an inactive one configured not to collapse is not. |
| FacetsHelper.CollapseReadsOnlyActivityAndFlag | app/helpers/blacklight/facets_helper_behavior.rb:45 | For every configuration, changing its partial, pivot flag, component or presenter never changes whether the facet is collapsed. Only activity and `collapse` matter. |
| FacetsHelper.FormatFacetCollapseExample | app/helpers/blacklight/facets_helper_behavior.rb:43-46 | A `format` facet configured to collapse is collapsed while inactive and open while active. |
| FacetsHelper.FacetPartialName | app/helpers/blacklight/facets_helper_behavior.rb:57-62 | No facet raises on `name`. Otherwise the result is the explicit partial if set, even `""` and even on a pivot facet, else `facet_pivot` for a pivot facet, else `facet_limit`. |
| FacetsHelper.PartialNameReadsOnlyPartialAndPivot | app/helpers/blacklight/facets_helper_behavior.rb:58-61 | For any two present facets and any `collapse`, component and presenter settings, the partial name is the same. Only the facet's presence and the `partial` and `pivot` entries matter. |
| FacetsHelper.PresenterReadsOnlyPresenter | app/helpers/blacklight/facets_helper_behavior.rb:66 | Changing the component, partial, pivot or collapse settings never changes the presenter class. |
| FacetsHelper.FacetValue | app/helpers/blacklight/facets_helper_behavior.rb:128-134 | An item with a value reduces to that value. A raw item reduces to itself. |
| FacetsHelper.FacetValueIgnoresHitsAndLabel | app/helpers/blacklight/facets_helper_behavior.rb:129-133 | An item's hit count and label never affect its value: an item with value `v` reduces exactly as the raw value `v` does. |
| Spellcheck.Any | app/components/blacklight/response/spellcheck_component.rb:21 | `any?` holds iff some element of the list is not `nil`. |
| Spellcheck.ArrayOf | app/components/blacklight/response/spellcheck_component.rb:21 | `Array(nil)` is the empty list. `Array` of a list is that list. |
| Spellcheck.New | app/components/blacklight/response/spellcheck_component.rb:9-12 | Explicit options, even empty ones, are kept. Without them the options are the response's spelling words, or `nil` when the response or its spelling is missing. The response is stored unchanged. |
| Spellcheck.ShowSpellcheckSuggestions | app/components/blacklight/response/spellcheck_component.rb:30-35 | True iff total ≤ `spell_max` (inclusive), the spelling field is present, and some word is not `nil`. A total above the maximum or a missing spelling field gives false, never an error. |
| Spellcheck.Render | app/components/blacklight/response/spellcheck_component.rb:20-22 | False whenever no option is truthy, including `nil` options, whatever the response holds. It raises on `total` iff there is an option but no response. Otherwise it is true iff some option is truthy and the response qualifies. |
| Spellcheck.DefaultOptionsRenderIffShow | app/components/blacklight/response/spellcheck_component.rb:9-35 | With defaulted options, `render?` never raises. It equals `show_spellcheck_suggestions?` of the response, and is false without a response. |
| Spellcheck.ExplicitEmptyOptionsNeverRender | app/components/blacklight/response/spellcheck_component.rb:11-21 | An explicit empty option list renders nothing, whatever the response's words. |
| Spellcheck.SpellMaxIsInclusive | app/components/blacklight/response/spellcheck_component.rb:32 | With a spelling field holding a truthy word, a total equal to `spell_max` still shows. |
| Spellcheck.SpellMaxIsMonotone | app/components/blacklight/response/spellcheck_component.rb:32 | For every response, raising `spell_max` never hides suggestions that were shown. |
| Spellcheck.AnyOfStringsIsNonEmpty | app/components/blacklight/response/spellcheck_component.rb:34 | On a list of strings, `any?` is exactly non-emptiness. |
| Spellcheck.ShowSuggestionsExamples | app/components/blacklight/response/spellcheck_component.rb:30-35 | 5 hits, maximum 10, word "cat": shown. 15 hits: not shown. No words: not shown. No spelling field: not shown. |

## Left out

- Rendering itself is not modelled: `render`, `component.new` and presenter construction are ViewComponent/ActionView machinery. The model returns what would be rendered, with which component, presenter class and layout.
- `link_to_query` and URL building in the spellcheck component are left out, because they delegate to the view context's query-state helpers.
- `facet_configuration_for_field`, `should_render_field?`, `search_state.has_facet?`, `search_state.params` and `blacklight_config.spell_max` are left out as code. They are defined outside the modelled files, so their results are inputs.
- Whether an empty facet is skipped is decided outside the modelled files. The model shows only that a false `should_render_field?` renders nothing.
- Deprecation plumbing (`Deprecation.warn`/`silence`, `deprecation_deprecate`, `deprecated_method`, caller stacks) is left out. The `component: true` warning is modelled as a warning count. The notices emitted when calling deprecated helpers such as `should_collapse_facet?` and `facet_partial_name` are not counted.
- `path_for_facet`, `facet_display_value` and `facet_params` are left out, because they only forward to `FacetItemPresenter` and search-state params, which are not part of this model.
- `facet_field_id` is left out, because it depends on ActiveSupport's `parameterize`.
- FacetsHelper.ResolveComponent (through FacetsHelper.IsBlank) treats only ASCII whitespace as blank. ActiveSupport's `blank?` also treats other Unicode space characters as blank.
- FacetsHelper.RenderFacetLimit does not model a `presenter` entry that is truthy but not a class. `new` is sent to it at facets_helper_behavior.rb:66, so it would raise `NoMethodError`; the model's presenter entry is either absent or a class.
- FacetsHelper.ShouldCollapseFacet returns a boolean. Line 45 returns the `collapse` value itself when the facet is inactive, so a non-boolean `collapse` value is not modelled.
- FacetsHelper.FacetPartialName takes `pivot` as a boolean. Line 60 only tests it for truthiness.
- Spellcheck.Term has only `nil` and strings. A `false` element, which `any?` also ignores, is not modelled.
- Ruby integers and Dafny `int` are both unbounded, so `total <= spell_max` needs no width modelling. A `nil` `spell_max` is not modelled.
