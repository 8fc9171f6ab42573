/** The gating rules of Blacklight's spellcheck component: which suggestions
    it holds, and whether it renders them.

    Suggestions are Ruby array elements; the ones a search backend returns
    are strings, but an explicitly supplied list may hold `nil`, which Ruby's
    `any?` does not count. The configured `spell_max` is an input. */
module Spellcheck {
  import opened Wrappers

  /** A Ruby array element of a suggestion list. */
  datatype Term = Nil | Str(text: string)

  /** The spelling part of a search response. */
  datatype Spelling = Spelling(words: seq<Term>)

  /** A search response: its total hit count and, when the backend provides
      one, its spelling field. */
  datatype Response = Response(total: int, spelling: Option<Spelling>)

  /** The state of a spellcheck component after construction. */
  datatype SpellcheckComponent = SpellcheckComponent(response: Option<Response>, options: Option<seq<Term>>)

  /** An exception raised by the component: `selector` sent to `nil`. */
  datatype SpellcheckError = NoMethodError(selector: string)

  /** Ruby truthiness of an element: everything but `nil`. */
  predicate Truthy(t: Term) {
    t.Str?
  }

  /** Ruby's `Enumerable#any?` without a block: some element is truthy. */
  function Any(s: seq<Term>): (r: bool)
    ensures r <==> exists i :: 0 <= i < |s| && Truthy(s[i])
  {
    if |s| == 0 then false
    else if Truthy(s[0]) then true
    else
      assert forall i :: 1 <= i < |s| ==> s[i] == s[1..][i - 1];
      Any(s[1..])
  }

  /** Ruby's `Array(x)` on a list or `nil`: `nil` becomes the empty list. */
  function ArrayOf(options: Option<seq<Term>>): (r: seq<Term>)
    ensures options.None? ==> r == []
    ensures options.Some? ==> r == options.value
  {
    options.GetOr([])
  }

  /** `initialize(response:, options: nil)`: explicit options are kept as
      they are (an empty list included); otherwise they default to the
      response's spelling words, through `&.` on a missing response or
      spelling. */
  function New(response: Option<Response>, options: Option<seq<Term>> := None): (c: SpellcheckComponent)
    ensures c.response == response
    ensures options.Some? ==> c.options == options
    ensures options.None? && response.Some? && response.value.spelling.Some? ==>
              c.options == Some(response.value.spelling.value.words)
    ensures options.None? && (response.None? || response.value.spelling.None?) ==> c.options.None?
  {
    var defaulted :=
      if options.Some? then options
      else if response.Some? && response.value.spelling.Some? then Some(response.value.spelling.value.words)
      else None;
    SpellcheckComponent(response, defaulted)
  }

  /** `show_spellcheck_suggestions?(response)` with `spell_max` = `spellMax`:
      few enough hits, a spelling field, and a suggested word. */
  function ShowSpellcheckSuggestions(response: Response, spellMax: int): (r: bool)
    ensures response.total > spellMax ==> !r
    ensures response.spelling.None? ==> !r
    ensures r <==> && response.total <= spellMax
                   && response.spelling.Some?
                   && exists i :: 0 <= i < |response.spelling.value.words|
                                  && Truthy(response.spelling.value.words[i])
  {
    && response.total <= spellMax
    && response.spelling.Some?
    && Any(response.spelling.value.words)
  }

  /** `render?`: some option to show and a response that qualifies. The
      response is only consulted when there is an option; a missing one then
      fails on `total`. */
  function Render(c: SpellcheckComponent, spellMax: int): (r: Result<bool, SpellcheckError>)
    ensures !Any(ArrayOf(c.options)) ==> r == Success(false)
    ensures r.Failure? <==> Any(ArrayOf(c.options)) && c.response.None?
    ensures r.Failure? ==> r.error == NoMethodError("total")
    ensures r == Success(true) <==>
              && c.response.Some?
              && (exists i :: 0 <= i < |ArrayOf(c.options)| && Truthy(ArrayOf(c.options)[i]))
              && ShowSpellcheckSuggestions(c.response.value, spellMax)
  {
    if !Any(ArrayOf(c.options)) then Success(false)
    else match c.response
      case None => Failure(NoMethodError("total"))
      case Some(response) => Success(ShowSpellcheckSuggestions(response, spellMax))
  }

  // Properties relating the rules above.

  /** With the default options, `render?` never fails and agrees with
      `show_spellcheck_suggestions?`: the defaulted words are exactly the
      ones the latter inspects. */
  lemma DefaultOptionsRenderIffShow(response: Option<Response>, spellMax: int)
    ensures Render(New(response), spellMax)
         == Success(response.Some? && ShowSpellcheckSuggestions(response.value, spellMax))
  {
  }

  /** Explicit options replace the response's words, so an explicit empty
      list renders nothing whatever the response contains. */
  lemma ExplicitEmptyOptionsNeverRender(response: Option<Response>, spellMax: int)
    ensures Render(New(response, Some([])), spellMax) == Success(false)
  {
  }

  /** The `spell_max` bound is inclusive: a total equal to it still shows
      suggestions when there is a word to suggest. */
  lemma SpellMaxIsInclusive(response: Response, spellMax: int)
    requires response.spelling.Some? && Any(response.spelling.value.words)
    requires response.total == spellMax
    ensures ShowSpellcheckSuggestions(response, spellMax)
  {
  }

  /** Raising `spell_max` never hides suggestions that were shown. */
  lemma SpellMaxIsMonotone(response: Response, spellMax: int, larger: int)
    requires spellMax <= larger
    ensures ShowSpellcheckSuggestions(response, spellMax) ==> ShowSpellcheckSuggestions(response, larger)
  {
  }

  /** On a list of strings, as a search backend returns, `any?` is non-emptiness. */
  lemma AnyOfStringsIsNonEmpty(s: seq<Term>)
    requires forall i :: 0 <= i < |s| ==> s[i].Str?
    ensures Any(s) <==> |s| > 0
  {
  }

  /** The four reference cases of `show_spellcheck_suggestions?`: 5 hits
      against a maximum of 10 with the word "cat" shows; 15 hits, no words,
      or no spelling field do not. */
  lemma ShowSuggestionsExamples()
    ensures ShowSpellcheckSuggestions(Response(5, Some(Spelling([Str("cat")]))), 10)
    ensures !ShowSpellcheckSuggestions(Response(15, Some(Spelling([Str("cat")]))), 10)
    ensures !ShowSpellcheckSuggestions(Response(5, Some(Spelling([]))), 10)
    ensures !ShowSpellcheckSuggestions(Response(5, None), 10)
  {
  }
}
