/**
 * The glossary tooltip (`GlossaryTooltip.tsx`): a word in a page's text is looked up
 * in the glossary and, when a term is found, shown with that term's definition on
 * hover. The glossary data is given as a parameter.
 */
module GlossaryTooltip {
  import opened Wrappers
  import opened Seqs
  import opened Text
  import opened Types

  /**
   * The lookup test, ignoring case on both sides: the entry's word contains the looked-up
   * word, or the looked-up word contains the first space-separated token of the entry's word.
   */
  predicate TermMatches(t: GlossaryTerm, word: string) {
    Contains(Lower(t.word), Lower(word)) || Contains(Lower(word), Lower(SplitFirst(t.word, " ")))
  }

  function MatchesWord(word: string): GlossaryTerm -> bool {
    (t: GlossaryTerm) => TermMatches(t, word)
  }

  /** `glossaryTerms.find(...)`: the first entry that passes the lookup test, if any. */
  function LookupTerm(terms: seq<GlossaryTerm>, word: string): (r: Option<GlossaryTerm>)
    ensures r.Some? <==> exists i :: 0 <= i < |terms| && TermMatches(terms[i], word)
    ensures r.Some? ==> exists i :: 0 <= i < |terms| && terms[i] == r.value && TermMatches(terms[i], word) &&
                          forall j :: 0 <= j < i ==> !TermMatches(terms[j], word)
  {
    match FindIndex(terms, MatchesWord(word))
    case Some(i) => Some(terms[i])
    case None => None
  }

  /** The case of the looked-up word does not matter. */
  lemma LookupIgnoresWordCase(terms: seq<GlossaryTerm>, word: string)
    ensures LookupTerm(terms, Lower(word)) == LookupTerm(terms, word)
  {
    LowerIdempotent(word);
    FindIndexExtensional(terms, MatchesWord(Lower(word)), MatchesWord(word));
  }

  /** The case of the entry's word does not matter either. */
  lemma MatchIgnoresEntryCase(t: GlossaryTerm, word: string)
    ensures TermMatches(t.(word := Lower(t.word)), word) == TermMatches(t, word)
  {
    LowerIdempotent(t.word);
    LowerFirstWord(t.word);
    LowerIdempotent(SplitFirst(t.word, " "));
  }

  /** A JSX value is shown when it is present and not the empty string. */
  predicate Truthy(s: Option<string>) {
    s.Some? && s.value != ""
  }

  /** `children || text || word`. */
  function DisplayContent(children: Option<string>, text: Option<string>, word: string): (r: string)
    ensures Truthy(children) ==> r == children.value
    ensures !Truthy(children) && Truthy(text) ==> r == text.value
    ensures !Truthy(children) && !Truthy(text) ==> r == word
  {
    if Truthy(children) then children.value
    else if Truthy(text) then text.value
    else word
  }

  /** What the component renders: the content alone, or the content with a tooltip. */
  datatype Rendered =
    | PlainContent(content: string)
    | WithTooltip(content: string, termWord: string, definition: string)

  /**
   * Without a matching term only the content is rendered; with one, the content is
   * underlined and the tooltip shows the first matching term's word and definition.
   */
  function Render(terms: seq<GlossaryTerm>, word: string, text: Option<string>, children: Option<string>): (r: Rendered)
    ensures r.content == DisplayContent(children, text, word)
    ensures r.PlainContent? <==> forall i :: 0 <= i < |terms| ==> !TermMatches(terms[i], word)
    ensures r.WithTooltip? ==> exists i :: 0 <= i < |terms| && TermMatches(terms[i], word) &&
                                 r.termWord == terms[i].word && r.definition == terms[i].definition &&
                                 forall j :: 0 <= j < i ==> !TermMatches(terms[j], word)
  {
    var content := DisplayContent(children, text, word);
    match LookupTerm(terms, word)
    case None => PlainContent(content)
    case Some(t) => WithTooltip(content, t.word, t.definition)
  }
}
