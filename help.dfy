/** The help page's FAQ search (web/src/pages/Help.tsx): the FAQs whose question or answer
    contains the query, ignoring case, and the "no results" notice. */
module Help {
  import opened Seqs
  import opened Text

  datatype Faq = Faq(question: string, answer: string)

  /** The filter's test: the lower-cased query occurs in the lower-cased question or answer. */
  predicate Matches(query: string, faq: Faq)
  {
    Includes(Lower(faq.question), Lower(query)) || Includes(Lower(faq.answer), Lower(query))
  }

  /** `filteredFaqs`: the matching FAQs, in their original order. */
  function FilteredFaqs(faqs: seq<Faq>, query: string): (r: seq<Faq>)
    ensures IsSubseq(r, faqs)
    ensures forall f :: f in r <==> f in faqs && Matches(query, f)
    ensures forall f :: multiset(r)[f] == if Matches(query, f) then multiset(faqs)[f] else 0
  {
    FilterIsSubseq((f: Faq) => Matches(query, f), faqs);
    FilterMultiset((f: Faq) => Matches(query, f), faqs);
    Filter((f: Faq) => Matches(query, f), faqs)
  }

  /** `filteredFaqs.length === 0 && searchQuery`: the "No results" notice is shown. */
  predicate ShowsNoResults(filtered: seq<Faq>, query: string)
  {
    |filtered| == 0 && query != ""
  }

  /** An empty query matches every FAQ, so the whole list is shown. */
  lemma EmptyQueryKeepsAll(faqs: seq<Faq>)
    ensures FilteredFaqs(faqs, "") == faqs
  {
    var p := (f: Faq) => Matches("", f);
    forall i | 0 <= i < |faqs| ensures p(faqs[i]) {
      IncludesEmpty(Lower(faqs[i].question));
    }
    FilterKeepsAll(p, faqs);
  }

  /** Typing more narrows the list: when the new query contains the old one, the new result
      is a subsequence of the old result. */
  lemma NarrowingQueryNarrowsResult(faqs: seq<Faq>, shorter: string, longer: string)
    requires Includes(longer, shorter)
    ensures IsSubseq(FilteredFaqs(faqs, longer), FilteredFaqs(faqs, shorter))
  {
    IncludesLower(longer, shorter);
    forall i | 0 <= i < |faqs| && Matches(longer, faqs[i]) ensures Matches(shorter, faqs[i]) {
      var f := faqs[i];
      if Includes(Lower(f.question), Lower(longer)) {
        IncludesTransitive(Lower(f.question), Lower(longer), Lower(shorter));
      } else {
        IncludesTransitive(Lower(f.answer), Lower(longer), Lower(shorter));
      }
    }
    FilterMonotone((f: Faq) => Matches(longer, f), (f: Faq) => Matches(shorter, f), faqs);
  }

  /** On a non-empty FAQ list the notice is shown exactly when no FAQ matches the query. */
  lemma NoResultsIffNothingMatches(faqs: seq<Faq>, query: string)
    requires faqs != []
    ensures ShowsNoResults(FilteredFaqs(faqs, query), query) <==>
            forall i :: 0 <= i < |faqs| ==> !Matches(query, faqs[i])
  {
    var r := FilteredFaqs(faqs, query);
    if forall i :: 0 <= i < |faqs| ==> !Matches(query, faqs[i]) {
      FilterKeepsNone((f: Faq) => Matches(query, f), faqs);
      if query == "" {
        IncludesEmpty(Lower(faqs[0].question));
      }
    } else {
      var i :| 0 <= i < |faqs| && Matches(query, faqs[i]);
      assert faqs[i] in r;
    }
  }
}
