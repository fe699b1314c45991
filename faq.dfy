/**
 * The FAQ page: the entries shown are those whose question or answer contains
 * the search text, both lowered, recomputed on every render.
 */
module Faq {
  import opened Strings
  import opened Lists

  datatype Entry = Entry(id: string, question: string, answer: string)

  /** The test the page's filter applies to one entry. */
  predicate Matches(e: Entry, searchQuery: string) {
    Includes(ToLower(e.question), ToLower(searchQuery)) || Includes(ToLower(e.answer), ToLower(searchQuery))
  }

  /** `filteredFaqs`: the entries that match, in the page's order. */
  function FilteredFaqs(faqs: seq<Entry>, searchQuery: string): (r: seq<Entry>)
    ensures |r| <= |faqs|
    ensures forall i :: 0 <= i < |r| ==> Matches(r[i], searchQuery)
  {
    Filter(faqs, (e: Entry) => Matches(e, searchQuery))
  }

  /** An entry is shown exactly when it is one of the page's entries and it matches. */
  lemma FilteredFaqsKeeps(faqs: seq<Entry>, searchQuery: string, e: Entry)
    ensures e in FilteredFaqs(faqs, searchQuery) <==> e in faqs && Matches(e, searchQuery)
  {
    FilterMembers(faqs, (x: Entry) => Matches(x, searchQuery), e);
  }

  /** The shown entries keep the page's order and nothing is added. */
  lemma FilteredFaqsIsSubsequence(faqs: seq<Entry>, searchQuery: string)
    ensures IsSubsequence(FilteredFaqs(faqs, searchQuery), faqs)
  {
    FilterIsSubsequence(faqs, (x: Entry) => Matches(x, searchQuery));
  }

  /** With an empty search box every entry is shown. */
  lemma EmptyQueryShowsAll(faqs: seq<Entry>)
    ensures FilteredFaqs(faqs, "") == faqs
  {
    forall i | 0 <= i < |faqs|
      ensures Matches(faqs[i], "")
    {
      IncludesEmpty(ToLower(faqs[i].question));
    }
    FilterKeepsAll(faqs, (x: Entry) => Matches(x, ""));
  }
}
