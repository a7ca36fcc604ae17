/** The publication list of `src/app/research/page.js`: a category filter
    combined with a case-insensitive search over titles, author names and
    keywords, and the featured selection. */
module Research {
  import opened Text
  import opened Subsequences

  datatype Publication = Publication(
    id: int,
    title: string,
    authors: seq<string>,
    journal: string,
    year: int,
    category: string,
    summary: string,   // the `abstract` field
    keywords: seq<string>,
    featured: bool)

  const Publications: seq<Publication> := [
    Publication(1, "Quantum-Enhanced Air Quality Prediction Using Hybrid Kernel Methods",
      ["Dr. Sarah Chen", "Dr. Elena Rodriguez", "Marcus Johnson"], "Nature Quantum Information", 2024, "quantum",
      "We present a novel quantum-classical hybrid approach for air quality prediction that achieves 99.2% accuracy by leveraging quantum kernel methods for pattern recognition in high-dimensional environmental data.",
      ["Quantum Computing", "Air Quality", "Kernel Methods", "Environmental Monitoring"], true),
    Publication(2, "Real-time Environmental Monitoring Through Quantum-Classical Integration",
      ["Dr. Sarah Chen", "David Thompson", "Alex Kim"], "IEEE Transactions on Quantum Engineering", 2024, "environmental",
      "This paper demonstrates how quantum computing can be integrated with classical environmental monitoring systems to provide real-time, high-accuracy predictions for air quality management.",
      ["Real-time Monitoring", "Quantum Integration", "Environmental Systems"], false),
    Publication(3, "Comparative Analysis of Quantum vs Classical Environmental Prediction Models",
      ["Dr. Elena Rodriguez", "Marcus Johnson"], "Environmental Science & Technology", 2024, "algorithms",
      "A comprehensive comparison showing quantum-enhanced models outperform classical approaches by 12% in accuracy while maintaining computational efficiency through hybrid architectures.",
      ["Model Comparison", "Quantum Algorithms", "Performance Analysis"], true),
    Publication(4, "Noise-Resistant Quantum Environmental Sensing Networks",
      ["Dr. Sarah Chen", "David Thompson"], "Physical Review Applied", 2023, "quantum",
      "We develop quantum error correction techniques specifically optimized for environmental sensor networks, ensuring reliable operation in real-world conditions.",
      ["Quantum Error Correction", "Sensor Networks", "Environmental Sensing"], false),
    Publication(5, "IBM Quantum Integration for Large-Scale Environmental Monitoring",
      ["David Thompson", "Dr. Sarah Chen", "Alex Kim"], "Under Review - Science", 2025, "quantum",
      "Demonstrating how IBM Quantum hardware can be scaled for continental-level environmental monitoring with sub-10ms prediction latency.",
      ["IBM Quantum", "Scalability", "Real-time Processing"], true)
  ]

  /** `selectedCategory === 'all' || pub.category === selectedCategory`. */
  predicate MatchesCategory(p: Publication, category: string)
  {
    category == "all" || p.category == category
  }

  /** Some string of the list includes the (already lower-cased) term. */
  predicate AnyIncludes(xs: seq<string>, loweredTerm: string)
  {
    exists i :: 0 <= i < |xs| && Contains(Lower(xs[i]), loweredTerm)
  }

  /** The search half of the filter: title, any author or any keyword
      includes the term, ignoring case. */
  predicate MatchesSearch(p: Publication, term: string)
  {
    var t := Lower(term);
    Contains(Lower(p.title), t) || AnyIncludes(p.authors, t) || AnyIncludes(p.keywords, t)
  }

  predicate Selected(p: Publication, category: string, term: string)
  {
    MatchesCategory(p, category) && MatchesSearch(p, term)
  }

  /** `filteredPublications`. */
  function FilteredPublications(pubs: seq<Publication>, category: string, term: string): (r: seq<Publication>)
    ensures IsSubsequence(r, pubs)
    ensures forall p :: p in r ==> MatchesCategory(p, category) && MatchesSearch(p, term)
    ensures category != "all" ==> forall p :: p in r ==> p.category == category
    ensures forall i :: 0 <= i < |pubs| && Selected(pubs[i], category, term) ==> pubs[i] in r
    ensures forall p :: multiset(r)[p] == if Selected(p, category, term) then multiset(pubs)[p] else 0
  {
    Filter(pubs, p => Selected(p, category, term))
  }

  /** With no category chosen and an empty search box the whole list shows. */
  lemma AllCategoriesEmptySearchShowsEverything(pubs: seq<Publication>)
    ensures FilteredPublications(pubs, "all", "") == pubs
  {
    forall i | 0 <= i < |pubs|
      ensures Selected(pubs[i], "all", "")
    {
      ContainsEmpty(Lower(pubs[i].title));
    }
    FilterKeepsAll(pubs, p => Selected(p, "all", ""));
  }

  /** Terms that differ only in letter case select the same publications. */
  lemma SearchIgnoresCase(pubs: seq<Publication>, category: string, t1: string, t2: string)
    requires Lower(t1) == Lower(t2)
    ensures FilteredPublications(pubs, category, t1) == FilteredPublications(pubs, category, t2)
  {
    FilterAgreeing(pubs, p => Selected(p, category, t1), p => Selected(p, category, t2));
  }

  /** Searching for the lower-cased term is the same as searching for the term. */
  lemma SearchLoweredTerm(pubs: seq<Publication>, category: string, term: string)
    ensures FilteredPublications(pubs, category, Lower(term)) == FilteredPublications(pubs, category, term)
  {
    LowerIdempotent(term);
    SearchIgnoresCase(pubs, category, Lower(term), term);
  }

  /** The abstract and the journal are never searched: rewriting them does
      not change whether a publication matches. */
  lemma SearchIgnoresAbstractAndJournal(p: Publication, summary: string, journal: string, term: string)
    ensures MatchesSearch(p.(summary := summary, journal := journal), term) == MatchesSearch(p, term)
  {
  }

  /** A term found only in an abstract or a journal name finds nothing. */
  lemma AbstractOnlyTermFindsNothing(pubs: seq<Publication>, category: string, term: string)
    requires forall i :: 0 <= i < |pubs| ==>
      !Contains(Lower(pubs[i].title), Lower(term)) &&
      !AnyIncludes(pubs[i].authors, Lower(term)) &&
      !AnyIncludes(pubs[i].keywords, Lower(term))
    ensures FilteredPublications(pubs, category, term) == []
  {
    FilterKeepsNone(pubs, p => Selected(p, category, term));
  }

  predicate IsFeatured(p: Publication) { p.featured }

  /** `featuredPublications`. */
  function FeaturedPublications(pubs: seq<Publication>): (r: seq<Publication>)
    ensures IsSubsequence(r, pubs)
    ensures forall p :: p in r ==> p.featured
    ensures forall i :: 0 <= i < |pubs| && pubs[i].featured ==> pubs[i] in r
    ensures forall p :: multiset(r)[p] == if p.featured then multiset(pubs)[p] else 0
  {
    Filter(pubs, IsFeatured)
  }

  /** The last three entries of such a list, flagged featured, not, featured. */
  lemma FeaturedOfAlternatingTail(P: seq<Publication>)
    requires |P| == 5
    requires P[2].featured && !P[3].featured && P[4].featured
    ensures Filter(P[2..], IsFeatured) == [P[2], P[4]]
  {
    assert P[5..] == [];
    FilterStep(P, IsFeatured, 4);
    FilterStep(P, IsFeatured, 3);
    FilterStep(P, IsFeatured, 2);
  }

  /** Any five-entry list flagged featured, not, featured, not, featured
      features its first, third and fifth entries. */
  lemma FeaturedOfAlternatingFlags(P: seq<Publication>)
    requires |P| == 5
    requires P[0].featured && !P[1].featured && P[2].featured && !P[3].featured && P[4].featured
    ensures FeaturedPublications(P) == [P[0], P[2], P[4]]
  {
    FeaturedOfAlternatingTail(P);
    assert P[0..] == P;
    FilterStep(P, IsFeatured, 1);
    FilterStep(P, IsFeatured, 0);
  }

  /** The featured section shows publications 1, 3 and 5, in that order. */
  lemma FeaturedAreOneThreeFive()
    ensures FeaturedPublications(Publications) == [Publications[0], Publications[2], Publications[4]]
  {
    FeaturedOfAlternatingFlags(Publications);
  }

  /** The "no publications found" notice. */
  function NoResultsNotice(pubs: seq<Publication>, category: string, term: string): (shown: bool)
    ensures shown <==> forall i :: 0 <= i < |pubs| ==> !Selected(pubs[i], category, term)
  {
    FilterEmptyIff(pubs, p => Selected(p, category, term));
    |FilteredPublications(pubs, category, term)| == 0
  }
}
