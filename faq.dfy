/** The FAQ page: a fixed list of questions, a category filter, and the set of questions whose
    answers are open. */
module Faq {

  datatype Category = All | General | Services | Pricing | Process | Technical

  /** A question of the list, by its id and category (its question and answer texts are
      display only). */
  datatype FaqItem = FaqItem(id: string, category: Category)

  /** The questions of one category, by their ids. */
  function OfCategory(ids: seq<string>, c: Category): (items: seq<FaqItem>)
    ensures |items| == |ids|
    ensures forall i :: 0 <= i < |items| ==> items[i] == FaqItem(ids[i], c)
  {
    seq(|ids|, i requires 0 <= i < |ids| => FaqItem(ids[i], c))
  }

  /** The page's questions by category, and the whole list in display order. */
  const GeneralFaqs: seq<FaqItem> := OfCategory(["general-1", "general-2", "general-3"], General)
  const ServicesFaqs: seq<FaqItem> :=
    OfCategory(["services-1", "services-2", "services-3", "services-4"], Services)
  const PricingFaqs: seq<FaqItem> :=
    OfCategory(["pricing-1", "pricing-2", "pricing-3", "pricing-4"], Pricing)
  const ProcessFaqs: seq<FaqItem> :=
    OfCategory(["process-1", "process-2", "process-3", "process-4"], Process)
  const TechnicalFaqs: seq<FaqItem> :=
    OfCategory(["technical-1", "technical-2", "technical-3", "technical-4", "technical-5"], Technical)
  const FaqTable: seq<FaqItem> := GeneralFaqs + (ServicesFaqs + (PricingFaqs + (ProcessFaqs + TechnicalFaqs)))

  /** `faqs.filter(faq => faq.category === category)`. */
  function WithCategory(items: seq<FaqItem>, category: Category): (r: seq<FaqItem>)
    ensures |r| <= |items|
    ensures forall i :: 0 <= i < |r| ==> r[i].category == category
    decreases |items|
  {
    if items == [] then []
    else (if items[0].category == category then [items[0]] else []) + WithCategory(items[1..], category)
  }

  /** The list `updateFilteredFAQs` shows for a category: everything for `All`. */
  function Filtered(items: seq<FaqItem>, category: Category): (r: seq<FaqItem>)
    ensures category == All ==> r == items
    ensures category != All ==> r == WithCategory(items, category)
  {
    if category == All then items else WithCategory(items, category)
  }

  /** Filtering keeps the order of the list: a concatenation filters piecewise. */
  lemma {:induction false} WithCategoryAppend(a: seq<FaqItem>, b: seq<FaqItem>, category: Category)
    ensures WithCategory(a + b, category) == WithCategory(a, category) + WithCategory(b, category)
    decreases |a|
  {
    if a == [] {
      assert a + b == b;
    } else {
      assert (a + b)[0] == a[0] && (a + b)[1..] == a[1..] + b;
      WithCategoryAppend(a[1..], b, category);
      var h := if a[0].category == category then [a[0]] else [];
      assert WithCategory(a + b, category) == h + WithCategory(a[1..] + b, category);
    }
  }

  /** An item is shown for a category exactly when it has that category. */
  lemma {:induction false} WithCategoryMembers(items: seq<FaqItem>, category: Category, x: FaqItem)
    ensures x in WithCategory(items, category) <==> x in items && x.category == category
    decreases |items|
  {
    if items != [] {
      WithCategoryMembers(items[1..], category, x);
      assert items == [items[0]] + items[1..];
    }
  }

  /** A list of one category keeps all of it under that category and nothing under another. */
  lemma {:induction false} WithCategoryUniform(items: seq<FaqItem>, c: Category)
    ensures (forall i :: 0 <= i < |items| ==> items[i].category == c) ==> WithCategory(items, c) == items
    ensures (forall i :: 0 <= i < |items| ==> items[i].category != c) ==> WithCategory(items, c) == []
    decreases |items|
  {
    if items != [] {
      WithCategoryUniform(items[1..], c);
      assert forall i :: 1 <= i < |items| ==> items[1..][i - 1] == items[i];
      assert items == [items[0]] + items[1..];
    }
  }

  /** A block of one category counts in full under it and not at all under another. */
  lemma BlockCount(items: seq<FaqItem>, cat: Category, c: Category)
    requires forall i :: 0 <= i < |items| ==> items[i].category == cat
    ensures |WithCategory(items, c)| == if c == cat then |items| else 0
  {
    WithCategoryUniform(items, c);
  }

  /** The count under one category of five single-category blocks, concatenated. */
  lemma {:induction false} CountBlocks(g: seq<FaqItem>, sv: seq<FaqItem>, pr: seq<FaqItem>, ps: seq<FaqItem>,
                                       t: seq<FaqItem>, c: Category)
    requires forall i :: 0 <= i < |g| ==> g[i].category == General
    requires forall i :: 0 <= i < |sv| ==> sv[i].category == Services
    requires forall i :: 0 <= i < |pr| ==> pr[i].category == Pricing
    requires forall i :: 0 <= i < |ps| ==> ps[i].category == Process
    requires forall i :: 0 <= i < |t| ==> t[i].category == Technical
    ensures |WithCategory(g + (sv + (pr + (ps + t))), c)| ==
              (if c == General then |g| else 0) + (if c == Services then |sv| else 0) +
              (if c == Pricing then |pr| else 0) + (if c == Process then |ps| else 0) +
              (if c == Technical then |t| else 0)
  {
    WithCategoryAppend(g, sv + (pr + (ps + t)), c);
    WithCategoryAppend(sv, pr + (ps + t), c);
    WithCategoryAppend(pr, ps + t, c);
    WithCategoryAppend(ps, t, c);
    BlockCount(g, General, c);
    BlockCount(sv, Services, c);
    BlockCount(pr, Pricing, c);
    BlockCount(ps, Process, c);
    BlockCount(t, Technical, c);
  }

  /** The five categories split the list: 3, 4, 4, 4 and 5 questions, 20 in all. */
  lemma CategorySize(c: Category)
    requires c != All
    ensures |FaqTable| == 20
    ensures |WithCategory(FaqTable, c)| == match c case General => 3 case Technical => 5 case _ => 4
  {
    CountBlocks(GeneralFaqs, ServicesFaqs, PricingFaqs, ProcessFaqs, TechnicalFaqs, c);
  }

  /** The open set after `toggleFAQ(id)`: `id` added when closed, removed when open. */
  function Toggle(open: set<string>, id: string): (r: set<string>)
    ensures id in r <==> id !in open
    ensures forall x :: x != id ==> (x in r <==> x in open)
  {
    if id in open then open - {id} else open + {id}
  }

  /** Toggling the same question twice restores the open set. */
  lemma ToggleTwice(open: set<string>, id: string)
    ensures Toggle(Toggle(open, id), id) == open
  {
  }

  /** Toggling two different questions commutes. */
  lemma ToggleCommutes(open: set<string>, a: string, b: string)
    ensures Toggle(Toggle(open, a), b) == Toggle(Toggle(open, b), a)
  {
  }

  class FaqPage {
    var activeCategory: Category
    var openFaqs: set<string>
    var filteredFaqs: seq<FaqItem>
    const faqs: seq<FaqItem>

    /** The initial state: every category, nothing open, and an empty list until `ngOnInit`. */
    constructor()
      ensures activeCategory == All && openFaqs == {} && filteredFaqs == [] && faqs == FaqTable
    {
      activeCategory := All;
      openFaqs := {};
      filteredFaqs := [];
      faqs := FaqTable;
    }

    /** `ngOnInit`: the list is filled for the active category. */
    method OnInit()
      modifies this
      ensures filteredFaqs == Filtered(faqs, activeCategory)
      ensures activeCategory == old(activeCategory) && openFaqs == old(openFaqs)
    {
      UpdateFilteredFaqs();
    }

    /** `updateFilteredFAQs`. */
    method UpdateFilteredFaqs()
      modifies this
      ensures filteredFaqs == Filtered(faqs, activeCategory)
      ensures activeCategory == old(activeCategory) && openFaqs == old(openFaqs)
    {
      if activeCategory == All {
        filteredFaqs := faqs;
      } else {
        filteredFaqs := WithCategory(faqs, activeCategory);
      }
    }

    /** `setActiveCategory(category)`: the list is recomputed and every answer closed. */
    method SetActiveCategory(category: Category)
      modifies this
      ensures activeCategory == category
      ensures filteredFaqs == Filtered(faqs, category)
      ensures openFaqs == {}
    {
      activeCategory := category;
      UpdateFilteredFaqs();
      openFaqs := {};
    }

    /** `toggleFAQ(id)`: only `id`'s membership of the open set changes. */
    method ToggleFaq(id: string)
      modifies this
      ensures openFaqs == Toggle(old(openFaqs), id)
      ensures activeCategory == old(activeCategory) && filteredFaqs == old(filteredFaqs)
    {
      var newOpen := openFaqs;
      if id in newOpen {
        newOpen := newOpen - {id};
      } else {
        newOpen := newOpen + {id};
      }
      openFaqs := newOpen;
    }
  }
}
