/**
  The products screen of the app: a fixed list of pearls narrowed by the selected
  category chip and the text typed in the search bar.
 */
module ProductsScreen {
  import opened Seqs
  import opened Text

  /** A pearl as the screen lists it; the price is in whole currency units. */
  datatype Pearl = Pearl(
    id: string,
    name: string,
    price: int,
    category: string,
    image: string,
    description: string,
    size: string,
    origin: string)

  /** The chip that stands for every category. */
  const AllCategories := "all"

  predicate MatchesCategory(p: Pearl, selected: string)
  {
    selected == AllCategories || p.category == selected
  }

  predicate MatchesSearch(p: Pearl, query: string)
  {
    ContainsIgnoringCase(p.name, query) || ContainsIgnoringCase(p.description, query)
  }

  /** The pearls the screen shows, in list order. */
  function FilteredPearls(pearls: seq<Pearl>, selected: string, query: string): (r: seq<Pearl>)
    ensures |r| <= |pearls|
  {
    Filter(pearls, p => MatchesCategory(p, selected) && MatchesSearch(p, query))
  }

  /** Every pearl shown is in the list and meets the category and the search. */
  lemma FilteredSound(pearls: seq<Pearl>, selected: string, query: string, p: Pearl)
    requires p in FilteredPearls(pearls, selected, query)
    ensures p in pearls
    ensures selected == AllCategories || p.category == selected
    ensures Contains(Lower(p.name), Lower(query)) || Contains(Lower(p.description), Lower(query))
  {
    FilterSound(pearls, q => MatchesCategory(q, selected) && MatchesSearch(q, query), p);
  }

  /** Every pearl of the list that meets the category and the search is shown. */
  lemma FilteredComplete(pearls: seq<Pearl>, selected: string, query: string, p: Pearl)
    requires p in pearls && MatchesCategory(p, selected) && MatchesSearch(p, query)
    ensures p in FilteredPearls(pearls, selected, query)
  {
    FilterComplete(pearls, q => MatchesCategory(q, selected) && MatchesSearch(q, query), p);
  }

  /** The pearls shown keep the list's order, so there are never more of them than in the list. */
  lemma FilteredOrdered(pearls: seq<Pearl>, selected: string, query: string)
    ensures IsSubseq(FilteredPearls(pearls, selected, query), pearls)
    ensures |FilteredPearls(pearls, selected, query)| <= |pearls|
  {
    FilterIsSubseq(pearls, q => MatchesCategory(q, selected) && MatchesSearch(q, query));
    SubseqNoLonger(FilteredPearls(pearls, selected, query), pearls);
  }

  /** With the "all" chip and an empty search bar (as the clear button leaves it) the whole list shows. */
  lemma ClearedFilterShowsAll(pearls: seq<Pearl>)
    ensures FilteredPearls(pearls, AllCategories, "") == pearls
  {
    forall p | p in pearls ensures MatchesCategory(p, AllCategories) && MatchesSearch(p, "") {
      EmptyQueryMatches(p.name);
    }
    FilterKeepsAll(pearls, q => MatchesCategory(q, AllCategories) && MatchesSearch(q, ""));
  }

  /** Narrowing by category and then by search, or the other way round, shows what the screen shows. */
  lemma FiltersCommute(pearls: seq<Pearl>, selected: string, query: string)
    ensures Filter(Filter(pearls, p => MatchesCategory(p, selected)), p => MatchesSearch(p, query))
            == FilteredPearls(pearls, selected, query)
    ensures Filter(Filter(pearls, p => MatchesSearch(p, query)), p => MatchesCategory(p, selected))
            == FilteredPearls(pearls, selected, query)
  {
    var both := p => MatchesCategory(p, selected) && MatchesSearch(p, query);
    FilterConjunction(pearls, p => MatchesCategory(p, selected), p => MatchesSearch(p, query), both);
    FilterConjunction(pearls, p => MatchesSearch(p, query), p => MatchesCategory(p, selected), both);
  }

  /** Typing the query in upper or lower case shows the same pearls. */
  lemma SearchIgnoresQueryCase(pearls: seq<Pearl>, selected: string, query: string)
    ensures FilteredPearls(pearls, selected, Lower(query)) == FilteredPearls(pearls, selected, query)
  {
    LowerIdempotent(query);
    FilterExtensional(pearls,
      p => MatchesCategory(p, selected) && MatchesSearch(p, Lower(query)),
      p => MatchesCategory(p, selected) && MatchesSearch(p, query));
  }

  /** A category no pearl of the list has shows nothing (the "0 products found" state). */
  lemma UnknownCategoryShowsNothing(pearls: seq<Pearl>, selected: string, query: string)
    requires selected != AllCategories
    requires forall p :: p in pearls ==> p.category != selected
    ensures FilteredPearls(pearls, selected, query) == []
  {
    FilterKeepsNone(pearls, p => MatchesCategory(p, selected) && MatchesSearch(p, query));
  }

  /** The six pearls the screen lists. */
  const Catalogue: seq<Pearl> := [
    Pearl("1", "Classic Akoya Pearl Necklace", 299, "akoya",
          "https://via.placeholder.com/200x200/FFE4E6/8B5A3C?text=Akoya",
          "Elegant 18-inch strand of lustrous Akoya pearls", "7-7.5mm", "Japan"),
    Pearl("2", "Tahitian Black Pearl Earrings", 599, "tahitian",
          "https://via.placeholder.com/200x200/2F2F2F/FFFFFF?text=Black",
          "Sophisticated black Tahitian pearl stud earrings", "9-10mm", "French Polynesia"),
    Pearl("3", "South Sea Golden Pearl Ring", 899, "south-sea",
          "https://via.placeholder.com/200x200/FFD700/000000?text=Gold",
          "Luxurious golden South Sea pearl cocktail ring", "11-12mm", "Australia"),
    Pearl("4", "Freshwater Pearl Bracelet", 149, "freshwater",
          "https://via.placeholder.com/200x200/87CEEB/000000?text=Fresh",
          "Delicate freshwater pearl tennis bracelet", "6-7mm", "China"),
    Pearl("5", "Akoya Pearl Pendant", 399, "akoya",
          "https://via.placeholder.com/200x200/FFE4E6/8B5A3C?text=Pendant",
          "Single Akoya pearl pendant with gold chain", "8-8.5mm", "Japan"),
    Pearl("6", "Tahitian Pearl Strand", 1299, "tahitian",
          "https://via.placeholder.com/200x200/2F2F2F/FFFFFF?text=Strand",
          "Premium Tahitian black pearl necklace", "10-11mm", "French Polynesia")
  ]

  /** The "akoya" chip with an empty search shows the necklace and the pendant, in that order. */
  lemma AkoyaChipShowsTwo()
    ensures FilteredPearls(Catalogue, "akoya", "") == [Catalogue[0], Catalogue[4]]
  {
    var c := Catalogue;
    var keep := p => MatchesCategory(p, "akoya") && MatchesSearch(p, "");
    forall i | 0 <= i < |c| ensures MatchesSearch(c[i], "") {
      EmptyQueryMatches(c[i].name);
    }
    assert keep(c[0]) && !keep(c[1]) && !keep(c[2]) && !keep(c[3]) && keep(c[4]) && !keep(c[5]);
    assert Filter(c[5..], keep) == [] by {
      assert c[5..][1..] == [];
    }
    assert Filter(c[4..], keep) == [c[4]] by {
      assert c[4..][1..] == c[5..];
    }
    assert Filter(c[3..], keep) == [c[4]] by {
      assert c[3..][1..] == c[4..];
    }
    assert Filter(c[2..], keep) == [c[4]] by {
      assert c[2..][1..] == c[3..];
    }
    assert Filter(c[1..], keep) == [c[4]] by {
      assert c[1..][1..] == c[2..];
    }
    assert Filter(c, keep) == [c[0]] + Filter(c[1..], keep);
  }
}
