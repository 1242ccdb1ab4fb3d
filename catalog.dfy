/** The server's pearl catalogue: the stock query and the lookup by id. */
module Catalog {
  import opened Wrappers
  import opened Seqs
  import opened Text

  /** A catalogue entry; the price is in cents. */
  datatype Pearl = Pearl(
    id: string,
    name: string,
    price: int,
    category: string,
    image: string,
    description: string,
    size: string,
    origin: string,
    inStock: bool,
    createdAt: int)

  /** The number of documents the stock query hands back at most. */
  const MaxResults := 100

  /** The first pearl of the collection with the given id, as a lookup by id finds it. */
  function FindPearl(pearls: seq<Pearl>, id: string): (r: Option<Pearl>)
    ensures r.Some? ==> r.value in pearls && r.value.id == id
    ensures r.None? <==> forall p :: p in pearls ==> p.id != id
  {
    if pearls == [] then None
    else if pearls[0].id == id then Some(pearls[0])
    else FindPearl(pearls[1..], id)
  }

  /** GET /pearls/{id}: the pearl, or 404 when no pearl has that id. */
  function GetPearl(pearls: seq<Pearl>, id: string): (r: Result<Pearl>)
    ensures r.Ok? ==> r.value in pearls && r.value.id == id
    ensures r.Err? <==> forall p :: p in pearls ==> p.id != id
    ensures r.Err? ==> r.error == PearlNotFound
  {
    match FindPearl(pearls, id)
    case Some(p) => Ok(p)
    case None => Err(PearlNotFound)
  }

  /** An absent or empty category, or "all", does not restrict the query. */
  predicate AnyCategory(category: Option<string>)
  {
    category.None? || category.value == "" || category.value == "all"
  }

  /** An absent or empty search term does not restrict the query. */
  predicate AnySearch(search: Option<string>)
  {
    search.None? || search.value == ""
  }

  /** The condition the stock query puts on each document. */
  predicate InQuery(p: Pearl, category: Option<string>, search: Option<string>)
  {
    && p.inStock
    && (AnyCategory(category) || p.category == category.value)
    && (AnySearch(search)
        || ContainsIgnoringCase(p.name, search.value)
        || ContainsIgnoringCase(p.description, search.value))
  }

  /** Every pearl the query selects, in collection order, before the result cap. */
  function Matching(pearls: seq<Pearl>, category: Option<string>, search: Option<string>): (r: seq<Pearl>)
    ensures |r| <= |pearls|
  {
    Filter(pearls, p => InQuery(p, category, search))
  }

  /** GET /pearls: the first `MaxResults` in-stock pearls that meet the category and the search. */
  function GetPearls(pearls: seq<Pearl>, category: Option<string>, search: Option<string>): (r: seq<Pearl>)
    ensures |r| <= MaxResults
    ensures |r| == if |Matching(pearls, category, search)| <= MaxResults
                   then |Matching(pearls, category, search)| else MaxResults
  {
    var all := Matching(pearls, category, search);
    if |all| <= MaxResults then all else all[..MaxResults]
  }

  /** Every returned pearl is in stock, in the collection and meets both restrictions. */
  lemma GetPearlsSound(pearls: seq<Pearl>, category: Option<string>, search: Option<string>, p: Pearl)
    requires p in GetPearls(pearls, category, search)
    ensures p in pearls && p.inStock
    ensures !AnyCategory(category) ==> p.category == category.value
    ensures !AnySearch(search) ==>
              ContainsIgnoringCase(p.name, search.value) || ContainsIgnoringCase(p.description, search.value)
  {
    var all := Matching(pearls, category, search);
    assert p in all;
    FilterSound(pearls, q => InQuery(q, category, search), p);
  }

  /** Under the cap, nothing that matches is missing. */
  lemma GetPearlsComplete(pearls: seq<Pearl>, category: Option<string>, search: Option<string>, p: Pearl)
    requires p in pearls && InQuery(p, category, search)
    requires |Matching(pearls, category, search)| <= MaxResults
    ensures p in GetPearls(pearls, category, search)
  {
    FilterComplete(pearls, q => InQuery(q, category, search), p);
  }

  /** The result is the matching pearls in collection order, cut at the cap. */
  lemma GetPearlsOrdered(pearls: seq<Pearl>, category: Option<string>, search: Option<string>)
    ensures GetPearls(pearls, category, search) <= Matching(pearls, category, search)
    ensures IsSubseq(GetPearls(pearls, category, search), pearls)
    ensures |GetPearls(pearls, category, search)| <= |pearls|
  {
    var all := Matching(pearls, category, search);
    var r := GetPearls(pearls, category, search);
    FilterIsSubseq(pearls, q => InQuery(q, category, search));
    PrefixOfSubseq(r, all, pearls);
    SubseqNoLonger(r, pearls);
  }

  lemma {:induction false} PrefixOfSubseq(r: seq<Pearl>, a: seq<Pearl>, b: seq<Pearl>)
    requires r <= a && IsSubseq(a, b)
    ensures IsSubseq(r, b)
    decreases |b|
  {
    if r != [] {
      if a[0] == b[0] && IsSubseq(a[1..], b[1..]) {
        PrefixOfSubseq(r[1..], a[1..], b[1..]);
      } else {
        PrefixOfSubseq(r, a, b[1..]);
      }
    }
  }

  /** With no restriction the query selects exactly the in-stock pearls. */
  lemma UnrestrictedQueryIsStock(pearls: seq<Pearl>)
    ensures Matching(pearls, None, None) == Filter(pearls, (p: Pearl) => p.inStock)
  {
    FilterExtensional(pearls, q => InQuery(q, None, None), (p: Pearl) => p.inStock);
  }
}
