/** The owner's list of ads: the active / disabled / all filter, the fetch
    that fills the list, the count label and the hand-over to the owner's
    detail screen. */
module UserAdsScreen {
  import opened Common
  import opened Domain
  import opened ProductMapping

  // ---------------------------------------------------------------------
  // Filtering

  /** The products whose `is_active` equals `active`, in the list's order. */
  function Where(products: seq<ProductDTO>, active: bool): (r: seq<ProductDTO>)
    ensures |r| <= |products|
    ensures forall k :: 0 <= k < |r| ==> r[k].isActive == active
    ensures forall p :: p in r ==> p in products
  {
    if |products| == 0 then []
    else
      var rest := Where(products[1..], active);
      if products[0].isActive == active then [products[0]] + rest else rest
  }

  /** The filter keeps exactly the matching products. */
  lemma {:induction false} WhereMembers(products: seq<ProductDTO>, active: bool)
    ensures forall p :: p in Where(products, active) <==> p in products && p.isActive == active
    decreases |products|
  {
    if |products| > 0 {
      WhereMembers(products[1..], active);
      assert forall p :: p in products <==> p == products[0] || p in products[1..];
    }
  }

  /** Filtering keeps the order of the list: it distributes over
      concatenation. */
  lemma {:induction false} WhereConcat(a: seq<ProductDTO>, b: seq<ProductDTO>, active: bool)
    ensures Where(a + b, active) == Where(a, active) + Where(b, active)
    decreases |a|
  {
    if |a| == 0 {
      assert a + b == b;
    } else {
      var x, rest := a[0], a[1..];
      assert a == [x] + rest;
      assert a + b == [x] + (rest + b);
      WhereConcat(rest, b, active);
      WhereCons(x, rest, active);
      WhereCons(x, rest + b, active);
    }
  }

  /** One step of the filter: the head is kept iff it matches. */
  lemma WhereCons(x: ProductDTO, s: seq<ProductDTO>, active: bool)
    ensures Where([x] + s, active) == if x.isActive == active then [x] + Where(s, active) else Where(s, active)
  {
    assert ([x] + s)[1..] == s;
  }

  /** The active and the disabled products split the list: every product is
      in exactly one of the two, as often as in the list. */
  lemma {:induction false} WherePartition(products: seq<ProductDTO>)
    ensures multiset(Where(products, true)) + multiset(Where(products, false)) == multiset(products)
    ensures |Where(products, true)| + |Where(products, false)| == |products|
    decreases |products|
  {
    if |products| > 0 {
      WherePartition(products[1..]);
      assert products == [products[0]] + products[1..];
    }
  }

  /** The selector of the list. */
  datatype ProductKind = AllAds | ActiveAds | DisabledAds

  /** Whether a product belongs under a selector value. */
  predicate Listed(kind: ProductKind, p: ProductDTO) {
    match kind
    case AllAds => true
    case ActiveAds => p.isActive
    case DisabledAds => !p.isActive
  }

  /** `handleFilteredAds`. */
  function FilterAds(products: seq<ProductDTO>, kind: ProductKind): (r: seq<ProductDTO>)
    ensures forall p :: p in r <==> p in products && Listed(kind, p)
    ensures kind == AllAds ==> r == products
    ensures kind == ActiveAds ==> r == Where(products, true)
    ensures kind == DisabledAds ==> r == Where(products, false)
  {
    WhereMembers(products, true);
    WhereMembers(products, false);
    match kind
    case ActiveAds => Where(products, true)
    case DisabledAds => Where(products, false)
    case AllAds => products
  }

  // ---------------------------------------------------------------------
  // Reversal

  function Reverse<T>(s: seq<T>): (r: seq<T>)
    ensures |r| == |s|
    ensures forall k :: 0 <= k < |s| ==> r[k] == s[|s| - 1 - k]
  {
    if |s| == 0 then [] else Reverse(s[1..]) + [s[0]]
  }

  /** Reversing twice gives back the list. */
  lemma ReverseInvolution<T>(s: seq<T>)
    ensures Reverse(Reverse(s)) == s
  {
    assert forall k :: 0 <= k < |s| ==> Reverse(Reverse(s))[k] == s[k];
  }

  /** Filtering and reversing commute: the newest-first list of active ads
      is the reverse of the server's list of active ads. */
  lemma {:induction false} WhereReverse(products: seq<ProductDTO>, active: bool)
    ensures Where(Reverse(products), active) == Reverse(Where(products, active))
    decreases |products|
  {
    if |products| > 0 {
      var head := products[0];
      var tail := products[1..];
      assert Reverse(products) == Reverse(tail) + [head];
      WhereConcat(Reverse(tail), [head], active);
      WhereReverse(tail, active);
      assert [head][1..] == [];
      if head.isActive == active {
        assert Where(products, active) == [head] + Where(tail, active);
        assert Reverse([head] + Where(tail, active)) == Reverse(Where(tail, active)) + [head];
      }
    }
  }

  // ---------------------------------------------------------------------
  // The screen

  /** The screen state: the selector, the fetched list, the list shown and
      the loading flag. */
  datatype UserAdsState = UserAdsState(
    kind: ProductKind,
    userProducts: seq<ProductDTO>,
    filteredAds: seq<ProductDTO>,
    loading: bool)

  /** The shown list is the fetched list under the selector. */
  predicate Consistent(s: UserAdsState) {
    s.filteredAds == FilterAds(s.userProducts, s.kind)
  }

  /** The state after mounting: the selector starts on ACTIVE and both lists
      are empty. */
  function InitialUserAds(): (r: UserAdsState)
    ensures r.kind == ActiveAds && r.userProducts == [] && r.filteredAds == []
    ensures Consistent(r) && !r.loading
  {
    UserAdsState(ActiveAds, [], [], false)
  }

  /** Picking a selector value: the effect on `productType` re-filters the
      fetched list, and only when the value changes. */
  function SelectKind(s: UserAdsState, kind: ProductKind): (r: UserAdsState)
    ensures r.kind == kind && r.userProducts == s.userProducts && r.loading == s.loading
    ensures kind != s.kind ==> r.filteredAds == FilterAds(s.userProducts, kind)
    ensures kind == s.kind ==> r == s
    ensures Consistent(s) ==> Consistent(r)
  {
    if kind == s.kind then s
    else s.(kind := kind, filteredAds := FilterAds(s.userProducts, kind))
  }

  /** `fetchProducts` as written: `response.data.reverse()` reverses the
      response array in place and returns that same array, so both lists
      end up holding the one array, reversed twice. */
  function FetchAsWritten(s: UserAdsState, reply: Reply<seq<ProductDTO>>): (r: UserAdsState)
    ensures !r.loading && r.kind == s.kind
    ensures reply.Rejected? ==> r == s.(loading := false)
    ensures reply.Ok? ==> r.userProducts == reply.data && r.filteredAds == reply.data
  {
    match reply
    case Rejected => s.(loading := false)
    case Ok(data) =>
      var afterFirst := Reverse(data);
      var afterSecond := Reverse(afterFirst);
      ReverseInvolution(data);
      s.(userProducts := afterSecond, filteredAds := afterSecond, loading := false)
  }

  /** As written, a fetch shows every product under the ACTIVE selector: a
      single disabled ad is listed although the selector reads "Ativos". */
  lemma FetchIgnoresFilter(p: ProductDTO)
    requires !p.isActive
    ensures FetchAsWritten(InitialUserAds(), Ok([p])).kind == ActiveAds
    ensures FetchAsWritten(InitialUserAds(), Ok([p])).filteredAds == [p]
    ensures FilterAds([p], ActiveAds) == []
    ensures !Consistent(FetchAsWritten(InitialUserAds(), Ok([p])))
  {
    assert [p][1..] == [];
  }

  /** As written, the two reversals cancel: a fetch of two distinct ads keeps
      the server's order. */
  lemma FetchAsWrittenKeepsServerOrder(a: ProductDTO, b: ProductDTO)
    requires a != b
    ensures FetchAsWritten(InitialUserAds(), Ok([a, b])).userProducts == [a, b]
    ensures FetchAsWritten(InitialUserAds(), Ok([a, b])).userProducts != Reverse([a, b])
  {
  }

  /** `fetchProducts` as evidently intended: the fetched list newest first,
      and the shown list filtered by the current selector. A rejected fetch
      only clears the loading flag. */
  function Fetch(s: UserAdsState, reply: Reply<seq<ProductDTO>>): (r: UserAdsState)
    ensures !r.loading && r.kind == s.kind
    ensures reply.Rejected? ==> r == s.(loading := false)
    ensures reply.Ok? ==> r.userProducts == Reverse(reply.data) && Consistent(r)
  {
    match reply
    case Rejected => s.(loading := false)
    case Ok(data) =>
      var newestFirst := Reverse(data);
      s.(userProducts := newestFirst, filteredAds := FilterAds(newestFirst, s.kind), loading := false)
  }

  /** Every sequence of fetches and selector changes from the initial state
      keeps the shown list equal to the fetched list under the selector. */
  lemma FetchKeepsConsistent(s: UserAdsState, reply: Reply<seq<ProductDTO>>, kind: ProductKind)
    requires Consistent(s)
    ensures Consistent(Fetch(s, reply))
    ensures Consistent(SelectKind(Fetch(s, reply), kind))
  {
  }

  /** Under ACTIVE, the corrected fetch lists the server's active ads
      newest first. */
  lemma FetchListsActiveNewestFirst(s: UserAdsState, data: seq<ProductDTO>)
    requires s.kind == ActiveAds
    ensures Fetch(s, Ok(data)).filteredAds == Reverse(Where(data, true))
  {
    WhereReverse(data, true);
  }

  /** The two wordings of a count. */
  datatype Wording = Singular | Plural

  /** The count label above the list: "anúncio" for exactly one ad,
      "anúncios" otherwise, zero included. */
  function CountWording(n: nat): (r: Wording)
    ensures r == Singular <==> n == 1
  {
    if n == 1 then Singular else Plural
  }

  /** `handleAdClick`: the parameters of the owner's detail screen for one
      listed product. `baseUrl` is the configured server address. */
  function DetailsParams(baseUrl: string, item: ProductDTO): (r: UserAdDetailsParams)
    ensures r.ad == ProductAd(baseUrl, item)
    ensures r.productId == item.id && r.isActive == item.isActive
    ensures |r.ad.productImgs| == |item.productImages|
    ensures forall k :: 0 <= k < |r.ad.productImgs| ==>
      && r.ad.productImgs[k].name == item.productImages[k].id
      && r.ad.productImgs[k].uri == baseUrl + "/images/" + item.productImages[k].path
      && r.ad.productImgs[k].mediaType == MimeType(item.productImages[k].path)
      && !r.ad.productImgs[k].isNew
  {
    UserAdDetailsParams(ProductAd(baseUrl, item), item.id, item.isActive)
  }
}
