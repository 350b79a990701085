/** The home-screen panel that counts the user's active ads. */
module AdvertisementPanel {
  import opened Common
  import opened Domain
  import opened UserAdsScreen

  /** The number of products with `is_active` true, counted from the end of
      the list: a definition independent of the filter the panel uses. */
  function CountActive(products: seq<ProductDTO>): nat {
    if |products| == 0 then 0
    else CountActive(products[..|products| - 1]) + (if products[|products| - 1].isActive then 1 else 0)
  }

  /** `userProductsActives.length`. */
  function ActiveCount(products: seq<ProductDTO>): (r: nat)
    ensures r <= |products|
    ensures r + |Where(products, false)| == |products|
    ensures r == 0 <==> forall k :: 0 <= k < |products| ==> !products[k].isActive
  {
    WherePartition(products);
    WhereMembers(products, true);
    var active := Where(products, true);
    assert (exists k :: 0 <= k < |products| && products[k].isActive) ==> |active| > 0 by {
      if k :| 0 <= k < |products| && products[k].isActive {
        assert products[k] in active;
      }
    }
    assert |active| > 0 ==> active[0] in products && active[0].isActive;
    |active|
  }

  /** The panel's count agrees with counting the active products one by
      one. */
  lemma {:induction false} ActiveCountMatches(products: seq<ProductDTO>)
    ensures ActiveCount(products) == CountActive(products)
    decreases |products|
  {
    if |products| > 0 {
      var init := products[..|products| - 1];
      var last := products[|products| - 1];
      assert products == init + [last];
      WhereConcat(init, [last], true);
      assert [last][1..] == [];
      ActiveCountMatches(init);
    }
  }

  /** The panel's wording: "anúncios ativos" for more than one ad, "anúncio
      ativo" otherwise, zero included. */
  function PanelWording(n: nat): (r: Wording)
    ensures r == Plural <==> n > 1
  {
    if n > 1 then Plural else Singular
  }

  /** The panel and the list screen word a count the same way except for
      zero, which the panel words in the singular and the list in the
      plural. */
  lemma WordingsDifferOnlyAtZero(n: nat)
    ensures PanelWording(n) != CountWording(n) <==> n == 0
  {
  }

  /** `fetchUserProduct`: a reply replaces the list, in the server's order;
      a rejection is logged and leaves the list as it was. */
  function FetchPanel(products: seq<ProductDTO>, reply: Reply<seq<ProductDTO>>): (r: seq<ProductDTO>)
    ensures reply.Ok? ==> r == reply.data
    ensures reply.Rejected? ==> r == products
  {
    match reply
    case Ok(data) => data
    case Rejected => products
  }

  /** On the same server list, the panel counts as many active ads as the
      list screen shows under its ACTIVE selector once the fetch keeps the
      selector. */
  lemma PanelAgreesWithList(s: UserAdsState, data: seq<ProductDTO>)
    requires s.kind == ActiveAds
    ensures |Fetch(s, Ok(data)).filteredAds| == ActiveCount(FetchPanel([], Ok(data)))
  {
    FetchListsActiveNewestFirst(s, data);
  }

  /** With the fetch as written, the two screens disagree: an inactive ad
      is listed under ACTIVE but not counted by the panel. */
  lemma PanelDisagreesWithListAsWritten(p: ProductDTO)
    requires !p.isActive
    ensures |FetchAsWritten(InitialUserAds(), Ok([p])).filteredAds| == 1
    ensures ActiveCount(FetchPanel([], Ok([p]))) == 0
  {
    FetchIgnoresFilter(p);
  }
}
