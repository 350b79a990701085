/** The public detail screen of an ad: it fetches the product, shows it on
    the full-page card and links to the seller's WhatsApp. */
module AdDetailsScreen {
  import opened Common
  import opened Domain
  import opened ProductMapping
  import opened LargeAdvertiseView
  import UserAdsScreen

  /** The loading flag and the product; before a successful fetch the
      product is the empty object `{}`, modelled as absent. */
  datatype AdDetailsState = AdDetailsState(loading: bool, product: Option<ProductDTO>)

  function InitialAdDetails(): (r: AdDetailsState)
    ensures r.loading && r.product.None?
  {
    AdDetailsState(true, None)
  }

  /** `fetchProduct`: a reply replaces the product; a rejection shows a
      toast and keeps it. Either way the loading flag ends false. */
  function FetchProduct(s: AdDetailsState, reply: Reply<ProductDTO>): (r: AdDetailsState)
    ensures !r.loading
    ensures reply.Ok? ==> r.product == Some(reply.data)
    ensures reply.Rejected? ==> r.product == s.product
  {
    match reply
    case Ok(p) => AdDetailsState(false, Some(p))
    case Rejected => AdDetailsState(false, s.product)
  }

  /** The card's properties for a fetched product: someone else's ad, with
      the product's seller as announcer. */
  function DetailsProps(baseUrl: string, p: ProductDTO): (r: AdProps)
    ensures !r.isDisabled && !r.isUserAd && r.announcer == Some(p.user)
    ensures r.ad.condition == New <==> p.isNew
    ensures r.ad.price * 100.0 == p.price
    ensures r.ad.paymentMethods == PaymentKeys(p.paymentMethods)
    ensures r.ad.productImgs == ImagePhotos(baseUrl, p.productImages)
    ensures r.ad.title == p.name && r.ad.description == p.description && r.ad.acceptTrade == p.acceptTrade
  {
    AdProps(false, false, Some(p.user), ProductAd(baseUrl, p))
  }

  /** A visitor and the owner see the same ad: the photos, MIME types,
      price, condition and payment keys of this screen are those the owner's
      list hands to the owner's detail screen. */
  lemma SameAdAsOwnerScreen(baseUrl: string, p: ProductDTO)
    ensures DetailsProps(baseUrl, p).ad == UserAdsScreen.DetailsParams(baseUrl, p).ad
  {
  }

  /** The card shows the product's seller, never the signed-in user. */
  lemma ShowsTheSeller(baseUrl: string, p: ProductDTO, user: AuthContext.User)
    ensures LargeAdvertiseView.Render(DetailsProps(baseUrl, p), user, baseUrl).seller ==
      Seller(RemoteAvatar(baseUrl + "/images/" + p.user.avatar), p.user.name)
  {
  }

  /** `handleCall`: the WhatsApp link for the seller's telephone. */
  function ContactUrl(p: ProductDTO): (r: string)
    ensures |r| == 14 + |p.user.tel|
    ensures r[..14] == "https://wa.me/" && r[14..] == p.user.tel
  {
    "https://wa.me/" + p.user.tel
  }

  /** What the screen draws. `RenderError` stands for the `TypeError` thrown
      by reading `product_images` of the empty object. */
  datatype Screen = LoadingScreen | Card(props: AdProps) | Unavailable | RenderError

  /** The screen as written: once loading ends it maps the product's images
      whether or not a product was fetched. */
  function ScreenAsWritten(s: AdDetailsState, baseUrl: string): (r: Screen)
    ensures s.loading ==> r == LoadingScreen
    ensures !s.loading && s.product.Some? ==> r == Card(DetailsProps(baseUrl, s.product.value))
    ensures !s.loading && s.product.None? ==> r == RenderError
  {
    if s.loading then LoadingScreen
    else if s.product.None? then RenderError
    else Card(DetailsProps(baseUrl, s.product.value))
  }

  /** As written, a first fetch that fails takes the screen to the error:
      loading ends with no product to draw. */
  lemma FailedFirstFetchThrows(baseUrl: string)
    ensures ScreenAsWritten(FetchProduct(InitialAdDetails(), Rejected), baseUrl) == RenderError
  {
  }

  /** The screen with the missing product guarded: nothing is drawn from
      a product that was never fetched. */
  function ScreenOf(s: AdDetailsState, baseUrl: string): (r: Screen)
    ensures !r.RenderError?
    ensures s.loading ==> r == LoadingScreen
    ensures !s.loading && s.product.Some? ==> r == Card(DetailsProps(baseUrl, s.product.value))
    ensures !s.loading && s.product.None? ==> r == Unavailable
  {
    if s.loading then LoadingScreen
    else if s.product.None? then Unavailable
    else Card(DetailsProps(baseUrl, s.product.value))
  }

  /** The guard changes nothing on the paths that worked. */
  lemma ScreenAgreesWhenProductFetched(s: AdDetailsState, baseUrl: string)
    requires s.loading || s.product.Some?
    ensures ScreenOf(s, baseUrl) == ScreenAsWritten(s, baseUrl)
  {
  }
}
