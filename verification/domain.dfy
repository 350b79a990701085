/** The shapes the screens exchange: the server's product record and the
    route parameters passed between the ad screens. */
module Domain {
  import opened Common

  /** One accepted payment method of a product, as the server sends it. */
  datatype PaymentMethodDTO = PaymentMethodDTO(id: string, key: string, name: string)

  /** One stored image of a product; `path` is relative to the image host. */
  datatype ProductImageDTO = ProductImageDTO(id: string, path: string)

  /** The seller summary embedded in a product. */
  datatype Announcer = Announcer(avatar: string, name: string, tel: string)

  /** A product listing as the server returns it; `price` is in cents. */
  datatype ProductDTO = ProductDTO(
    id: string,
    name: string,
    description: string,
    isNew: bool,
    price: real,
    acceptTrade: bool,
    paymentMethods: seq<PaymentMethodDTO>,
    productImages: seq<ProductImageDTO>,
    isActive: bool,
    user: Announcer)

  /** A photo held by the client: picked from the device (`isNew`) or
      already stored on the server. */
  datatype Photo = Photo(name: string, uri: string, mediaType: string, isNew: bool)

  /** One image handed back by the image picker, with the outcome of the
      file-info call on it: `infoRead` is false when that call rejects, and
      `size` is the size it reports (absent when unknown). */
  datatype PickedAsset = PickedAsset(uri: string, mediaType: string, infoRead: bool, size: Option<int>)

  datatype Condition = New | Used

  /** The parameters shared by every ad route; `price` is in reais. */
  datatype AdParams = AdParams(
    productImgs: seq<Photo>,
    title: string,
    description: string,
    condition: Condition,
    acceptTrade: bool,
    price: real,
    paymentMethods: seq<string>)

  /** The parameters of the owner's detail screen. */
  datatype UserAdDetailsParams = UserAdDetailsParams(ad: AdParams, productId: string, isActive: bool)

  /** The parameters of the preview screen: `productId` is present when an
      existing ad is being edited. */
  datatype PreviewParams = PreviewParams(
    ad: AdParams,
    productId: Option<string>,
    imagesToBeRemoved: Option<seq<string>>)
}
