/** Properties that span several screens: an ad created on the form and
    published from the preview, and an existing ad opened from the owner's
    list, edited and published again. */
module AdFlows {
  import opened Common
  import opened Domain
  import opened ProductMapping
  import opened CreateAdFormScreen
  import opened PreviewAdScreen
  import opened UserAdsScreen
  import opened UserAdDetailsScreen

  /** An ad advanced from the form is published as a new ad, with the
      form's values in the body and every photo uploaded under the id the
      server hands back. */
  lemma NewAdIsPublished(f: ProductForm, photos: seq<Photo>, createdId: string)
    requires Advance(f, photos).ToPreview?
    requires Truthy(createdId)
    ensures
      var p := PreviewParams(Advance(f, photos).params, None, None);
      && ChooseAction(p) == Publish
      && PublishPlan(p.ad, createdId) == [
           CreateProduct(ProductBody(f.title, f.description, f.condition == "new", f.price.value * 100.0,
                                     f.acceptTrade == Some(true), f.paymentMethods)),
           UploadImages(photos, createdId)]
  {
  }

  /** Opening an ad from the owner's list and publishing it again without
      changes updates the product with the values the server holds (price
      back in cents) and sends nothing else: every stored photo is old and
      no image was marked for removal. */
  lemma UnchangedEditRoundTrip(baseUrl: string, item: ProductDTO)
    ensures
      var p := Edit(DetailsParams(baseUrl, item));
      && ChooseAction(p) == PublishChanges
      && ChangesPlan(p) == [UpdateProduct("/products/" + item.id,
           ProductBody(item.name, item.description, item.isNew, item.price, item.acceptTrade,
                       PaymentKeys(item.paymentMethods)))]
  {
    var p := Edit(DetailsParams(baseUrl, item));
    NewImagesAllOrNone(p.ad.productImgs, false);
    OnlyUpdateToSend(p);
    BodyRoundTrip(baseUrl, item);
  }

  /** The body sent for a product's own ad parameters is the product's
      record, price included. */
  lemma BodyRoundTrip(baseUrl: string, item: ProductDTO)
    ensures BodyOf(ProductAd(baseUrl, item)) ==
      ProductBody(item.name, item.description, item.isNew, item.price, item.acceptTrade, PaymentKeys(item.paymentMethods))
  {
  }

  /** Photos added while editing are the only ones uploaded, after the
      update, under the product's id. */
  lemma EditedAdUploadsAddedPhotos(baseUrl: string, item: ProductDTO, assets: seq<PickedAsset>)
    requires |AcceptedPhotos(assets)| > 0
    ensures
      var p0 := Edit(DetailsParams(baseUrl, item));
      var p := p0.(ad := p0.ad.(productImgs := AddPhotos(p0.ad.productImgs, AdPicked(assets))));
      ChangesPlan(p) == [UpdateProduct("/products/" + item.id, BodyOf(p.ad)),
                         UploadImages(AcceptedPhotos(assets), item.id)]
  {
    var p0 := Edit(DetailsParams(baseUrl, item));
    var p := p0.(ad := p0.ad.(productImgs := AddPhotos(p0.ad.productImgs, AdPicked(assets))));
    assert p.ad.productImgs == p0.ad.productImgs + AcceptedPhotos(assets);
    UploadsOnlyAddedPhotos(p0.ad.productImgs, AcceptedPhotos(assets));
    UpdateThenUpload(p);
  }
}
