/** The ad form: its schema, the photo list (append, remove, reset) and the
    hand-over to the preview screen. */
module CreateAdFormScreen {
  import opened Common
  import opened Domain

  // ---------------------------------------------------------------------
  // The schema

  /** The form values; `price` and `acceptTrade` may be `undefined`. */
  datatype ProductForm = ProductForm(
    title: string,
    description: string,
    condition: string,
    price: Option<real>,
    acceptTrade: Option<bool>,
    paymentMethods: seq<string>)

  datatype ProductField = TitleField | DescriptionField | ConditionField | PriceField | PaymentField

  const AllFields: set<ProductField> := {TitleField, DescriptionField, ConditionField, PriceField, PaymentField}

  /** One rule of `newProductSchema`; `accept_trade` has no rule that can
      fail. */
  predicate RulePasses(f: ProductForm, field: ProductField) {
    match field
    case TitleField => Truthy(f.title)
    case DescriptionField => Truthy(f.description)
    case ConditionField => Truthy(f.condition)
    case PriceField => f.price.Some?
    case PaymentField => |f.paymentMethods| >= 1
  }

  /** `newProductSchema`: the set of fields whose rule fails. */
  function ProductErrors(f: ProductForm): (r: set<ProductField>)
    ensures forall field :: field in r <==> !RulePasses(f, field)
    ensures r == {} <==>
      f.title != "" && f.description != "" && f.condition != "" && f.price.Some? && |f.paymentMethods| >= 1
  {
    var r := set field | field in AllFields && !RulePasses(f, field);
    assert r == {} <== f.title != "" && f.description != "" && f.condition != "" && f.price.Some? && |f.paymentMethods| >= 1;
    assert r == {} ==> TitleField !in r && DescriptionField !in r && ConditionField !in r && PriceField !in r && PaymentField !in r;
    r
  }

  /** `defaultValues`. */
  const DefaultForm: ProductForm := ProductForm("", "", "new", None, Some(false), [])

  /** The defaults fail exactly the rules for what the user has to type or
      pick: title, description, price and a payment method. */
  lemma DefaultFormErrors()
    ensures ProductErrors(DefaultForm) == {TitleField, DescriptionField, PriceField, PaymentField}
  {
    var r := ProductErrors(DefaultForm);
    assert ConditionField !in r;
    assert TitleField in r && DescriptionField in r && PriceField in r && PaymentField in r;
  }

  // ---------------------------------------------------------------------
  // The photo list

  /** Removes the photo at position `i`, keeping the others in order. */
  function RemoveAt(photos: seq<Photo>, i: nat): (r: seq<Photo>)
    ensures i < |photos| ==>
      && |r| == |photos| - 1
      && (forall j :: 0 <= j < i ==> r[j] == photos[j])
      && (forall j :: i <= j < |r| ==> r[j] == photos[j + 1])
      && multiset(r) + multiset{photos[i]} == multiset(photos)
    ensures i >= |photos| ==> r == photos
  {
    if i < |photos| then
      assert photos == photos[..i] + [photos[i]] + photos[i + 1..];
      photos[..i] + photos[i + 1..]
    else photos
  }

  /** Where `splice` starts for `index` on a list of `len` elements: a
      negative index counts from the end, clamped at the front. */
  function SpliceStart(len: nat, index: int): (r: nat)
    ensures 0 <= index ==> r == index
    ensures -(len as int) <= index < 0 ==> r as int == len as int + index
    ensures index < -(len as int) ==> r == 0
  {
    if index >= 0 then index
    else if len + index > 0 then len + index
    else 0
  }

  /** `handleRemovePhoto`: `splice(index, 1)` on a copy of the list. */
  function RemovePhoto(photos: seq<Photo>, index: int): (r: seq<Photo>)
    ensures r == RemoveAt(photos, SpliceStart(|photos|, index))
    ensures 0 <= index < |photos| ==> |r| == |photos| - 1 && r == photos[..index] + photos[index + 1..]
    ensures index >= |photos| ==> r == photos
  {
    RemoveAt(photos, SpliceStart(|photos|, index))
  }

  /** The photo built for a picked asset: named "a." plus its extension,
      lower-cased, and marked as new. */
  function AdPhotoFor(asset: PickedAsset): Photo {
    var ext := AfterLast(asset.uri, '.');
    Photo(ToLower("a." + ext), asset.uri, asset.mediaType + "/" + ext, true)
  }

  /** The picked assets that pass the guards, converted, in pick order.
      An asset whose file-info call rejects is dropped without a notice:
      the rejection escapes the per-asset callback, not the picker's
      `try`. */
  function AcceptedPhotos(assets: seq<PickedAsset>): (r: seq<Photo>)
    ensures |r| <= |assets|
    ensures forall k :: 0 <= k < |r| ==> r[k].isNew
  {
    if |assets| == 0 then []
    else
      var rest := AcceptedPhotos(assets[1..]);
      var a := assets[0];
      if Truthy(a.uri) && a.infoRead && !TooLarge(a.size) then
        assert forall k :: 1 <= k < |rest| + 1 ==> ([AdPhotoFor(a)] + rest)[k] == rest[k - 1];
        [AdPhotoFor(a)] + rest
      else rest
  }

  /** Assets are accepted one after another: picking `a` then `b` yields the
      photos of `a` followed by those of `b`. */
  lemma {:induction false} AcceptedPhotosConcat(a: seq<PickedAsset>, b: seq<PickedAsset>)
    ensures AcceptedPhotos(a + b) == AcceptedPhotos(a) + AcceptedPhotos(b)
    decreases |a|
  {
    if |a| == 0 {
      assert a + b == b;
    } else {
      assert (a + b)[1..] == a[1..] + b;
      AcceptedPhotosConcat(a[1..], b);
    }
  }

  /** One asset contributes its photo when it has a URI, its file
      information is read and it is not too large, and nothing otherwise. */
  lemma AcceptedPhotosSingle(a: PickedAsset)
    ensures AcceptedPhotos([a]) == if Truthy(a.uri) && a.infoRead && !TooLarge(a.size) then [AdPhotoFor(a)] else []
  {
    assert [a][1..] == [];
  }

  /** The outcome of the image picker for the ad form. */
  datatype AdPick = AdPickCanceled | AdPicked(assets: seq<PickedAsset>) | AdPickFailed

  /** `handleProductPhotoSelection`, with the per-asset work taken in pick
      order: accepted photos are appended after the existing ones. */
  function AddPhotos(photos: seq<Photo>, pick: AdPick): (r: seq<Photo>)
    ensures |photos| <= |r| && r[..|photos|] == photos
    ensures !pick.AdPicked? ==> r == photos
    ensures pick.AdPicked? ==> |r| <= |photos| + |pick.assets| && r[|photos|..] == AcceptedPhotos(pick.assets)
    ensures forall k :: |photos| <= k < |r| ==> r[k].isNew
  {
    match pick
    case AdPicked(assets) => photos + AcceptedPhotos(assets)
    case _ => photos
  }

  /** The toasts the ad-photo picker shows: one size toast per oversized
      asset, or one "could not select" toast when the picker itself fails. */
  datatype AdNotice = OversizeToast | SelectFailedToast

  /** An asset that gets the size toast: it has a URI, its file information
      is read, and it is over 5 MiB. */
  predicate Oversize(a: PickedAsset) {
    Truthy(a.uri) && a.infoRead && TooLarge(a.size)
  }

  /** The size toasts of the per-asset work, in pick order. */
  function AssetNotices(assets: seq<PickedAsset>): (r: seq<AdNotice>)
    ensures |r| <= |assets|
    ensures forall k :: 0 <= k < |r| ==> r[k] == OversizeToast
  {
    if |assets| == 0 then []
    else
      var rest := AssetNotices(assets[1..]);
      if Oversize(assets[0]) then [OversizeToast] + rest else rest
  }

  /** The number of assets dropped without any notice: those without a URI
      and those whose file-info call rejects. */
  function SilentDrops(assets: seq<PickedAsset>): nat {
    if |assets| == 0 then 0
    else SilentDrops(assets[1..]) + (if !Truthy(assets[0].uri) || !assets[0].infoRead then 1 else 0)
  }

  /** Every asset has exactly one outcome: it is added as a photo, it gets
      the size toast, or it is dropped silently. */
  lemma {:induction false} OneOutcomePerAsset(assets: seq<PickedAsset>)
    ensures |AcceptedPhotos(assets)| + |AssetNotices(assets)| + SilentDrops(assets) == |assets|
    decreases |assets|
  {
    if |assets| > 0 {
      OneOutcomePerAsset(assets[1..]);
    }
  }

  /** The toasts of `handleProductPhotoSelection`: none on a cancel, the
      size toasts of the picked assets, and the catch's toast alone when the
      picker fails. */
  function PhotoNotices(pick: AdPick): (r: seq<AdNotice>)
    ensures pick.AdPickCanceled? ==> r == []
    ensures SelectFailedToast in r <==> pick.AdPickFailed?
    ensures pick.AdPickFailed? ==> r == [SelectFailedToast]
    ensures pick.AdPicked? ==> |r| <= |pick.assets| && forall k :: 0 <= k < |r| ==> r[k] == OversizeToast
  {
    match pick
    case AdPickCanceled => []
    case AdPickFailed => [SelectFailedToast]
    case AdPicked(assets) => AssetNotices(assets)
  }

  /** One asset gets the size toast iff it is oversized, and then it adds no
      photo. */
  lemma AssetNoticesSingle(a: PickedAsset)
    ensures AssetNotices([a]) == if Oversize(a) then [OversizeToast] else []
    ensures Oversize(a) ==> AcceptedPhotos([a]) == []
  {
    assert [a][1..] == [];
  }

  /** The name of an added photo is "a." followed by the lower-cased
      extension of its URI. */
  lemma AdPhotoName(asset: PickedAsset)
    ensures AdPhotoFor(asset).name == "a." + ToLower(AfterLast(asset.uri, '.'))
  {
    var l := ToLower("a.");
    assert l[0] == 'a' && l[1] == '.';
    assert l == "a.";
    ToLowerConcat("a.", AfterLast(asset.uri, '.'));
  }

  /** Removing the photo just appended restores the list. */
  lemma RemoveUndoesAppend(photos: seq<Photo>, asset: PickedAsset)
    requires Truthy(asset.uri) && asset.infoRead && !TooLarge(asset.size)
    ensures RemovePhoto(AddPhotos(photos, AdPicked([asset])), |photos|) == photos
  {
    AcceptedPhotosSingle(asset);
    var added := photos + [AdPhotoFor(asset)];
    assert AddPhotos(photos, AdPicked([asset])) == added;
    assert added[..|photos|] == photos;
    assert added[|photos| + 1..] == [];
  }

  /** The add-photo tile is offered while fewer than three photos are held. */
  function ShowsAddTile(photos: seq<Photo>): (r: bool)
    ensures r <==> |photos| <= 2
  {
    |photos| < 3
  }

  /** The tile is the only limit: one pick of several images can take the
      list past three photos. */
  lemma PickCanExceedThree(p: Photo, a: PickedAsset)
    requires Truthy(a.uri) && a.infoRead && !TooLarge(a.size)
    ensures ShowsAddTile([p, p])
    ensures |AddPhotos([p, p], AdPicked([a, a]))| == 4
  {
    assert AcceptedPhotos([a, a]) == [AdPhotoFor(a), AdPhotoFor(a)] by {
      assert [a, a][1..] == [a];
    }
  }

  // ---------------------------------------------------------------------
  // Advancing and resetting

  datatype AdvanceResult = InvalidForm(errors: set<ProductField>) | PhotoRequired | ToPreview(params: AdParams)

  /** `handleSubmit(handleAdvance)`: the schema runs first; the preview is
      reached only with a valid form and at least one photo. */
  function Advance(f: ProductForm, photos: seq<Photo>): (r: AdvanceResult)
    ensures r.InvalidForm? <==> ProductErrors(f) != {}
    ensures r.ToPreview? <==> ProductErrors(f) == {} && |photos| > 0
    ensures r.ToPreview? ==>
      && r.params.productImgs == photos
      && r.params.title == f.title
      && r.params.description == f.description
      && (r.params.condition == New <==> f.condition == "new")
      && (r.params.acceptTrade <==> f.acceptTrade == Some(true))
      && Some(r.params.price) == f.price
      && r.params.paymentMethods == f.paymentMethods
      && |r.params.paymentMethods| >= 1
  {
    var errors := ProductErrors(f);
    if errors != {} then InvalidForm(errors)
    else if |photos| == 0 then PhotoRequired
    else
      var acceptTrade := if f.acceptTrade.Some? then f.acceptTrade.value else false;
      var condition := if f.condition == "new" then New else Used;
      ToPreview(AdParams(photos, f.title, f.description, condition, acceptTrade, f.price.value, f.paymentMethods))
  }

  /** The form's state: values and photos. */
  datatype AdFormState = AdFormState(form: ProductForm, photos: seq<Photo>)

  /** `resetForm`, run when the screen loses focus. */
  function ResetForm(s: AdFormState): (r: AdFormState)
    ensures r.form == DefaultForm && r.photos == []
    ensures Advance(r.form, r.photos).InvalidForm?
  {
    DefaultFormErrors();
    AdFormState(DefaultForm, [])
  }
}
