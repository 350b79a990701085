/** The preview screen: the requests that publishing a new ad or the changes
    to an existing ad send to the server, in order, and what the screen does
    once they settle. */
module PreviewAdScreen {
  import opened Common
  import opened Domain

  // ---------------------------------------------------------------------
  // Requests

  /** The JSON body of `POST /products/` and `PUT /products/<id>`; `price`
      is in cents. */
  datatype ProductBody = ProductBody(
    name: string,
    description: string,
    isNew: bool,
    price: real,
    acceptTrade: bool,
    paymentMethods: seq<string>)

  /** One request the screen sends. An upload carries the photos appended
      to the multipart form as `images`, in order, and the `product_id`. */
  datatype Request =
    | CreateProduct(body: ProductBody)
    | UpdateProduct(path: string, body: ProductBody)
    | DeleteImages(ids: seq<string>)
    | UploadImages(images: seq<Photo>, productId: string)

  /** The body built from the route parameters. */
  function BodyOf(ad: AdParams): (r: ProductBody)
    ensures r.isNew <==> ad.condition == New
    ensures r.price == ad.price * 100.0
    ensures r.name == ad.title && r.description == ad.description
    ensures r.acceptTrade == ad.acceptTrade && r.paymentMethods == ad.paymentMethods
  {
    ProductBody(ad.title, ad.description, ad.condition == New, ad.price * 100.0, ad.acceptTrade, ad.paymentMethods)
  }

  /** The body carries the ad's price: converting back from cents gives the
      price the form held. */
  lemma BodyPriceRoundTrip(ad: AdParams)
    ensures BodyOf(ad).price / 100.0 == ad.price
  {
  }

  /** How a template literal renders an optional id: `undefined` when it is
      absent. */
  function IdText(id: Option<string>): (r: string)
    ensures id.Some? ==> r == id.value
    ensures id.None? ==> r == "undefined"
  {
    match id
    case Some(v) => v
    case None => "undefined"
  }

  // ---------------------------------------------------------------------
  // Running a sequence of awaited requests

  /** The requests actually sent, and whether all of them succeeded. */
  datatype Attempt = Attempt(issued: seq<Request>, succeeded: bool)

  /** Awaits the requests of `plan` one after another; the server's answer
      to each is `accepts`. The first rejection throws, so nothing after it
      is sent. */
  function RunPlan(plan: seq<Request>, accepts: Request -> bool): (r: Attempt)
    ensures r.issued <= plan
    ensures r.succeeded <==> forall k :: 0 <= k < |plan| ==> accepts(plan[k])
    ensures r.succeeded ==> r.issued == plan
    ensures !r.succeeded ==>
      && |r.issued| >= 1
      && !accepts(r.issued[|r.issued| - 1])
      && forall k :: 0 <= k < |r.issued| - 1 ==> accepts(r.issued[k])
  {
    if |plan| == 0 then Attempt([], true)
    else if !accepts(plan[0]) then Attempt([plan[0]], false)
    else
      var rest := RunPlan(plan[1..], accepts);
      assert plan == [plan[0]] + plan[1..];
      Attempt([plan[0]] + rest.issued, rest.succeeded)
  }

  /** What awaiting `b` after an attempt leaves: nothing more is sent once
      the attempt failed. */
  function Then(first: Attempt, b: seq<Request>, accepts: Request -> bool): Attempt {
    if first.succeeded then
      var second := RunPlan(b, accepts);
      Attempt(first.issued + second.issued, second.succeeded)
    else first
  }

  /** Requests sent one after another: running `a + b` runs `a` and, only if
      all of it succeeded, then `b`. */
  lemma {:induction false} RunPlanConcat(a: seq<Request>, b: seq<Request>, accepts: Request -> bool)
    ensures RunPlan(a + b, accepts) == Then(RunPlan(a, accepts), b, accepts)
    decreases |a|
  {
    if |a| == 0 {
      assert a + b == b;
    } else {
      var x, rest := a[0], a[1..];
      assert a == [x] + rest;
      assert a + b == [x] + (rest + b);
      RunPlanCons(x, rest, accepts);
      RunPlanCons(x, rest + b, accepts);
      if accepts(x) {
        RunPlanConcat(rest, b, accepts);
        ThenCons(x, RunPlan(rest, accepts), b, accepts);
      }
    }
  }

  /** Prefixing an accepted request commutes with awaiting `b`. */
  lemma ThenCons(x: Request, first: Attempt, b: seq<Request>, accepts: Request -> bool)
    ensures
      var t := Then(first, b, accepts);
      Attempt([x] + t.issued, t.succeeded) == Then(Attempt([x] + first.issued, first.succeeded), b, accepts)
  {
    if first.succeeded {
      var tail := RunPlan(b, accepts).issued;
      assert [x] + (first.issued + tail) == ([x] + first.issued) + tail;
    }
  }

  /** One step of a plan: a rejected first request ends it; an accepted one
      is followed by the rest. */
  lemma RunPlanCons(x: Request, s: seq<Request>, accepts: Request -> bool)
    ensures !accepts(x) ==> RunPlan([x] + s, accepts) == Attempt([x], false)
    ensures accepts(x) ==>
      RunPlan([x] + s, accepts) == Attempt([x] + RunPlan(s, accepts).issued, RunPlan(s, accepts).succeeded)
  {
    assert ([x] + s)[0] == x && ([x] + s)[1..] == s;
  }

  // ---------------------------------------------------------------------
  // The two plans

  /** `handlePublish`: create the product, then upload every photo under the
      id the server answered with, when it answered with one. `createdId` is
      that id (`""` when the answer has none). */
  function PublishPlan(ad: AdParams, createdId: string): (r: seq<Request>)
    ensures |r| >= 1 && r[0] == CreateProduct(BodyOf(ad))
    ensures |r| == 2 <==> Truthy(createdId)
    ensures |r| <= 2
    ensures |r| == 2 ==> r[1] == UploadImages(ad.productImgs, createdId)
  {
    [CreateProduct(BodyOf(ad))] + (if Truthy(createdId) then [UploadImages(ad.productImgs, createdId)] else [])
  }

  /** The photos picked on the device: `filter(image => image.isNew === true)`. */
  function NewImages(photos: seq<Photo>): (r: seq<Photo>)
    ensures |r| <= |photos|
    ensures forall k :: 0 <= k < |r| ==> r[k].isNew
    ensures forall p :: p in r <==> p in photos && p.isNew
  {
    if |photos| == 0 then []
    else
      var rest := NewImages(photos[1..]);
      assert forall p :: p in photos <==> p == photos[0] || p in photos[1..];
      if photos[0].isNew then [photos[0]] + rest else rest
  }

  /** The filter keeps the photos in order: it distributes over
      concatenation. */
  lemma {:induction false} NewImagesConcat(a: seq<Photo>, b: seq<Photo>)
    ensures NewImages(a + b) == NewImages(a) + NewImages(b)
    decreases |a|
  {
    if |a| == 0 {
      assert a + b == b;
    } else {
      assert (a + b)[1..] == a[1..] + b;
      NewImagesConcat(a[1..], b);
    }
  }

  /** A list in which every photo is new passes the filter whole, and one
      in which none is passes nothing. */
  lemma {:induction false} NewImagesAllOrNone(photos: seq<Photo>, isNew: bool)
    requires forall k :: 0 <= k < |photos| ==> photos[k].isNew == isNew
    ensures NewImages(photos) == if isNew then photos else []
    decreases |photos|
  {
    if |photos| > 0 {
      NewImagesAllOrNone(photos[1..], isNew);
    }
  }

  /** Editing an ad whose photos all came from the server and then adding
      `added` uploads exactly the added photos, in the order they were
      added. */
  lemma UploadsOnlyAddedPhotos(stored: seq<Photo>, added: seq<Photo>)
    requires forall k :: 0 <= k < |stored| ==> !stored[k].isNew
    requires forall k :: 0 <= k < |added| ==> added[k].isNew
    ensures NewImages(stored + added) == added
  {
    NewImagesConcat(stored, added);
    NewImagesAllOrNone(stored, false);
    NewImagesAllOrNone(added, true);
  }

  /** `handlePublishAdChanges`: update the product; then, when images were
      marked for removal and the product has an id, delete them
      (`removeImagesFromDatabase`); then, when the product has an id and
      some photo is new, upload the new photos. */
  function ChangesPlan(p: PreviewParams): (r: seq<Request>)
    ensures |r| >= 1 && r[0] == UpdateProduct("/products/" + IdText(p.productId), BodyOf(p.ad))
    ensures DeleteImages(if p.imagesToBeRemoved.Some? then p.imagesToBeRemoved.value else []) in r <==>
      p.imagesToBeRemoved.Some? && |p.imagesToBeRemoved.value| > 0 && p.productId.Some?
    ensures r[|r| - 1].UploadImages? <==> p.productId.Some? && |NewImages(p.ad.productImgs)| > 0
    ensures forall k :: 0 <= k < |r| && r[k].UploadImages? ==>
      k == |r| - 1 && r[k] == UploadImages(NewImages(p.ad.productImgs), p.productId.value)
    ensures forall k :: 0 < k < |r| && r[k].DeleteImages? ==> k == 1
    ensures p.productId.None? ==> r == [r[0]]
    ensures |r| == 1
      + (if p.imagesToBeRemoved.Some? && |p.imagesToBeRemoved.value| > 0 && p.productId.Some? then 1 else 0)
      + (if p.productId.Some? && |NewImages(p.ad.productImgs)| > 0 then 1 else 0)
  {
    var update := [UpdateProduct("/products/" + IdText(p.productId), BodyOf(p.ad))];
    var delete :=
      if p.imagesToBeRemoved.Some? && |p.imagesToBeRemoved.value| > 0 && p.productId.Some?
      then [DeleteImages(p.imagesToBeRemoved.value)] else [];
    var added := NewImages(p.ad.productImgs);
    var upload := if p.productId.Some? && |added| > 0 then [UploadImages(added, p.productId.value)] else [];
    update + delete + upload
  }

  /** With no image marked for removal and no new photo, publishing changes
      sends the update alone. */
  lemma OnlyUpdateToSend(p: PreviewParams)
    requires p.imagesToBeRemoved.None? && NewImages(p.ad.productImgs) == []
    ensures ChangesPlan(p) == [UpdateProduct("/products/" + IdText(p.productId), BodyOf(p.ad))]
  {
  }

  /** With no image marked for removal, an existing ad with new photos
      sends the update and then one upload of exactly the new photos. */
  lemma UpdateThenUpload(p: PreviewParams)
    requires p.imagesToBeRemoved.None? && p.productId.Some? && |NewImages(p.ad.productImgs)| > 0
    ensures ChangesPlan(p) == [UpdateProduct("/products/" + p.productId.value, BodyOf(p.ad)),
                               UploadImages(NewImages(p.ad.productImgs), p.productId.value)]
  {
  }

  // ---------------------------------------------------------------------
  // The screen

  /** The publish button's action: `handlePublishAdChanges` when an
      existing ad is being edited, `handlePublish` otherwise. */
  datatype Action = Publish | PublishChanges

  function ChooseAction(p: PreviewParams): (r: Action)
    ensures r == PublishChanges <==> p.productId.Some?
  {
    if p.productId.Some? then PublishChanges else Publish
  }

  /** The toast the screen shows when the requests settle. */
  datatype PreviewNotice = AdCreated | ChangesPublished | PublishFailed

  /** Where the screen navigates. */
  datatype Destination = EditAd(params: PreviewParams) | UserAdsList

  /** What one press of the publish button leaves behind: the requests sent,
      the navigation (if any), the toast and the button's loading flag. */
  datatype PressResult = PressResult(
    requests: seq<Request>,
    navigation: Option<Destination>,
    notice: PreviewNotice,
    loading: bool)

  /** The plan the publish button runs for `p`. */
  function PlanFor(p: PreviewParams, createdId: string): (r: seq<Request>)
    ensures ChooseAction(p) == Publish ==> r == PublishPlan(p.ad, createdId)
    ensures ChooseAction(p) == PublishChanges ==> r == ChangesPlan(p)
  {
    match ChooseAction(p)
    case Publish => PublishPlan(p.ad, createdId)
    case PublishChanges => ChangesPlan(p)
  }

  /** One press of the publish button. The server's answers are the
      parameters: `accepts` for each request and `createdId` for the id in
      the answer to the create request. */
  function Press(p: PreviewParams, accepts: Request -> bool, createdId: string): (r: PressResult)
    ensures !r.loading
    ensures r.navigation.Some? <==> r.notice != PublishFailed
    ensures r.navigation.Some? ==> r.navigation.value == UserAdsList
    ensures r.requests == RunPlan(PlanFor(p, createdId), accepts).issued
    ensures r.notice != PublishFailed ==> r.requests == PlanFor(p, createdId)
    ensures r.notice == PublishFailed ==>
      && |r.requests| >= 1
      && !accepts(r.requests[|r.requests| - 1])
      && forall k :: 0 <= k < |r.requests| - 1 ==> accepts(r.requests[k])
    ensures ChooseAction(p) == Publish ==>
      && r.requests <= PublishPlan(p.ad, createdId)
      && (r.notice == AdCreated <==> forall k :: 0 <= k < |PublishPlan(p.ad, createdId)| ==> accepts(PublishPlan(p.ad, createdId)[k]))
      && r.notice != ChangesPublished
    ensures ChooseAction(p) == PublishChanges ==>
      && r.requests <= ChangesPlan(p)
      && (r.notice == ChangesPublished <==> forall k :: 0 <= k < |ChangesPlan(p)| ==> accepts(ChangesPlan(p)[k]))
      && r.notice != AdCreated
  {
    var attempt := RunPlan(PlanFor(p, createdId), accepts);
    if !attempt.succeeded then PressResult(attempt.issued, None, PublishFailed, false)
    else
      var notice := if ChooseAction(p) == Publish then AdCreated else ChangesPublished;
      PressResult(attempt.issued, Some(UserAdsList), notice, false)
  }

  /** A rejected update sends nothing else: no image is deleted or uploaded
      for changes the server refused. */
  lemma RejectedUpdateStopsThere(p: PreviewParams, accepts: Request -> bool, createdId: string)
    requires p.productId.Some?
    requires !accepts(ChangesPlan(p)[0])
    ensures Press(p, accepts, createdId).requests == [ChangesPlan(p)[0]]
    ensures Press(p, accepts, createdId).navigation.None?
  {
  }

  /** Photos are uploaded only under an id the server handed back: a create
      whose answer has no id sends no upload, however it ends. */
  lemma NoUploadWithoutCreatedId(p: PreviewParams, accepts: Request -> bool)
    requires p.productId.None?
    ensures forall k :: 0 <= k < |Press(p, accepts, "").requests| ==> Press(p, accepts, "").requests[k].CreateProduct?
  {
  }

  /** `handleGoBack`: back to the edit screen with every route parameter as
      it was received. */
  function GoBack(p: PreviewParams): (r: Destination)
    ensures r.EditAd? && r.params.ad == p.ad
    ensures r.params.productId == p.productId && r.params.imagesToBeRemoved == p.imagesToBeRemoved
  {
    EditAd(p)
  }
}
