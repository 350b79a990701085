/** How a product record from the server becomes the route parameters and
    display properties of the ad screens: stored images become photos with a
    MIME type guessed from the file extension, prices go from cents to
    reais, and payment methods are reduced to their keys. */
module ProductMapping {
  import opened Common
  import opened Domain

  /** The extension of an image path: the text after the last '.' of the
      text after the last '/'. It is the longest suffix of `path` holding
      neither character. */
  function Extension(path: string): (r: string)
    ensures |r| <= |path| && r == path[|path| - |r|..]
    ensures '.' !in r && '/' !in r
    ensures |r| < |path| ==> path[|path| - |r| - 1] == '.' || path[|path| - |r| - 1] == '/'
  {
    var name := AfterLast(path, '/');
    var ext := AfterLast(name, '.');
    SuffixOfSuffix(path, name, ext);
    ext
  }

  /** A suffix of a suffix is a suffix, and the character before it in the
      inner string is the one before it in the outer string. */
  lemma SuffixOfSuffix(path: string, name: string, ext: string)
    requires |name| <= |path| && name == path[|path| - |name|..]
    requires |ext| <= |name| && ext == name[|name| - |ext|..]
    ensures ext == path[|path| - |ext|..]
    ensures |ext| < |name| ==> path[|path| - |ext| - 1] == name[|name| - |ext| - 1]
  {
    assert forall k :: 0 <= k < |ext| ==> ext[k] == name[|name| - |ext| + k] == path[|path| - |ext| + k];
  }

  /** The contract of `Extension` determines it: a suffix free of '.' and
      '/' that is either all of the path or preceded by one of them is the
      extension. */
  lemma ExtensionUnique(path: string, t: string)
    requires |t| <= |path| && t == path[|path| - |t|..]
    requires '.' !in t && '/' !in t
    requires |t| < |path| ==> path[|path| - |t| - 1] == '.' || path[|path| - |t| - 1] == '/'
    ensures t == Extension(path)
  {
  }

  /** The extension of a dotted file name in a directory. */
  lemma ExtensionOfDottedName(dir: string, base: string, ext: string)
    requires '.' !in ext && '/' !in ext
    ensures Extension(dir + "/" + base + "." + ext) == ext
  {
    var path := dir + "/" + base + "." + ext;
    assert path[|path| - |ext|..] == ext;
    assert path[|path| - |ext| - 1] == '.';
    ExtensionUnique(path, ext);
  }

  /** A file name without a dot is its own extension, whatever dots the
      directories hold. */
  lemma ExtensionOfPlainName(dir: string, name: string)
    requires '.' !in name && '/' !in name
    ensures Extension(dir + "/" + name) == name
  {
    var path := dir + "/" + name;
    assert path[|path| - |name|..] == name;
    assert path[|path| - |name| - 1] == '/';
    ExtensionUnique(path, name);
  }

  /** The MIME type announced for a stored image: "image/" followed by the
      lower-cased extension. */
  function MimeType(path: string): (r: string)
    ensures |r| >= 6 && r[..6] == "image/"
    ensures r[6..] == ToLower(Extension(path))
    ensures '.' !in r[6..] && '/' !in r[6..]
  {
    var ext := Extension(path);
    ToLowerKeepsNonLetters(ext, '.');
    ToLowerKeepsNonLetters(ext, '/');
    "image/" + ToLower(ext)
  }

  /** One stored image as a photo: named by the image id, served from the
      image host, and not new. */
  function ImagePhoto(baseUrl: string, image: ProductImageDTO): (r: Photo)
    ensures r.name == image.id && !r.isNew
    ensures r.uri == baseUrl + "/images/" + image.path
    ensures r.mediaType == MimeType(image.path)
  {
    Photo(image.id, baseUrl + "/images/" + image.path, MimeType(image.path), false)
  }

  /** Every stored image of a product, in the server's order. */
  function ImagePhotos(baseUrl: string, images: seq<ProductImageDTO>): (r: seq<Photo>)
    ensures |r| == |images|
    ensures forall k :: 0 <= k < |r| ==> r[k] == ImagePhoto(baseUrl, images[k]) && !r[k].isNew
  {
    seq(|images|, k requires 0 <= k < |images| => ImagePhoto(baseUrl, images[k]))
  }

  /** The keys of the payment methods, in the server's order. */
  function PaymentKeys(methods: seq<PaymentMethodDTO>): (r: seq<string>)
    ensures |r| == |methods|
    ensures forall k :: 0 <= k < |r| ==> r[k] == methods[k].key
  {
    seq(|methods|, k requires 0 <= k < |methods| => methods[k].key)
  }

  /** The condition shown for a product: new exactly when `is_new` is true. */
  function ConditionOf(isNew: bool): (r: Condition)
    ensures r == New <==> isNew
  {
    if isNew then New else Used
  }

  /** The ad parameters for a product: the price goes from cents to reais. */
  function ProductAd(baseUrl: string, item: ProductDTO): (r: AdParams)
    ensures r.productImgs == ImagePhotos(baseUrl, item.productImages)
    ensures r.title == item.name && r.description == item.description
    ensures r.condition == New <==> item.isNew
    ensures r.acceptTrade == item.acceptTrade
    ensures r.price * 100.0 == item.price
    ensures r.paymentMethods == PaymentKeys(item.paymentMethods)
  {
    AdParams(
      ImagePhotos(baseUrl, item.productImages),
      item.name,
      item.description,
      ConditionOf(item.isNew),
      item.acceptTrade,
      item.price / 100.0,
      PaymentKeys(item.paymentMethods))
  }
}
