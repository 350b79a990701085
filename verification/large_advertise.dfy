/** The full-page ad card shared by the preview, the public detail screen and
    the owner's detail screen: which payment methods it lists, whose avatar
    and name it shows, and its labels. */
module LargeAdvertiseView {
  import opened Common
  import opened Domain
  import opened AuthContext

  // ---------------------------------------------------------------------
  // Payment methods

  /** The methods the card knows how to draw, in the order it draws them. */
  const CanonicalMethods: seq<string> := ["boleto", "pix", "cash", "card", "deposit"]

  /** The position of a method in `CanonicalMethods`; 5 for any other key. */
  function Rank(m: string): nat {
    if m == "boleto" then 0
    else if m == "pix" then 1
    else if m == "cash" then 2
    else if m == "card" then 3
    else if m == "deposit" then 4
    else 5
  }

  lemma RankOfCanonical()
    ensures forall k :: 0 <= k < |CanonicalMethods| ==> Rank(CanonicalMethods[k]) == k
    ensures forall m :: m !in CanonicalMethods ==> Rank(m) == |CanonicalMethods|
  {
  }

  /** The canonical methods from position `i` on that occur in `methods`. */
  function KeepFrom(i: nat, methods: seq<string>): (r: seq<string>)
    requires i <= |CanonicalMethods|
    ensures |r| <= |CanonicalMethods| - i
    ensures forall m :: m in r <==> m in CanonicalMethods[i..] && m in methods
    ensures forall k :: 0 <= k < |r| ==> i <= Rank(r[k]) < |CanonicalMethods|
    ensures forall k, l :: 0 <= k < l < |r| ==> Rank(r[k]) < Rank(r[l])
    decreases |CanonicalMethods| - i
  {
    if i == |CanonicalMethods| then []
    else
      var rest := KeepFrom(i + 1, methods);
      KeepStep(i, methods, rest);
      if CanonicalMethods[i] in methods then [CanonicalMethods[i]] + rest else rest
  }

  /** One step of `KeepFrom`: putting the method at position `i` in front
      of the kept methods after it, when the product accepts it. */
  lemma KeepStep(i: nat, methods: seq<string>, rest: seq<string>)
    requires i < |CanonicalMethods|
    requires |rest| <= |CanonicalMethods| - (i + 1)
    requires forall m :: m in rest <==> m in CanonicalMethods[i + 1..] && m in methods
    requires forall k :: 0 <= k < |rest| ==> i + 1 <= Rank(rest[k]) < |CanonicalMethods|
    requires forall k, l :: 0 <= k < l < |rest| ==> Rank(rest[k]) < Rank(rest[l])
    ensures
      var r := if CanonicalMethods[i] in methods then [CanonicalMethods[i]] + rest else rest;
      && |r| <= |CanonicalMethods| - i
      && (forall m :: m in r <==> m in CanonicalMethods[i..] && m in methods)
      && (forall k :: 0 <= k < |r| ==> i <= Rank(r[k]) < |CanonicalMethods|)
      && (forall k, l :: 0 <= k < l < |r| ==> Rank(r[k]) < Rank(r[l]))
  {
    var c := CanonicalMethods[i];
    RankAt(i);
    assert CanonicalMethods[i..] == [c] + CanonicalMethods[i + 1..];
    if c in methods {
      var r := [c] + rest;
      assert forall k :: 0 < k < |r| ==> r[k] == rest[k - 1];
    }
  }

  /** Each canonical method's rank is its position. */
  lemma RankAt(i: nat)
    requires i < |CanonicalMethods|
    ensures Rank(CanonicalMethods[i]) == i
  {
  }

  /** `compatibleHStackComponents`: the canonical list filtered by
      membership in the product's methods. The result lists each known
      method the product accepts, once, in canonical order, and nothing
      else. */
  function DisplayedMethods(methods: seq<string>): (r: seq<string>)
    ensures forall m :: m in r <==> m in CanonicalMethods && m in methods
    ensures |r| <= 5
    ensures forall k, l :: 0 <= k < l < |r| ==> Rank(r[k]) < Rank(r[l])
  {
    KeepFrom(0, methods)
  }

  /** No method is drawn twice. */
  lemma DisplayedDistinct(methods: seq<string>)
    ensures forall k, l :: 0 <= k < l < |DisplayedMethods(methods)| ==>
      DisplayedMethods(methods)[k] != DisplayedMethods(methods)[l]
  {
  }

  /** The list drawn depends only on which canonical methods occur. */
  lemma {:induction false} KeepFromMembership(i: nat, a: seq<string>, b: seq<string>)
    requires i <= |CanonicalMethods|
    requires forall m :: m in CanonicalMethods ==> (m in a <==> m in b)
    ensures KeepFrom(i, a) == KeepFrom(i, b)
    decreases |CanonicalMethods| - i
  {
    if i < |CanonicalMethods| {
      KeepFromMembership(i + 1, a, b);
    }
  }

  /** An unknown key changes nothing, and neither does a repeated one. */
  lemma UnknownAndRepeatedKeysIgnored(methods: seq<string>, m: string)
    requires m !in CanonicalMethods || m in methods
    ensures DisplayedMethods(methods + [m]) == DisplayedMethods(methods)
  {
    KeepFromMembership(0, methods + [m], methods);
  }

  // ---------------------------------------------------------------------
  // The card

  /** The card's properties; `isDisabled` and `isUserAd` default to false
      and `announcer` to absent. */
  datatype AdProps = AdProps(isDisabled: bool, isUserAd: bool, announcer: Option<Announcer>, ad: AdParams)

  datatype AvatarSource = RemoteAvatar(uri: string) | DefaultAvatar

  datatype Seller = Seller(avatar: AvatarSource, name: string)

  datatype ConditionTag = NewTag | UsedTag

  /** What the card shows. */
  datatype AdView = AdView(
    overlay: bool,
    seller: Seller,
    tag: ConditionTag,
    tradeLabel: string,
    methods: seq<string>,
    photos: seq<Photo>,
    title: string,
    description: string,
    price: real)

  /** The seller shown: the signed-in user on the owner's screens, else the
      announcer passed in, else the bundled default avatar with no name. A
      signed-out user's missing avatar renders as the text "undefined" in
      the URI and the missing name as nothing. */
  function SellerShown(isUserAd: bool, user: User, announcer: Option<Announcer>, baseUrl: string): (r: Seller)
    ensures isUserAd && user.User? ==> r == Seller(RemoteAvatar(baseUrl + "/images/" + user.avatar), user.name)
    ensures isUserAd && user.NoUser? ==> r == Seller(RemoteAvatar(baseUrl + "/images/undefined"), "")
    ensures !isUserAd && announcer.Some? ==>
      r == Seller(RemoteAvatar(baseUrl + "/images/" + announcer.value.avatar), announcer.value.name)
    ensures !isUserAd && announcer.None? ==> r == Seller(DefaultAvatar, "")
  {
    if isUserAd then
      match user
      case User(_, name, _, avatar, _) => Seller(RemoteAvatar(baseUrl + "/images/" + avatar), name)
      case NoUser => Seller(RemoteAvatar(baseUrl + "/images/undefined"), "")
    else if announcer.Some? then
      Seller(RemoteAvatar(baseUrl + "/images/" + announcer.value.avatar), announcer.value.name)
    else Seller(DefaultAvatar, "")
  }

  /** The card for `props`, with the signed-in `user` and the configured
      server address `baseUrl`. */
  function Render(props: AdProps, user: User, baseUrl: string): (r: AdView)
    ensures r.overlay <==> props.isDisabled
    ensures r.tag == NewTag <==> props.ad.condition == New
    ensures r.tradeLabel == "Sim" <==> props.ad.acceptTrade
    ensures r.tradeLabel == "Sim" || r.tradeLabel == "Não"
    ensures r.methods == DisplayedMethods(props.ad.paymentMethods)
    ensures r.seller == SellerShown(props.isUserAd, user, props.announcer, baseUrl)
    ensures r.photos == props.ad.productImgs && r.title == props.ad.title
    ensures r.description == props.ad.description && r.price == props.ad.price
  {
    AdView(
      props.isDisabled,
      SellerShown(props.isUserAd, user, props.announcer, baseUrl),
      if props.ad.condition == New then NewTag else UsedTag,
      if props.ad.acceptTrade then "Sim" else "Não",
      DisplayedMethods(props.ad.paymentMethods),
      props.ad.productImgs,
      props.ad.title,
      props.ad.description,
      props.ad.price)
  }
}
