/** The owner's detail screen of an ad: the disabled flag it keeps while
    focused, the enable / disable / delete requests, and the hand-over to
    the edit screen. */
module UserAdDetailsScreen {
  import opened Common
  import opened Domain
  import opened LargeAdvertiseView
  import AuthContext

  /** The two flags of the screen. */
  datatype OwnerState = OwnerState(isDisabled: bool, loading: bool)

  function InitialOwner(): (r: OwnerState)
    ensures !r.isDisabled && !r.loading
  {
    OwnerState(false, false)
  }

  /** The focus effect: the ad is shown disabled when the route says it is
      not active. */
  function Focus(s: OwnerState, isActive: bool): (r: OwnerState)
    ensures r.isDisabled <==> !isActive
    ensures r.loading == s.loading
  {
    s.(isDisabled := !isActive)
  }

  /** The focus effect's cleanup, run on blur. */
  function Blur(s: OwnerState): (r: OwnerState)
    ensures !r.isDisabled && r.loading == s.loading
  {
    s.(isDisabled := false)
  }

  /** A request of this screen. The delete path has no leading slash. */
  datatype OwnerRequest = PatchActive(path: string, isActive: bool) | DeleteProduct(path: string)

  /** The power button: "Reativar" while the ad is disabled, "Desativar"
      otherwise. */
  datatype PowerAction = EnableAd | DisableAd

  function PowerButton(s: OwnerState): (r: PowerAction)
    ensures r == EnableAd <==> s.isDisabled
  {
    if s.isDisabled then EnableAd else DisableAd
  }

  /** The outcome of one press: the new state, the request sent and whether
      an error toast was shown. */
  datatype PowerResult = PowerResult(state: OwnerState, request: OwnerRequest, failed: bool)

  /** `handleEnableAd` / `handleDisableAd`: PATCH the product's `is_active`;
      the flag changes only once the server accepts, and the loading flag
      ends false either way. */
  function SetActive(s: OwnerState, productId: string, active: bool, accepted: bool): (r: PowerResult)
    ensures r.request == PatchActive("/products/" + productId, active)
    ensures !r.state.loading
    ensures accepted ==> r.state.isDisabled == !active && !r.failed
    ensures !accepted ==> r.state.isDisabled == s.isDisabled && r.failed
  {
    var request := PatchActive("/products/" + productId, active);
    if accepted then PowerResult(OwnerState(!active, false), request, false)
    else PowerResult(OwnerState(s.isDisabled, false), request, true)
  }

  /** One press of the power button. */
  function PressPower(s: OwnerState, productId: string, accepted: bool): (r: PowerResult)
    ensures r.request.PatchActive? && r.request.isActive == s.isDisabled
    ensures !r.state.loading
  {
    match PowerButton(s)
    case EnableAd => SetActive(s, productId, true, accepted)
    case DisableAd => SetActive(s, productId, false, accepted)
  }

  /** An accepted press flips the disabled flag and a rejected one keeps
      it; two accepted presses give back the flag. */
  lemma PressPowerToggles(s: OwnerState, productId: string, accepted: bool)
    ensures accepted ==> PressPower(s, productId, accepted).state.isDisabled == !s.isDisabled
    ensures !accepted ==> PressPower(s, productId, accepted).state.isDisabled == s.isDisabled
    ensures PressPower(PressPower(s, productId, true).state, productId, true).state.isDisabled == s.isDisabled
  {
  }

  /** The card follows the flag: an accepted press puts up the "ANÚNCIO
      DESATIVADO" overlay exactly when the ad was shown enabled. */
  lemma OverlayFollowsPress(s: OwnerState, productId: string, ad: AdParams, user: AuthContext.User, baseUrl: string)
    ensures Render(CardProps(PressPower(s, productId, true).state, ad), user, baseUrl).overlay <==> !s.isDisabled
  {
  }

  /** The card's properties on this screen: the owner's ad, disabled as the
      flag says. */
  function CardProps(s: OwnerState, ad: AdParams): (r: AdProps)
    ensures r.isUserAd && r.announcer.None? && r.ad == ad
    ensures r.isDisabled == s.isDisabled
  {
    AdProps(s.isDisabled, true, None, ad)
  }

  /** The outcome of `handleDeleteAd`: the request, and whether the screen
      goes back to the list of the user's ads. */
  datatype DeleteResult = DeleteResult(request: OwnerRequest, toUserAds: bool)

  function Delete(productId: string, accepted: bool): (r: DeleteResult)
    ensures r.request == DeleteProduct("products/" + productId)
    ensures r.toUserAds <==> accepted
  {
    DeleteResult(DeleteProduct("products/" + productId), accepted)
  }

  /** `handleEdit`: the edit screen receives the ad and its id, and no
      images marked for removal yet. */
  function Edit(p: UserAdDetailsParams): (r: PreviewParams)
    ensures r.ad == p.ad && r.productId == Some(p.productId) && r.imagesToBeRemoved.None?
  {
    PreviewParams(p.ad, Some(p.productId), None)
  }
}
