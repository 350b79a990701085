# Marketspace mobile client: a Dafny model of its logic

The Marketspace client is a React Native app for a classifieds marketplace.
Users sign up, sign in, publish ads with photos, list and filter their own ads,
switch ads on and off, and browse other people's ads. Most of the app is
layout plus HTTP and storage plumbing. This project models the logic that
sits between those layers as pure Dafny functions over immutable datatypes:

- **Session** (`AuthContext`, `Routes`). `signIn`, `signOut` and
  `loadUserData` are modelled as traces of effects replayed over a session.
  A session holds the user, the loading flag, the bearer header and a
  two-record store. The root router picks its view from that session.
- **Forms** (`SignUpScreen`, `CreateAdFormScreen`).
  - The sign-up schema, with the telephone and password patterns read as
    regular expressions.
  - The avatar picker's size guard and file naming.
  - The ad schema and the photo list: append, `splice` removal, the
    add-photo tile.
  - The advance to the preview, and the reset on blur.
- **Publishing** (`PreviewAdScreen`). A press runs a plan: the requests
  that publishing a new ad or changes to an existing ad would send,
  awaited one after another, where a rejection stops the rest.
- **Listings** (`ProductMapping`, `UserAdsScreen`, `AdvertisementPanel`,
  `AdDetailsScreen`, `UserAdDetailsScreen`, `LargeAdvertiseView`).
  - How a server product becomes photos with a MIME type, a price in
    reais and payment keys.
  - The active / disabled / all filter, the fetch, and the count labels.
  - The public and owner detail screens, with enable / disable / delete.
  - The shared ad card: payment list, seller and labels.
- **Filter dialog** (`FilterModalView`). Two tags derive a three-valued
  `is_new`, plus the apply and reset buttons.
- **Flows** (`AdFlows`). Properties that cross screens: a new ad from form
  to publish, and an existing ad from list to edit to publish.

Requests and storage calls are recorded as values. Their outcomes are
parameters: a `Reply`, a boolean "accepted" flag, or a function from
request to acceptance. `common.dfy` and `domain.dfy` hold the shared
helpers and the shapes of the server's product and of the route
parameters.

## Model

| member | source | states |
|---|---|---|
| Common.AfterLast | mobile-app/src/screens/SignUp.tsx:124 | `split(c).pop()` is the suffix after the last `c`. It contains no `c`, and it is either the whole string or preceded by `c` |
| Common.AfterLastUnique | mobile-app/src/components/CreateAdForm.tsx:126 | Any suffix with those properties is the `split(c).pop()` result |
| Common.RemoveAll | mobile-app/src/screens/SignUp.tsx:126 | `replace(/\//g, '')` leaves no slash, keeps every other character that occurs, and changes nothing when there was none |
| Common.TooLargeIff | mobile-app/src/screens/SignUp.tsx:116 | The guard `size && size/1024/1024 > 5` rejects exactly the sizes above 5242880 bytes. Exactly 5 MiB, zero and an unknown size pass |
| Common.Utf16Length | mobile-app/src/screens/SignUp.tsx:58-61 | `length` counts UTF-16 code units: between the number of characters and twice it, and equal to it iff no character lies outside the Basic Multilingual Plane |
| Common.Utf16LengthConcat | mobile-app/src/screens/SignUp.tsx:58-61 | The code-unit length of a concatenation is the sum of the lengths |
| Common.EmojiCountsTwice | mobile-app/src/screens/SignUp.tsx:58-61 | Four ASCII characters and one emoji have length 6, not 5 |
| Common.ToLowerConcat | mobile-app/src/components/CreateAdForm.tsx:129 | Lower-casing distributes over concatenation |
| AuthContext.Initial | mobile-app/src/contexts/AuthContext.tsx:33-34 | On mount the user is the empty object, which has no id, and loading is on |
| AuthContext.ApplyFrame | mobile-app/src/contexts/AuthContext.tsx:36-108 | A session field that no effect of a trace writes keeps its value |
| AuthContext.LastWriter | mobile-app/src/contexts/AuthContext.tsx:36-108 | A field ends up holding what the last effect writing it put there |
| AuthContext.SignIn | mobile-app/src/contexts/AuthContext.tsx:60-75 | Loading ends off. A rejected request, or a reply missing user, token or refresh token, changes nothing else. A complete reply with both saves succeeding sets user, `Bearer <token>` header and both store records. A failed save rethrows with user and header unchanged, keeping the user record only if its save succeeded |
| AuthContext.SignInCommitsEffects | mobile-app/src/contexts/AuthContext.tsx:36-75 | When both saves succeed, the replayed effects leave the reply's user, its bearer header and both store records, with loading off |
| AuthContext.SignInSaveFailsEffects | mobile-app/src/contexts/AuthContext.tsx:36-75 | When a save fails, the replayed effects leave user and header as they were, and the store gains the user record only if its save succeeded |
| AuthContext.SignInWritesStoreFirst | mobile-app/src/contexts/AuthContext.tsx:36-67 | On commit the user record is saved before the token pair. Both saves come before the header, and the header before the in-memory user |
| AuthContext.SignInSetsUserOnlyOnCommit | mobile-app/src/contexts/AuthContext.tsx:64-67 | The user is set only for a complete reply whose two saves both succeed, and then to the reply's user |
| AuthContext.SignOut | mobile-app/src/contexts/AuthContext.tsx:77-90 | The user becomes empty even if a removal fails, and the header is untouched. A failed user-record removal skips the token removal. It resolves iff both removals succeed. Loading ends off |
| AuthContext.SignOutIdempotent | mobile-app/src/contexts/AuthContext.tsx:77-90 | Signing out twice leaves the state of signing out once, whichever of the two store removals succeed |
| AuthContext.LoadUserData | mobile-app/src/contexts/AuthContext.tsx:92-108 | The store is never written. User and header are restored iff both reads succeed and a user and a truthy token are stored; otherwise both stay. Loading ends off |
| AuthContext.RestoreAfterSignIn | mobile-app/src/contexts/AuthContext.tsx:92-101 | A fresh provider over the store a sign-in left restores the same user and header |
| AuthContext.RestoreAfterSignOut | mobile-app/src/contexts/AuthContext.tsx:92-101 | A fresh provider over the store a sign-out left restores nobody |
| Routes.SelectView | mobile-app/src/routes/index.tsx:18-28 | Exactly one view is chosen: Loading iff loading; app routes iff not loading and `user.id` truthy; auth routes otherwise |
| Routes.InitialShowsLoading | mobile-app/src/routes/index.tsx:18-20 | A freshly mounted provider shows the loading view |
| Routes.OperationsSettle | mobile-app/src/routes/index.tsx:18-20 | No session operation leaves the loading view up |
| Routes.SignInShowsApp | mobile-app/src/routes/index.tsx:25 | A committed sign-in of a user with an id shows the app routes |
| Routes.SignOutShowsAuth | mobile-app/src/routes/index.tsx:25 | Signing out shows the auth routes, whichever removal fails |
| Routes.RestoreShows | mobile-app/src/routes/index.tsx:25 | Restoring from an empty store shows the auth routes; restoring a user with an id and a token shows the app routes |
| SignUpScreen.MatchesDigitsIff | mobile-app/src/screens/SignUp.tsx:51-57 | The recursive matcher for `\d{n}` accepts exactly strings of n ASCII digits |
| SignUpScreen.TelephoneRule | mobile-app/src/screens/SignUp.tsx:51-57 | `/^\d{11}$/` accepts exactly 11 ASCII digits and nothing else |
| SignUpScreen.LookaheadIff | mobile-app/src/screens/SignUp.tsx:62-65 | `(?=.*[class])` holds iff a class character occurs before the first line terminator |
| SignUpScreen.LookaheadSingleLine | mobile-app/src/screens/SignUp.tsx:62-65 | On a password without line terminators, the lookahead holds iff the class occurs anywhere |
| SignUpScreen.EmojiPasswordIsLongEnough | mobile-app/src/screens/SignUp.tsx:58-65 | "Aa1!" plus one emoji is five characters but six code units, so it passes the password rule |
| SignUpScreen.LineBreakHidesClass | mobile-app/src/screens/SignUp.tsx:62-65 | "ABC12!\nx" contains a lower-case letter yet fails the pattern |
| SignUpScreen.RulePassesIff | mobile-app/src/screens/SignUp.tsx:51-66 | The telephone rule is the 11-digit rule. The password rule is a length of 6 to 20 UTF-16 code units (what `min`/`max` compare) plus each of the four classes in its first line |
| SignUpScreen.SignUpErrors | mobile-app/src/screens/SignUp.tsx:48-71 | A field is in error iff its rule fails; the password's length is measured in UTF-16 code units |
| SignUpScreen.SignUpErrorsEmptyIff | mobile-app/src/screens/SignUp.tsx:48-71 | The form passes iff it has a non-empty name, a valid non-empty e-mail, 11 digits, a strong password (6 to 20 UTF-16 code units, all four classes in the first line), and a confirmation equal to the password |
| SignUpScreen.AvatarNameExtension | mobile-app/src/screens/SignUp.tsx:124-131 | The avatar name starts with "avatar", and its text after the last dot is the lower-cased text after the URI's last dot |
| SignUpScreen.PickAvatar | mobile-app/src/screens/SignUp.tsx:92-142 | Only a picked asset with a URI, readable file information and a size within 5 MiB replaces the avatar and marks it defined; anything else keeps it. Too large gives the size toast; a failed pick or a rejected file-info call gives the alert. A cancel or an asset without a URI shows nothing. Loading ends off |
| SignUpScreen.PickAvatarKeepsInvariant | mobile-app/src/screens/SignUp.tsx:134-135 | "Avatar defined" and "photo held" stay in step |
| SignUpScreen.SubmitSignUp | mobile-app/src/screens/SignUp.tsx:154-206 | A request is built iff the schema passes and an avatar is defined, and it carries the form's fields. Without an avatar only a toast appears. Navigation to sign-in happens iff the request succeeds |
| SignUpScreen.CreatedAccountsAreValid | mobile-app/src/screens/SignUp.tsx:154-172 | Every request sent comes from a form with an 11-digit telephone, a password of 6 to 20 UTF-16 code units with all four classes, and a matching confirmation |
| CreateAdFormScreen.ProductErrors | mobile-app/src/components/CreateAdForm.tsx:37-47 | No errors iff title, description and condition are non-empty, a price is given and at least one payment method is chosen |
| CreateAdFormScreen.DefaultFormErrors | mobile-app/src/components/CreateAdForm.tsx:59-66 | The defaults fail exactly title, description, price and payment methods |
| CreateAdFormScreen.RemoveAt | mobile-app/src/components/CreateAdForm.tsx:149-155 | Removing at a valid index drops exactly that photo and keeps the others in order. Out of range changes nothing |
| CreateAdFormScreen.SpliceStart | mobile-app/src/components/CreateAdForm.tsx:152 | `splice` start: non-negative indexes as given; negative ones count from the end, clamped at 0 |
| CreateAdFormScreen.RemovePhoto | mobile-app/src/components/CreateAdForm.tsx:149-155 | Removing the photo at valid index i yields `s[..i] + s[i+1..]`; an index past the end changes nothing |
| CreateAdFormScreen.AcceptedPhotos | mobile-app/src/components/CreateAdForm.tsx:110-137 | At most one photo per asset, every one marked new |
| CreateAdFormScreen.AcceptedPhotosConcat | mobile-app/src/components/CreateAdForm.tsx:110-137 | Assets are handled one after another: the photos of `a + b` are those of `a` followed by those of `b` |
| CreateAdFormScreen.AcceptedPhotosSingle | mobile-app/src/components/CreateAdForm.tsx:111-135 | An asset adds its photo iff it has a URI, its file-info call resolves and it is not over 5 MiB; a rejected file-info call drops only that asset |
| CreateAdFormScreen.AddPhotos | mobile-app/src/components/CreateAdForm.tsx:98-147 | Existing photos stay as a prefix and the appended ones are new. A cancelled or failed pick changes nothing |
| CreateAdFormScreen.AssetNotices | mobile-app/src/components/CreateAdForm.tsx:110-124 | At most one toast per asset, and every one is the size toast |
| CreateAdFormScreen.AssetNoticesSingle | mobile-app/src/components/CreateAdForm.tsx:111-124 | An asset gets the size toast iff it has a URI, its file information is read and it is over 5 MiB; such an asset adds no photo |
| CreateAdFormScreen.OneOutcomePerAsset | mobile-app/src/components/CreateAdForm.tsx:110-137 | Every picked asset is either added as a photo, given the size toast, or dropped without a notice (no URI, or a rejected file-info call) |
| CreateAdFormScreen.PhotoNotices | mobile-app/src/components/CreateAdForm.tsx:98-147 | A cancel shows nothing; a failed picker shows the "could not select" toast and only it; a pick shows only size toasts, at most one per asset |
| CreateAdFormScreen.AdPhotoName | mobile-app/src/components/CreateAdForm.tsx:126-133 | An added photo is named "a." plus the lower-cased URI extension |
| CreateAdFormScreen.RemoveUndoesAppend | mobile-app/src/components/CreateAdForm.tsx:149-155 | Removing the photo just appended restores the list |
| CreateAdFormScreen.ShowsAddTile | mobile-app/src/components/CreateAdForm.tsx:220 | The add tile shows iff at most two photos are held |
| CreateAdFormScreen.PickCanExceedThree | mobile-app/src/components/CreateAdForm.tsx:108-137 | Appending does not cap the list: one pick from two photos reaches four |
| CreateAdFormScreen.Advance | mobile-app/src/components/CreateAdForm.tsx:157-183 | An invalid form stops at the schema. Navigation happens iff the form is valid and a photo exists. Condition is New iff "new", acceptTrade iff explicitly true, and the other values pass through |
| CreateAdFormScreen.ResetForm | mobile-app/src/components/CreateAdForm.tsx:185-188 | After a reset the defaults are back, there are no photos, and advancing fails the schema |
| PreviewAdScreen.BodyOf | mobile-app/src/screens/PreviewAd.tsx:53-61 | `is_new` iff condition is new, price times 100, other fields passed through |
| PreviewAdScreen.BodyPriceRoundTrip | mobile-app/src/screens/PreviewAd.tsx:58 | The body's cents divided by 100 give back the price |
| PreviewAdScreen.IdText | mobile-app/src/screens/PreviewAd.tsx:118 | The id rendered in the path, or "undefined" when absent |
| PreviewAdScreen.RunPlan | mobile-app/src/screens/PreviewAd.tsx:115-176 | Awaited requests: the ones sent are a prefix of the plan. The run succeeds iff every request is accepted, and then all are sent; otherwise the last one sent is the first rejected, and every one before it was accepted |
| PreviewAdScreen.RunPlanConcat | mobile-app/src/screens/PreviewAd.tsx:118-152 | Running `a + b` runs `a`, then `b` only if `a` fully succeeded |
| PreviewAdScreen.RunPlanCons | mobile-app/src/screens/PreviewAd.tsx:115-131 | A rejected first request ends the plan; an accepted one is followed by the rest |
| PreviewAdScreen.PublishPlan | mobile-app/src/screens/PreviewAd.tsx:49-77 | Create first; upload all photos under the returned id iff the reply carries an id |
| PreviewAdScreen.NewImages | mobile-app/src/screens/PreviewAd.tsx:134-136 | Keeps exactly the photos with `isNew` true |
| PreviewAdScreen.NewImagesConcat | mobile-app/src/screens/PreviewAd.tsx:134-136 | The filter keeps the original order |
| PreviewAdScreen.NewImagesAllOrNone | mobile-app/src/screens/PreviewAd.tsx:134-136 | All-new lists pass whole; lists with nothing new pass nothing |
| PreviewAdScreen.UploadsOnlyAddedPhotos | mobile-app/src/screens/PreviewAd.tsx:134-145 | Stored photos followed by added ones upload exactly the added ones, in order |
| PreviewAdScreen.ChangesPlan | mobile-app/src/screens/PreviewAd.tsx:103-152 | PUT first. A delete comes iff images are marked, non-empty and an id exists. An upload of the new photos comes last iff an id exists and some photo is new. Nothing else is sent: the length is one plus one per included delete and upload |
| PreviewAdScreen.OnlyUpdateToSend | mobile-app/src/screens/PreviewAd.tsx:128-152 | With nothing marked and nothing new, only the PUT is sent |
| PreviewAdScreen.UpdateThenUpload | mobile-app/src/screens/PreviewAd.tsx:128-152 | With nothing marked for removal, an existing ad with new photos sends the PUT, then one upload of exactly the new photos under its id |
| PreviewAdScreen.ChooseAction | mobile-app/src/screens/PreviewAd.tsx:219-223 | Publish-changes is chosen iff `productId` is defined |
| PreviewAdScreen.PlanFor | mobile-app/src/screens/PreviewAd.tsx:219-223 | The button runs the create plan for a new ad and the changes plan for an existing one |
| PreviewAdScreen.Press | mobile-app/src/screens/PreviewAd.tsx:49-176 | A press sends exactly what running the chosen plan sends: the whole plan on success; on failure the requests up to and including the first rejection. Success iff every planned request is accepted, and navigation to the list iff success. Loading ends off |
| PreviewAdScreen.RejectedUpdateStopsThere | mobile-app/src/screens/PreviewAd.tsx:115-131 | A rejected PUT sends nothing else and does not navigate |
| PreviewAdScreen.NoUploadWithoutCreatedId | mobile-app/src/screens/PreviewAd.tsx:63-77 | A create reply without an id sends no upload |
| PreviewAdScreen.GoBack | mobile-app/src/screens/PreviewAd.tsx:35-47 | Going back passes every route parameter unchanged to the edit screen |
| ProductMapping.Extension | mobile-app/src/screens/UserAds.tsx:71-72 | The extension is a suffix with no '.' or '/' that is the whole path or follows a '.' or '/' |
| ProductMapping.ExtensionUnique | mobile-app/src/screens/UserAds.tsx:71-72 | That description pins the extension down |
| ProductMapping.ExtensionOfDottedName | mobile-app/src/screens/UserAds.tsx:71-72 | For `dir/base.ext` the extension is `ext` |
| ProductMapping.ExtensionOfPlainName | mobile-app/src/screens/UserAds.tsx:71-72 | For a file name without a dot the extension is the whole name, whatever dots the directories hold |
| ProductMapping.MimeType | mobile-app/src/screens/UserAds.tsx:73 | "image/" followed by the lower-cased extension, holding no '.' or '/' |
| ProductMapping.ImagePhoto | mobile-app/src/screens/UserAds.tsx:69-82 | name = image id, uri = base + "/images/" + path, type from the path, not new |
| ProductMapping.ImagePhotos | mobile-app/src/screens/UserAds.tsx:69-82 | One photo per image, in server order, none new |
| ProductMapping.PaymentKeys | mobile-app/src/screens/UserAds.tsx:65-67 | The keys in server order |
| ProductMapping.ConditionOf | mobile-app/src/screens/UserAds.tsx:89 | New iff `is_new` |
| ProductMapping.ProductAd | mobile-app/src/screens/UserAds.tsx:84-94 | The parameters built from the product: price times 100 gives back the cents, condition is New iff `is_new`, keys and photos are mapped, other fields pass through |
| UserAdsScreen.Where | mobile-app/src/screens/UserAds.tsx:44-57 | Every kept product has the given `is_active`, and none is invented: the result is no longer than the list |
| UserAdsScreen.WhereMembers | mobile-app/src/screens/UserAds.tsx:44-57 | Exactly the products whose `is_active` has the given value are kept |
| UserAdsScreen.WhereConcat | mobile-app/src/screens/UserAds.tsx:44-57 | The filter keeps the list's order |
| UserAdsScreen.WherePartition | mobile-app/src/screens/UserAds.tsx:44-57 | ACTIVE and DISABLED split the list, as multisets and in count |
| UserAdsScreen.FilterAds | mobile-app/src/screens/UserAds.tsx:44-62 | A product is listed iff it is in the list and matches the selector. ALL is the list unchanged |
| UserAdsScreen.Reverse | mobile-app/src/screens/UserAds.tsx:102 | Element k of the result is element n-1-k of the input |
| UserAdsScreen.ReverseInvolution | mobile-app/src/screens/UserAds.tsx:102-103 | Reversing twice gives back the list |
| UserAdsScreen.WhereReverse | mobile-app/src/screens/UserAds.tsx:97-103 | Filtering commutes with reversing |
| UserAdsScreen.InitialUserAds | mobile-app/src/screens/UserAds.tsx:30-32 | The selector starts on ACTIVE with empty, consistent lists |
| UserAdsScreen.SelectKind | mobile-app/src/screens/UserAds.tsx:126-128 | Changing the selector re-filters the fetched list. Picking the same value changes nothing. Consistency is kept |
| UserAdsScreen.FetchAsWritten | mobile-app/src/screens/UserAds.tsx:97-118 | As written, both lists end up equal to the server's list. A rejection changes only loading |
| UserAdsScreen.FetchIgnoresFilter | mobile-app/src/screens/UserAds.tsx:102-103 | As written, a disabled ad is listed under ACTIVE after a fetch |
| UserAdsScreen.FetchAsWrittenKeepsServerOrder | mobile-app/src/screens/UserAds.tsx:102-103 | As written, two distinct ads keep the server's order, not the reversed one |
| UserAdsScreen.Fetch | mobile-app/src/screens/UserAds.tsx:97-118 | The fetched list is the reply reversed, the shown list is consistent with the selector, and loading ends off |
| UserAdsScreen.FetchKeepsConsistent | mobile-app/src/screens/UserAds.tsx:97-128 | Fetches and selector changes keep the shown list equal to the filtered fetched list |
| UserAdsScreen.FetchListsActiveNewestFirst | mobile-app/src/screens/UserAds.tsx:97-118 | Under ACTIVE, the server's active ads are shown newest first |
| UserAdsScreen.CountWording | mobile-app/src/screens/UserAds.tsx:153-155 | Singular iff exactly one ad is listed |
| UserAdsScreen.DetailsParams | mobile-app/src/screens/UserAds.tsx:64-95 | The detail parameters carry the product's id and `is_active`, plus the mapped ad and per-image name, uri, type and isNew |
| AdvertisementPanel.ActiveCount | mobile-app/src/components/UserAdvertisementPanel.tsx:27-29 | The count is at most the total, plus the disabled count equals the total, and is 0 iff no product is active |
| AdvertisementPanel.ActiveCountMatches | mobile-app/src/components/UserAdvertisementPanel.tsx:27-29 | The count equals an independent count of active products |
| AdvertisementPanel.PanelWording | mobile-app/src/components/UserAdvertisementPanel.tsx:52-54 | Plural iff the count exceeds one |
| AdvertisementPanel.WordingsDifferOnlyAtZero | mobile-app/src/components/UserAdvertisementPanel.tsx:52-54 | The panel and the list word a count differently only for zero |
| AdvertisementPanel.FetchPanel | mobile-app/src/components/UserAdvertisementPanel.tsx:18-25 | A reply replaces the list; a rejection leaves it unchanged |
| AdvertisementPanel.PanelAgreesWithList | mobile-app/src/components/UserAdvertisementPanel.tsx:27-29 | With the corrected fetch of the list screen, the panel counts as many active ads as the list shows under ACTIVE |
| AdvertisementPanel.PanelDisagreesWithListAsWritten | mobile-app/src/components/UserAdvertisementPanel.tsx:27-29 | With the fetch as written, one disabled ad is listed under ACTIVE while the panel counts zero active ads |
| LargeAdvertiseView.RankOfCanonical | mobile-app/src/components/LargeAdvertise.tsx:49-95 | The drawing order is boleto, pix, cash, card, deposit |
| LargeAdvertiseView.KeepFrom | mobile-app/src/components/LargeAdvertise.tsx:97-99 | The known methods from a position on that the product accepts, in increasing order |
| LargeAdvertiseView.DisplayedMethods | mobile-app/src/components/LargeAdvertise.tsx:49-99 | A method is drawn iff it is known and accepted. The drawn methods are in canonical order, each once, at most five |
| LargeAdvertiseView.DisplayedDistinct | mobile-app/src/components/LargeAdvertise.tsx:97-99 | No method is drawn twice |
| LargeAdvertiseView.KeepFromMembership | mobile-app/src/components/LargeAdvertise.tsx:97-99 | The drawn list depends only on which known methods occur |
| LargeAdvertiseView.UnknownAndRepeatedKeysIgnored | mobile-app/src/components/LargeAdvertise.tsx:97-99 | Adding an unknown or repeated key changes nothing |
| LargeAdvertiseView.SellerShown | mobile-app/src/components/LargeAdvertise.tsx:123-136 | The signed-in user if `isUserAd` (with no one signed in, the avatar URI ends in "undefined" and the name is empty), else the announcer if given, else the default avatar with an empty name |
| LargeAdvertiseView.Render | mobile-app/src/components/LargeAdvertise.tsx:102-168 | Overlay iff disabled; NEW tag iff condition is new; "Sim" iff trade is accepted, else "Não"; the drawn methods; the seller |
| AdDetailsScreen.InitialAdDetails | mobile-app/src/screens/AdDetails.tsx:23-24 | Loading starts on, with no product |
| AdDetailsScreen.FetchProduct | mobile-app/src/screens/AdDetails.tsx:41-61 | Loading ends off. A reply replaces the product; a rejection keeps it |
| AdDetailsScreen.DetailsProps | mobile-app/src/screens/AdDetails.tsx:81-103 | Someone else's ad with its seller as announcer. Price times 100 gives back the cents, New iff `is_new`, keys in order, photos mapped |
| AdDetailsScreen.SameAdAsOwnerScreen | mobile-app/src/screens/AdDetails.tsx:82-100 | The image, price, condition and payment mapping equals the one of the owner's list |
| AdDetailsScreen.ShowsTheSeller | mobile-app/src/screens/AdDetails.tsx:102 | The card shows the product's seller, not the signed-in user |
| AdDetailsScreen.ContactUrl | mobile-app/src/screens/AdDetails.tsx:37-39 | "https://wa.me/" followed by the seller's telephone |
| AdDetailsScreen.ScreenAsWritten | mobile-app/src/screens/AdDetails.tsx:69-103 | As written: loading view, else the card. With no product fetched, the render throws |
| AdDetailsScreen.FailedFirstFetchThrows | mobile-app/src/screens/AdDetails.tsx:82 | As written, a failed first fetch ends in the render error |
| AdDetailsScreen.ScreenOf | mobile-app/src/screens/AdDetails.tsx:69-103 | With the guard, the render never throws, and a missing product shows nothing |
| AdDetailsScreen.ScreenAgreesWhenProductFetched | mobile-app/src/screens/AdDetails.tsx:69-103 | The guard changes nothing while loading or once a product is held |
| UserAdDetailsScreen.InitialOwner | mobile-app/src/screens/UserAdDetails.tsx:20-21 | Both flags start off |
| UserAdDetailsScreen.Focus | mobile-app/src/screens/UserAdDetails.tsx:128-131 | On focus, disabled iff not active |
| UserAdDetailsScreen.Blur | mobile-app/src/screens/UserAdDetails.tsx:132 | On blur, disabled is reset to false |
| UserAdDetailsScreen.PowerButton | mobile-app/src/screens/UserAdDetails.tsx:165-167 | Enable is offered iff the ad is disabled |
| UserAdDetailsScreen.SetActive | mobile-app/src/screens/UserAdDetails.tsx:57-101 | The PATCH sets `is_active`. The flag changes only on acceptance, to the opposite of the new `is_active`; otherwise it is unchanged and an error shows. Loading ends off |
| UserAdDetailsScreen.PressPower | mobile-app/src/screens/UserAdDetails.tsx:163-169 | The button asks for `is_active` equal to the current disabled flag. Loading ends off |
| UserAdDetailsScreen.PressPowerToggles | mobile-app/src/screens/UserAdDetails.tsx:57-101 | An accepted press flips the flag and a rejected one keeps it; two accepted presses restore it |
| UserAdDetailsScreen.CardProps | mobile-app/src/screens/UserAdDetails.tsx:151-161 | The owner's card, disabled as the flag says |
| UserAdDetailsScreen.OverlayFollowsPress | mobile-app/src/screens/UserAdDetails.tsx:151-161 | After an accepted press the overlay shows iff the ad was shown enabled |
| UserAdDetailsScreen.Delete | mobile-app/src/screens/UserAdDetails.tsx:103-126 | Sends the DELETE and navigates to the list iff it is accepted |
| UserAdDetailsScreen.Edit | mobile-app/src/screens/UserAdDetails.tsx:44-55 | The edit screen gets the ad and its id, with nothing marked for removal |
| FilterModalView.Derive | mobile-app/src/components/FilterModal.tsx:59-67 | true iff only NEW is selected, false iff only USED is, undefined iff both or neither are |
| FilterModalView.InitialFilter | mobile-app/src/components/FilterModal.tsx:25-32 | Nothing is selected and every value is undefined |
| FilterModalView.Settle | mobile-app/src/components/FilterModal.tsx:59-67 | The effect brings `isNew` in line with the tags and touches nothing else |
| FilterModalView.SetTags | mobile-app/src/components/FilterModal.tsx:59-67 | Setting tags keeps trade and payments, and keeps `isNew` in line with the tags |
| FilterModalView.Handle | mobile-app/src/components/FilterModal.tsx:34-107 | Apply emits the current three values, clears the tags, keeps trade and payments, and toggles the modal. Reset emits `{}`, clears everything and does not toggle. A tag press negates its tag. Trade goes true to false, otherwise to true. Payments are set |
| FilterModalView.SyncedAfterAll | mobile-app/src/components/FilterModal.tsx:59-67 | Any sequence of events keeps `isNew` in line with the tags |
| FilterModalView.AlwaysSynced | mobile-app/src/components/FilterModal.tsx:59-67 | From mount on, `isNew` always matches the tags |
| FilterModalView.TagPressInvolution | mobile-app/src/components/FilterModal.tsx:81-94 | Two presses of a tag restore the state |
| FilterModalView.ConditionFromTags | mobile-app/src/components/FilterModal.tsx:59-67 | Only NEW then Apply emits `is_new` true; both tags emit no condition |
| FilterModalView.ReapplyDropsCondition | mobile-app/src/components/FilterModal.tsx:34-44 | A second Apply in a row drops the condition but keeps trade and payments |
| AdFlows.NewAdIsPublished | mobile-app/src/screens/PreviewAd.tsx:49-77 | An ad advanced from the form is created with the form's values, price in cents, and every photo is uploaded under the returned id |
| AdFlows.BodyRoundTrip | mobile-app/src/screens/PreviewAd.tsx:118-126 | The body for a product's own parameters is the product's record, price included |
| AdFlows.UnchangedEditRoundTrip | mobile-app/src/screens/PreviewAd.tsx:115-152 | Editing an ad from the list and publishing without changes sends only the PUT of the server's own values |
| AdFlows.EditedAdUploadsAddedPhotos | mobile-app/src/screens/PreviewAd.tsx:134-152 | Photos added while editing are exactly the upload, after the PUT, under the product's id |

## Left out

- Storage, HTTP and the token interceptor are not modelled. The storage
  modules, `services/api` and `registerInterceptTokenManager` are not part
  of this model. Their results are parameters: replies, accepted flags,
  read/save flags.
- AuthContext.LoadUserData: a missing user record reads as no user, so
  nothing is restored. The storage reader is not part of this model. If it
  returned `{}` for a missing record, the app would restore the empty user
  with the bearer header when only the token pair is stored, for instance
  after a sign-out whose token removal failed.
- Concurrency is left out. The race between the interceptor's sign-out and
  `signIn`, React's state batching and the unawaited `forEach(async …)` of
  the ad-photo picker are not modelled. Each photo's work is taken in pick
  order, which is why `AddPhotos` appends in that order. In the app the
  appends may land after the loading flag is cleared.
- Floating point is left out. Prices are reals, so `price * 100` and
  `price / 100` are exact, and `toFixed(2)` is not modelled.
- The schema library's e-mail pattern is not visible. It is the parameter
  `isEmail`.
- `Date.toLocaleDateString` is left out. The avatar name takes the date
  string as a parameter.
- `toLowerCase` / `toLocaleLowerCase` are modelled on the ASCII letters only.
- Toast texts, `AppError` messages, alerts, navigation wiring and styling
  are left out. Only which toast kind appears and where navigation goes are
  modelled.
- `PhotoType` is not part of this model. A photo is (name, uri, type,
  isNew), as the screens build it.
- The image picker and the file-info call are left out. Their results are
  the `Pick` / `AdPick` values and, per asset, whether the file-info call
  resolved and the optional size it reports.
- CreateAdFormScreen.ProductErrors: the price is taken after the schema's
  number cast. Text the cast cannot read as a number (an empty field,
  "abc", or "12,50" with a comma as decimal separator) is modelled as no
  price (`None`): it fails the price rule, but the message the schema
  library gives for it is not modelled.
- AdFlows.UnchangedEditRoundTrip and AdFlows.EditedAdUploadsAddedPhotos
  skip the edit form. The real path goes from the owner's detail screen
  through EditAd into `EditAdForm`, which is not part of this model. Both
  lemmas assume that form hands the parameters to the preview unchanged.
  They also assume it appends photos the way the create form does: added
  photos marked new, stored photos left old.
- Home, SignIn, EditAd, CreateAd and the mock list are left out. They are
  fetch calls, two required-field checks and parameter plumbing around the
  modelled screens.
- AdvertisementPanel.FetchPanel: the panel's focus callback depends on
  the number of active ads, so a fetch that changes that number makes the
  focused screen fetch again. That second request is not modelled; each
  fetch is taken on its own.
- Loading flags set at the start of a request are not modelled. Every
  screen operation is taken from press to settlement, and the contracts
  speak of the state after it.
- PreviewAdScreen.Press: the error toast text is not modelled. A rejection
  inside `removeImagesFromDatabase` is rethrown as a plain error, so its
  toast shows the generic message.
- UserAdDetailsScreen.Delete: the loading flag is not involved, since the
  delete handler never sets it.

## Findings

| source | as written | input that shows it | evidently intended | confidence | as-written member | corrected member |
|---|---|---|---|---|---|---|
| mobile-app/src/screens/UserAds.tsx:102-103 | Both lists are set to the response array after a refetch. The selector still reads ACTIVE, so disabled ads are listed under "Ativos" until the selector is changed | A fetch returning one ad with `is_active` false, while the selector is ACTIVE | The shown list is the fetched list filtered by the current selector | medium, not executed | UserAdsScreen.FetchIgnoresFilter | UserAdsScreen.FetchKeepsConsistent |
| mobile-app/src/screens/UserAds.tsx:102-103 | `reverse()` works in place and returns the same array, so the second call undoes the first: both lists keep the server's order | A fetch returning two distinct ads [a, b], which shows [a, b] | Each line reverses the server list (newest first) | medium, not executed | UserAdsScreen.FetchAsWrittenKeepsServerOrder | UserAdsScreen.FetchListsActiveNewestFirst |
| mobile-app/src/screens/AdDetails.tsx:82 | After a failed first fetch, loading ends with `product` still `{}`. Rendering reads `product.product_images.map`, which throws | `GET /products/<id>` rejects on the first focus | The card is drawn only for a fetched product | high that it throws, not executed | AdDetailsScreen.FailedFirstFetchThrows | AdDetailsScreen.ScreenOf |
