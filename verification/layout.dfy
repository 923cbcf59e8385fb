/** The frame every page is drawn in: the page's CSS classes, whether a
    header is drawn, and which navigation the header holds. */
module Layout {
  import opened Options
  import opened Offers

  datatype PageType = Main | Login | OfferDetails | Favorites

  datatype AuthorizationStatus = Auth | NoAuth | Unknown

  datatype UserData = UserData(email: string, avatarUrl: string)

  /** The header's navigation: the profile link (avatar, email, favourite
      count) with a sign-out link, or the sign-in link alone. */
  datatype Nav =
    | ProfileNav(avatar: Option<string>, userName: string, favoriteCount: nat)
    | SignInNav

  datatype LayoutView = LayoutView(classes: seq<string>, header: Option<Nav>)

  /** The key the page type is written as in the class table. */
  function PageTypeKey(t: PageType): string
  {
    match t
    case Main => "main"
    case Login => "login"
    case OfferDetails => "offer"
    case Favorites => "favorites"
  }

  /** Extra classes per page type. */
  const PageTypeClasses: map<string, seq<string>> := map[
    "main" := ["page--gray", "page--main"],
    "login" := ["page--gray", "page--login"],
    "favorites" := ["page--gray"],
    "offer" := []
  ]

  /** `PAGE_TYPE_CLASSES[pageType] || ['page--gray']`: the fallback applies
      only when the key is missing, since every array, the empty one
      included, is truthy. */
  function ExtraClasses(t: PageType): (r: seq<string>)
    ensures PageTypeKey(t) in PageTypeClasses ==> r == PageTypeClasses[PageTypeKey(t)]
    ensures PageTypeKey(t) !in PageTypeClasses ==> r == ["page--gray"]
  {
    var key := PageTypeKey(t);
    if key in PageTypeClasses then PageTypeClasses[key] else ["page--gray"]
  }

  /** The page's class list: `page`, then the type's classes, or `page--gray`
      when no type is given. */
  function PageClasses(pageType: Option<PageType>): (r: seq<string>)
    ensures |r| >= 1 && r[0] == "page"
    ensures forall i :: 1 <= i < |r| ==> r[i] != "page"
  {
    ["page"] + match pageType
      case None => ["page--gray"]
      case Some(t) => ExtraClasses(t)
  }

  /** The class list for each page type, written out. */
  lemma PageClassesTable()
    ensures PageClasses(Some(Main)) == ["page", "page--gray", "page--main"]
    ensures PageClasses(Some(Login)) == ["page", "page--gray", "page--login"]
    ensures PageClasses(Some(Favorites)) == ["page", "page--gray"]
    ensures PageClasses(Some(OfferDetails)) == ["page"]
    ensures PageClasses(None) == ["page", "page--gray"]
  {
  }

  /** Every page is gray except the offer page, whose empty table entry is
      used as it is. */
  lemma GrayExceptOffer(pageType: Option<PageType>)
    ensures "page--gray" in PageClasses(pageType) <==> pageType != Some(OfferDetails)
  {
    PageClassesTable();
  }

  /** The header and its navigation for the given store state. */
  function LayoutOf(pageType: Option<PageType>, status: AuthorizationStatus,
                    user: Option<UserData>, favoriteOffers: seq<Offer>): (v: LayoutView)
    ensures v.classes == PageClasses(pageType)
    ensures v.header.None? <==> pageType == Some(Login)
    ensures v.header.Some? ==> (v.header.value.ProfileNav? <==> status == Auth)
    ensures v.header.Some? && v.header.value.ProfileNav? ==>
      && v.header.value.favoriteCount == |favoriteOffers|
      && v.header.value.userName == (if user.Some? then user.value.email else "")
      && (v.header.value.avatar.Some? <==> user.Some? && user.value.avatarUrl != "")
      && (v.header.value.avatar.Some? ==> v.header.value.avatar.value == user.value.avatarUrl)
  {
    var header :=
      if pageType == Some(Login) then None
      else if status == Auth then Some(ProfileNav(Avatar(user), UserName(user), |favoriteOffers|))
      else Some(SignInNav);
    LayoutView(PageClasses(pageType), header)
  }

  /** `userData?.avatarUrl && ...`: drawn only for a present, non-empty URL. */
  function Avatar(user: Option<UserData>): (avatar: Option<string>)
    ensures avatar.Some? <==> user.Some? && user.value.avatarUrl != ""
    ensures avatar.Some? ==> avatar.value == user.value.avatarUrl
  {
    if user.Some? && user.value.avatarUrl != "" then Some(user.value.avatarUrl) else None
  }

  /** `userData?.email || ''`: an absent user and an empty email both show "". */
  function UserName(user: Option<UserData>): (name: string)
    ensures user.None? ==> name == ""
    ensures user.Some? ==> name == user.value.email
  {
    match user
    case None => ""
    case Some(u) => u.email
  }
}
