/**
 * The company profile the page receives and the field-by-field merge with
 * the page's fixed defaults.
 */
module Profile {
  import opened Wrappers

  /** A primary call-to-action link. */
  datatype Action = Action(
    id: string, title: string, subtitle: Option<string>, href: string, icon: Option<string>)

  /** A secondary link to a social platform: an action without an icon slot. */
  datatype SocialLink = SocialLink(id: string, title: string, subtitle: Option<string>, href: string)

  /** The attribution line at the bottom of the page. */
  datatype Footer = Footer(text: string, linkText: string, href: string)

  /** The received record; `primaryColor` and `about` are carried but never used. */
  datatype CompanyProfile = CompanyProfile(
    handle: string,
    name: Option<string>,
    primaryColor: Option<string>,
    background: Option<string>,
    logo: Option<string>,
    about: Option<string>,
    actions: Option<seq<Action>>,
    socials: Option<seq<SocialLink>>,
    footer: Option<Footer>)

  /** The values the page renders with, after defaults are applied. */
  datatype Resolved = Resolved(
    color: string,
    background: string,
    logo: string,
    handle: string,
    actions: seq<Action>,
    socials: seq<SocialLink>)

  const AccentColor: string := "#fff"
  const DefaultBackground: string := "#ffffff"
  const DefaultLogo: string := "/ogo.png"
  const DefaultHandle: string := "kengmakon"
  const DefaultPhoneHref: string := "tel:+998983003676"
  const DefaultCatalogHref: string := "https://kengmakon.uz/catalog/spalnyy-garnitur"
  const DefaultTelegramHref: string := "https://t.me/kengmakonuz"
  const DefaultInstagramHref: string := "https://www.instagram.com/kengmakon.uzb/"
  const DefaultFacebookHref: string := "https://www.facebook.com/profile.php?id=100085820027934"

  /** The phone and catalog actions shown when the profile brings none. */
  const DefaultActions: seq<Action> := [
    Action("call", "Звонок", Some("Позвоните для подробной информации"), DefaultPhoneHref, Some("📞")),
    Action("catalog", "Каталог", Some("Ознакомьтесь с нашим каталогом"), DefaultCatalogHref, Some("📘"))
  ]

  /** The three social links shown when the profile brings none. */
  const DefaultSocials: seq<SocialLink> := [
    SocialLink("telegram", "Telegram", Some("Подпишитесь на наш канал"), DefaultTelegramHref),
    SocialLink("instagram", "Instagram", Some("Следите за новостями"), DefaultInstagramHref),
    SocialLink("facebook", "Facebook", Some("Будьте в курсе новостей"), DefaultFacebookHref)
  ]

  /** The default actions: a phone call by `tel:` link, then the catalog by https link, both with icons. */
  lemma DefaultActionsShape()
    ensures |DefaultActions| == 2
    ensures DefaultActions[0].id == "call" && DefaultActions[1].id == "catalog"
    ensures DefaultActions[0].href == "tel:+998983003676"
    ensures DefaultActions[1].href == "https://kengmakon.uz/catalog/spalnyy-garnitur"
    ensures forall i :: 0 <= i < 2 ==> DefaultActions[i].icon.Some? && DefaultActions[i].subtitle.Some?
  {
  }

  /** The default social links: Telegram, Instagram and Facebook, in that order, none with an icon slot. */
  lemma DefaultSocialsShape()
    ensures |DefaultSocials| == 3
    ensures DefaultSocials[0].id == "telegram" && DefaultSocials[1].id == "instagram"
    ensures DefaultSocials[2].id == "facebook"
    ensures DefaultSocials[0].href == "https://t.me/kengmakonuz"
    ensures DefaultSocials[1].href == "https://www.instagram.com/kengmakon.uzb/"
    ensures DefaultSocials[2].href == "https://www.facebook.com/profile.php?id=100085820027934"
    ensures forall j :: 0 <= j < 3 ==> DefaultSocials[j].subtitle.Some?
  {
  }

  /** `(v && v.length > 0) ? v : d`: a list counts only when present and non-empty. */
  function ListOr<T>(v: Option<seq<T>>, d: seq<T>): (r: seq<T>)
    ensures v.Some? && v.value != [] ==> r == v.value
    ensures v.None? || v.value == [] ==> r == d
  {
    if v.Some? && |v.value| > 0 then v.value else d
  }

  /** Merges the received profile with the defaults, field by field. */
  function Resolve(p: CompanyProfile): (r: Resolved)
    // the accent colour is fixed, whatever `primaryColor` says
    ensures r.color == "#fff"
    // `??`: any present background is kept, even the empty one
    ensures p.background.Some? ==> r.background == p.background.value
    ensures p.background.None? ==> r.background == "#ffffff"
    // `||`: an empty logo or handle falls back too
    ensures p.logo.Some? && p.logo.value != "" ==> r.logo == p.logo.value
    ensures p.logo.None? || p.logo.value == "" ==> r.logo == "/ogo.png"
    ensures p.handle != "" ==> r.handle == p.handle
    ensures p.handle == "" ==> r.handle == "kengmakon"
    ensures r.logo != "" && r.handle != ""
    // lists: a present, non-empty list is used as is; otherwise the defaults
    ensures p.actions.Some? && p.actions.value != [] ==> r.actions == p.actions.value
    ensures p.actions.None? || p.actions.value == [] ==> r.actions == DefaultActions
    ensures p.socials.Some? && p.socials.value != [] ==> r.socials == p.socials.value
    ensures p.socials.None? || p.socials.value == [] ==> r.socials == DefaultSocials
    ensures r.actions != [] && r.socials != []
  {
    Resolved(
      AccentColor,
      NullishOr(p.background, DefaultBackground),
      FalsyOr(p.logo, DefaultLogo),
      FalsyOr(Some(p.handle), DefaultHandle),
      ListOr(p.actions, DefaultActions),
      ListOr(p.socials, DefaultSocials))
  }

  /** The fields the page never reads do not change what it renders with. */
  lemma ResolveIgnoresInertFields(p: CompanyProfile, q: CompanyProfile)
    requires p.background == q.background && p.logo == q.logo && p.handle == q.handle
    requires p.actions == q.actions && p.socials == q.socials
    ensures Resolve(p) == Resolve(q)
  {
  }

  /** Resolving a resolved profile again changes nothing: the defaults are fixed points. */
  lemma ResolveIdempotent(p: CompanyProfile)
    ensures var r := Resolve(p);
      Resolve(CompanyProfile(r.handle, p.name, p.primaryColor, Some(r.background), Some(r.logo),
                             p.about, Some(r.actions), Some(r.socials), p.footer)) == r
  {
  }

  /** An empty action list is treated like an absent one. */
  lemma EmptyListsLikeAbsent(p: CompanyProfile)
    ensures Resolve(p.(actions := Some([]))) == Resolve(p.(actions := None))
    ensures Resolve(p.(socials := Some([]))) == Resolve(p.(socials := None))
  {
  }
}
