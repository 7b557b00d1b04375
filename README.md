# km-link landing page — Dafny model

A model of the decision logic of the "link-in-bio" landing page in
`src/app/page.tsx`. The page renders a business profile: a logo badge, the
handle as a heading, call-to-action buttons, a divider, social-link buttons
and an optional footer. Before rendering it works out the absolute address
of the profile endpoint and merges the received profile with fixed
defaults. Everything modelled is pure, so it is written as datatypes,
functions and lemmas:

- `Wrappers` (wrappers.dfy): `Option`, and the JavaScript operators `??`
  (only an absent value is replaced) and `||` on strings (an absent or empty
  value is replaced).
- `JsString` (js_string.dfy): `trim` with the ECMAScript white-space set,
  `startsWith`, the test `/^https?:\/\//i` and `replace(/\/$/, "")`.
- `BaseUrl` (base_url.dfy): the base-URL choice of `getCompany` and the
  query URL `{base}/api/open/data/company`.
- `Profile` (profile.dfy): `CompanyProfile` and the field-by-field merge with
  the defaults.
- `Buttons` (buttons.dfy): the `Button` component's link and caption rule.
- `Page` (page.dfy): the page as an ordered sequence of abstract elements.

The configured base address (`NEXT_PUBLIC_BASE_URL`) and the three request
headers (`x-forwarded-proto`, `x-forwarded-host`, `host`) are parameters of
type `Option<string>`. The received profile is a typed input.

Three details of the code that are easy to miss:

- `background` uses `??`, so a received empty string is kept. Only `logo` and
  `handle` fall back when empty.
- The configured base loses exactly one trailing slash. `https://example.com//`
  still produces a double slash before the path (`ExampleDoubleTrailingSlash`).
- A configured bare `http://` is accepted. It becomes the base `http:/`.

## Model

| member | source | states |
|---|---|---|
| `Wrappers.NullishOr` | src/app/page.tsx:89 | `a ?? d` keeps any present value, including `""`, and gives `d` only when absent |
| `Wrappers.Coalesce` | src/app/page.tsx:22 | `a ?? b` is `a` when present, else `b` |
| `Wrappers.FalsyOr` | src/app/page.tsx:90-91 | the `or` fallback keeps a present non-empty value and gives `d` for absent or empty |
| `JsString.Trim` | src/app/page.tsx:24 | the result is a slice of the input with only white space cut from both ends, and it has no white space at either end |
| `JsString.TrimUnique` | src/app/page.tsx:24 | any white-space-bordered slice without edge white space equals `Trim`, so `Trim` is the unique such cut |
| `JsString.TrimIdempotent` | src/app/page.tsx:24 | trimming twice equals trimming once |
| `JsString.TrimIgnoresPadding` | src/app/page.tsx:24 | white space added around a value does not change its trim |
| `JsString.TrimKeeps` | src/app/page.tsx:24 | a string without edge white space is its own trim |
| `JsString.StartsWith` | src/app/page.tsx:53-54 | `startsWith` holds exactly when the prefix is no longer than the string and agrees with it code point by code point |
| `JsString.MatchesHttpScheme` | src/app/page.tsx:25 | the backtracking regex `^https?://` with the `i` flag accepts exactly strings starting with `http://` or `https://` in any ASCII letter case |
| `JsString.StripTrailingSlash` | src/app/page.tsx:26 | the result is a prefix of the input; one final `/` is removed when present, otherwise the input is unchanged |
| `BaseUrl.ResolvedHost` | src/app/page.tsx:20-22 | a present `x-forwarded-host` wins, even when empty; `host` is used only when it is absent |
| `BaseUrl.EnvBase` | src/app/page.tsx:24 | the configured base is present exactly when set, and is then its trim |
| `BaseUrl.EnvAcceptedIff` | src/app/page.tsx:24-25 | the truthiness-and-regex test accepts exactly a configured value whose trim starts with an http(s) scheme |
| `BaseUrl.ResolveBase` | src/app/page.tsx:19-29 | in order: an accepted configured base, less one trailing `/`, whatever the headers say; else `(proto ?? "http") + "://" + host` for a non-empty resolved host; else `http://localhost:3000`; an empty forwarded host hides `host`; the base is never empty |
| `BaseUrl.CompanyQueryUrl` | src/app/page.tsx:31 | the query URL is the base followed by `/api/open/data/company` |
| `BaseUrl.EnvOverridesHeaders` | src/app/page.tsx:24-28 | with an accepted configured base the headers do not affect the query URL |
| `BaseUrl.EnvPaddingIgnored` | src/app/page.tsx:24 | white space around the configured base does not change the query URL |
| `BaseUrl.SingleSlashAtJoin` | src/app/page.tsx:26-31 | when the accepted base does not end in `//`, the base does not end in `/`, so the join with the path has one slash |
| `BaseUrl.AcceptedAddressUrl` | src/app/page.tsx:24-31 | an accepted base without edge white space gives itself, minus a final `/`, followed by the path |
| `BaseUrl.ExampleTrailingSlash` | src/app/page.tsx:25-31 | `https://example.com/` gives `https://example.com/api/open/data/company` |
| `BaseUrl.ExampleDoubleTrailingSlash` | src/app/page.tsx:26-31 | `https://example.com//` keeps one slash, giving `https://example.com//api/open/data/company` |
| `BaseUrl.ExampleMalformedEnv` | src/app/page.tsx:25-31 | a configured `example.com` is ignored; with host `shop.uz` the URL is `http://shop.uz/api/open/data/company` |
| `Profile.ListOr` | src/app/page.tsx:93-94 | a list is used when present and non-empty; otherwise the default list is used |
| `Profile.DefaultActionsShape` | src/app/page.tsx:95-110 | the default actions are `call` (a `tel:+998983003676` link) then `catalog` (an https link to the catalog), both with an icon and a subtitle |
| `Profile.DefaultSocialsShape` | src/app/page.tsx:114-118 | the default social links are `telegram`, `instagram`, `facebook` in that order, with their fixed https links and subtitles |
| `Profile.Resolve` | src/app/page.tsx:88-118 | colour is always `#fff`; background is kept whenever present, even `""`, else `#ffffff`; logo and handle fall back to `/ogo.png` and `kengmakon` when empty or absent; a present non-empty actions or socials list is used as is, otherwise exactly `DefaultActions` or `DefaultSocials`; logo, handle, actions and socials are never empty |
| `Profile.ResolveIgnoresInertFields` | src/app/page.tsx:88-118 | `name`, `primaryColor`, `about` and `footer` do not affect the merged values |
| `Profile.ResolveIdempotent` | src/app/page.tsx:89-118 | feeding the merged values back in reproduces them |
| `Profile.EmptyListsLikeAbsent` | src/app/page.tsx:93-118 | an empty actions or socials list merges like an absent one |
| `Buttons.Render` | src/app/page.tsx:37-69 | `target="_blank"` and `rel="noopener noreferrer"` are set iff `href` starts with `http`, else both are unset; the caption is `icon + " " + title` for a non-empty icon, else `title`; the subtitle line exists iff the subtitle is non-empty; the colour passed in is the text colour |
| `Buttons.CaptionEndsWithTitle` | src/app/page.tsx:62 | the caption ends with the title and is longer than it exactly when an icon shows |
| `Buttons.TelLinkOpensInline` | src/app/page.tsx:53-54 | a `tel:` link sets neither `target` nor `rel` |
| `Page.ActionView` | src/app/page.tsx:148-150 | an action's button links to its href, shows `icon + " " + title` for a non-empty icon and the bare title otherwise, in the colour passed down |
| `Page.SocialView` | src/app/page.tsx:159-160 | a social link's button links to its href, shows the bare title (no icon slot), in the colour passed down |
| `Page.ActionButtons` | src/app/page.tsx:148-151 | one button per action, in list order, each with its icon slot |
| `Page.SocialButtons` | src/app/page.tsx:159-161 | one button per social link, in list order, without an icon |
| `Page.Badge` | src/app/page.tsx:125-142 | the badge shows an image iff the logo is non-empty, with the logo as source and `(name ?? handle) + " logo"` as alt text |
| `Page.FooterOf` | src/app/page.tsx:164-169 | the footer line carries the text, and a link with the footer's href and link text that always opens in a new context |
| `Page.FooterPart` | src/app/page.tsx:164 | one footer element when the received profile has a footer, none otherwise |
| `Page.Assemble` | src/app/page.tsx:120-172 | badge, heading, action buttons, divider, social buttons, footer, in that order |
| `Page.Home` | src/app/page.tsx:120-172 | the body is badge, heading, one button per resolved action at positions 2.., the divider right after them, one button per resolved social link after it, and the footer last when present; the background is the merged one |
| `Page.CountButtonsAppend` | src/app/page.tsx:147-162 | the button count of a concatenation is the sum of the counts |
| `Page.CountActionButtons` | src/app/page.tsx:148-151 | the action section holds exactly one button per action |
| `Page.CountSocialButtons` | src/app/page.tsx:159-161 | the social section holds exactly one button per social link |
| `Page.CountAssembled` | src/app/page.tsx:120-172 | only the two button sections of the assembled page hold buttons |
| `Page.ButtonCount` | src/app/page.tsx:147-162 | the page holds exactly as many buttons as resolved actions and social links together |
| `Page.DividerSeparatesGroups` | src/app/page.tsx:154-156 | the only divider sits right after the action buttons |
| `Page.FooterIffPresent` | src/app/page.tsx:164-169 | a footer element occurs iff the received profile has a footer, and its link always opens in a new context |
| `Page.ButtonsUseAccentColor` | src/app/page.tsx:88-160 | every button on the page is drawn in `#fff`, whatever the profile holds |
| `Page.HomeIgnoresInertFields` | src/app/page.tsx:88-172 | changing `primaryColor` or `about` leaves the rendered page unchanged |
| `Page.LogoImageAlwaysShown` | src/app/page.tsx:136-141 | the merged logo is never empty, so the logo image is always emitted |
| `Page.HandleOnlyProfile` | src/app/page.tsx:88-172 | a profile with only handle `x` renders white background, default logo, heading `x`, two default actions, divider, three default socials and no footer |
| `Page.DefaultCallOpensInline` | src/app/page.tsx:96-102 | the default phone action (`tel:`) opens in the current context |
| `Page.DefaultCatalogOpensExternally` | src/app/page.tsx:103-109 | the default catalog action (https) opens in a new context |
| `Page.HttpActionOpensExternally` | src/app/page.tsx:53-54 | an action whose href starts with `http` opens in a new context with the safe-link relation |

## Left out

- The `headers()` call, `fetch` and `res.json()` (src/app/page.tsx:19, 31-34): request and network I/O. Header and environment values are parameters. The received profile is an already-decoded input. A failed fetch or a malformed response is not modelled.
- JSON decoding: a response missing the required `handle` would reach `||` as `undefined` at run time. The model keeps `handle` as the declared `string`, so only the empty-string fallback is covered.
- CSS classes, inline style values (the fixed dark-blue button background, image height, heading colour) and React `key` props: presentation only. The uniqueness of `id`s is not enforced by the code and is not modelled.
- src/app/api/company/route.ts is not part of this model. It returns a fixed literal, and it serves `/api/company` while the page queries `/api/open/data/company`.
- `async`/`await`: the only suspension is the network call above.
- `x-forwarded-proto` and `x-forwarded-host` values are used verbatim. Comma-separated proxy lists are not split, and neither does the code split them.
