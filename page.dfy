/**
 * The `Home` page as an ordered sequence of abstract elements: logo badge,
 * heading, action buttons, divider, social buttons and an optional footer.
 */
module Page {
  import opened Wrappers
  import opened Profile
  import opened Buttons

  datatype Image = Image(src: string, alt: string)

  /** A plain link, as used in the footer line. */
  datatype Anchor = Anchor(href: string, target: Option<string>, rel: Option<string>, text: string)

  datatype Element =
    | LogoBadge(image: Option<Image>)
    | Heading(text: string)
    | Button(view: ButtonView)
    | Divider
    | FooterLine(text: string, link: Anchor)

  /** The rendered page: its background colour and its elements, top to bottom. */
  datatype View = View(background: string, body: seq<Element>)

  /** An action becomes a button with its icon slot, in the page's text colour. */
  function ActionView(a: Action, color: string): (v: ButtonView)
    ensures v.href == a.href && v.color == color
    ensures a.icon.Some? && a.icon.value != "" ==> v.caption == a.icon.value + " " + a.title
    ensures a.icon.None? || a.icon.value == "" ==> v.caption == a.title
  {
    Render(a.href, a.title, a.subtitle, a.icon, color)
  }

  /** A social link becomes a button without an icon: its caption is the bare title. */
  function SocialView(s: SocialLink, color: string): (v: ButtonView)
    ensures v.href == s.href && v.color == color && v.caption == s.title
  {
    Render(s.href, s.title, s.subtitle, None, color)
  }

  /** One button per action, in list order. */
  function ActionButtons(acts: seq<Action>, color: string): (es: seq<Element>)
    ensures |es| == |acts|
    ensures forall i :: 0 <= i < |acts| ==> es[i] == Button(ActionView(acts[i], color))
  {
    if acts == [] then [] else [Button(ActionView(acts[0], color))] + ActionButtons(acts[1..], color)
  }

  /** One button per social link, in list order. */
  function SocialButtons(socials: seq<SocialLink>, color: string): (es: seq<Element>)
    ensures |es| == |socials|
    ensures forall j :: 0 <= j < |socials| ==> es[j] == Button(SocialView(socials[j], color))
  {
    if socials == [] then [] else [Button(SocialView(socials[0], color))] + SocialButtons(socials[1..], color)
  }

  /** The badge shows the logo image only for a non-empty logo; its alt text prefers `name`. */
  function Badge(p: CompanyProfile, r: Resolved): (e: Element)
    ensures e.LogoBadge?
    ensures e.image.Some? <==> r.logo != ""
    ensures e.image.Some? ==> e.image.value.src == r.logo
    ensures e.image.Some? && p.name.Some? ==> e.image.value.alt == p.name.value + " logo"
    ensures e.image.Some? && p.name.None? ==> e.image.value.alt == r.handle + " logo"
  {
    LogoBadge(if r.logo != "" then Some(Image(r.logo, NullishOr(p.name, r.handle) + " logo")) else None)
  }

  /** The footer line: literal text, then a link that always opens in a new context. */
  function FooterOf(f: Footer): (e: Element)
    ensures e.FooterLine? && e.text == f.text
    ensures e.link.href == f.href && e.link.text == f.linkText
    ensures e.link.target == Some(BlankTarget) && e.link.rel == Some(SafeRel)
  {
    FooterLine(f.text, Anchor(f.href, Some(BlankTarget), Some(SafeRel), f.linkText))
  }

  /** The footer, if the received profile has one; there is no default footer. */
  function FooterPart(p: CompanyProfile): (es: seq<Element>)
    ensures |es| == (if p.footer.Some? then 1 else 0)
    ensures p.footer.Some? ==> es[0] == FooterOf(p.footer.value)
  {
    if p.footer.Some? then [FooterOf(p.footer.value)] else []
  }

  /** Lays out the parts of the page in their fixed order. */
  function Assemble(badge: Element, heading: Element, acts: seq<Element>, socs: seq<Element>,
                    foot: seq<Element>): (e: seq<Element>)
    ensures |e| == 3 + |acts| + |socs| + |foot|
    ensures e[0] == badge && e[1] == heading && e[2 + |acts|] == Divider
    ensures forall i :: 0 <= i < |acts| ==> e[2 + i] == acts[i]
    ensures forall j :: 0 <= j < |socs| ==> e[3 + |acts| + j] == socs[j]
    ensures forall k :: 0 <= k < |foot| ==> e[3 + |acts| + |socs| + k] == foot[k]
  {
    [badge, heading] + acts + [Divider] + socs + foot
  }

  /** The whole page for a received profile. */
  function Home(p: CompanyProfile): (v: View)
    ensures var r := Resolve(p);
      var a, s, e := |r.actions|, |r.socials|, v.body;
      && v.background == r.background
      && |e| == 3 + a + s + |FooterPart(p)|
      && e[0] == Badge(p, r)
      && e[1] == Heading(r.handle)
      && (forall i :: 0 <= i < a ==> e[2 + i] == Button(ActionView(r.actions[i], r.color)))
      && e[2 + a] == Divider
      && (forall j :: 0 <= j < s ==> e[3 + a + j] == Button(SocialView(r.socials[j], r.color)))
      && (p.footer.Some? ==> e[3 + a + s] == FooterOf(p.footer.value))
  {
    var r := Resolve(p);
    View(r.background, Assemble(Badge(p, r), Heading(r.handle), ActionButtons(r.actions, r.color),
                                SocialButtons(r.socials, r.color), FooterPart(p)))
  }

  /** Number of button elements in a sequence. */
  function CountButtons(es: seq<Element>): nat
  {
    if es == [] then 0 else (if es[0].Button? then 1 else 0) + CountButtons(es[1..])
  }

  lemma {:induction false} CountButtonsAppend(x: seq<Element>, y: seq<Element>)
    ensures CountButtons(x + y) == CountButtons(x) + CountButtons(y)
  {
    if x == [] {
      assert x + y == y;
    } else {
      assert (x + y)[0] == x[0] && (x + y)[1..] == x[1..] + y;
      CountButtonsAppend(x[1..], y);
    }
  }

  lemma {:induction false} CountActionButtons(acts: seq<Action>, color: string)
    ensures CountButtons(ActionButtons(acts, color)) == |acts|
  {
    if acts != [] {
      CountActionButtons(acts[1..], color);
    }
  }

  lemma {:induction false} CountSocialButtons(socials: seq<SocialLink>, color: string)
    ensures CountButtons(SocialButtons(socials, color)) == |socials|
  {
    if socials != [] {
      CountSocialButtons(socials[1..], color);
    }
  }

  /** Only the two button sections of an assembled page hold buttons. */
  lemma CountAssembled(badge: Element, heading: Element, acts: seq<Element>, socs: seq<Element>,
                       foot: seq<Element>)
    requires !badge.Button? && !heading.Button? && CountButtons(foot) == 0
    ensures CountButtons(Assemble(badge, heading, acts, socs, foot))
         == CountButtons(acts) + CountButtons(socs)
  {
    var head := [badge, heading];
    assert Assemble(badge, heading, acts, socs, foot) == head + acts + [Divider] + socs + foot;
    CountButtonsAppend(head + acts + [Divider] + socs, foot);
    CountButtonsAppend(head + acts + [Divider], socs);
    CountButtonsAppend(head + acts, [Divider]);
    CountButtonsAppend(head, acts);
    assert CountButtons(head) == 0 by {
      assert head[1..] == [heading];
    }
  }

  /** The page holds exactly one button per resolved action and social link. */
  lemma ButtonCount(p: CompanyProfile)
    ensures CountButtons(Home(p).body) == |Resolve(p).actions| + |Resolve(p).socials|
  {
    var r := Resolve(p);
    var foot := FooterPart(p);
    assert CountButtons(foot) == 0 by {
      if p.footer.Some? { assert foot[1..] == []; }
    }
    CountAssembled(Badge(p, r), Heading(r.handle), ActionButtons(r.actions, r.color),
                   SocialButtons(r.socials, r.color), foot);
    CountActionButtons(r.actions, r.color);
    CountSocialButtons(r.socials, r.color);
  }

  /** The divider is the only one, and it sits right after the action buttons. */
  lemma DividerSeparatesGroups(p: CompanyProfile)
    ensures forall i :: 0 <= i < |Home(p).body| && Home(p).body[i].Divider? ==>
      i == 2 + |Resolve(p).actions|
  {
    var r := Resolve(p);
    var e := Home(p).body;
    var a, n := |r.actions|, 3 + |r.actions| + |r.socials|;
    forall i | 0 <= i < |e| && i != 2 + a ensures !e[i].Divider? {
      if 2 <= i < 2 + a {
        assert e[2 + (i - 2)].Button?;
      } else if 3 + a <= i < n {
        assert e[3 + a + (i - 3 - a)].Button?;
      } else if n <= i {
        assert e[n + (i - n)].FooterLine?;
      }
    }
  }

  /** A footer element occurs if and only if the received profile has a footer. */
  lemma FooterIffPresent(p: CompanyProfile)
    ensures (exists i :: 0 <= i < |Home(p).body| && Home(p).body[i].FooterLine?) <==> p.footer.Some?
    ensures forall i :: 0 <= i < |Home(p).body| && Home(p).body[i].FooterLine? ==>
      Home(p).body[i].link.target == Some(BlankTarget) && Home(p).body[i].link.rel == Some(SafeRel)
  {
    var r := Resolve(p);
    var e := Home(p).body;
    var n := 3 + |r.actions| + |r.socials|;
    assert forall i :: 0 <= i < n ==> !e[i].FooterLine? by {
      forall i | 0 <= i < n ensures !e[i].FooterLine? {
        if 2 <= i < 2 + |r.actions| {
          assert e[2 + (i - 2)].Button?;
        } else if 3 + |r.actions| <= i {
          assert e[3 + |r.actions| + (i - 3 - |r.actions|)].Button?;
        }
      }
    }
    if p.footer.Some? {
      assert e[n].FooterLine?;
    } else {
      assert |e| == n;
    }
  }

  /** Every button on the page is drawn in `#fff`, whatever the profile says. */
  lemma ButtonsUseAccentColor(p: CompanyProfile)
    ensures forall i :: 0 <= i < |Home(p).body| && Home(p).body[i].Button? ==>
      Home(p).body[i].view.color == "#fff"
  {
    var r := Resolve(p);
    var e := Home(p).body;
    forall i | 0 <= i < |e| && e[i].Button? ensures e[i].view.color == "#fff" {
      if 2 <= i < 2 + |r.actions| {
        assert e[2 + (i - 2)] == Button(ActionView(r.actions[i - 2], r.color));
      } else if 3 + |r.actions| <= i < 3 + |r.actions| + |r.socials| {
        assert e[3 + |r.actions| + (i - 3 - |r.actions|)]
            == Button(SocialView(r.socials[i - 3 - |r.actions|], r.color));
      }
    }
  }

  /** `primaryColor` and `about` are accepted but never change the page. */
  lemma HomeIgnoresInertFields(p: CompanyProfile, c: Option<string>, t: Option<string>)
    ensures Home(p.(primaryColor := c, about := t)) == Home(p)
  {
    ResolveIgnoresInertFields(p.(primaryColor := c, about := t), p);
  }

  /** Resolved logos are never empty, so the logo image is always shown. */
  lemma LogoImageAlwaysShown(p: CompanyProfile)
    ensures Home(p).body[0].image.Some?
    ensures Home(p).body[0].image.value.src == Resolve(p).logo
  {
  }

  /** A profile carrying only a handle renders with every default and no footer. */
  lemma HandleOnlyProfile(x: string)
    requires x != ""
    ensures var p := CompanyProfile(x, None, None, None, None, None, None, None, None);
      var v := Home(p);
      && v.background == "#ffffff"
      && v.body[0] == LogoBadge(Some(Image("/ogo.png", x + " logo")))
      && v.body[1] == Heading(x)
      && |v.body| == 8
      && v.body[2] == Button(ActionView(DefaultActions[0], "#fff"))
      && v.body[3] == Button(ActionView(DefaultActions[1], "#fff"))
      && v.body[4] == Divider
      && v.body[5] == Button(SocialView(DefaultSocials[0], "#fff"))
      && v.body[6] == Button(SocialView(DefaultSocials[1], "#fff"))
      && v.body[7] == Button(SocialView(DefaultSocials[2], "#fff"))
  {
  }

  /** The default phone action is a `tel:` link and opens in the current context. */
  lemma DefaultCallOpensInline()
    ensures OpensInline(ActionView(DefaultActions[0], AccentColor))
  {
    var a := DefaultActions[0];
    assert a.href == "tel:" + "+998983003676";
    TelLinkOpensInline(a.href, a.title, a.subtitle, a.icon, AccentColor);
  }

  /** The default catalog action is an https link and opens in a new context. */
  lemma DefaultCatalogOpensExternally()
    ensures OpensExternally(ActionView(DefaultActions[1], AccentColor))
  {
    DefaultCatalogIsHttp();
    HttpActionOpensExternally(DefaultActions[1], AccentColor);
  }

  lemma DefaultCatalogIsHttp()
    ensures JsString.StartsWith(DefaultActions[1].href, "http")
  {
    JsString.StartsWithConcat("http", "s://kengmakon.uz/catalog/spalnyy-garnitur");
  }

  lemma HttpActionOpensExternally(a: Action, color: string)
    requires JsString.StartsWith(a.href, "http")
    ensures OpensExternally(ActionView(a, color))
  {
  }
}
