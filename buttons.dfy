/** The `Button` component: one full-width link shared by actions and social links. */
module Buttons {
  import opened Wrappers
  import opened JsString

  const BlankTarget: string := "_blank"
  const SafeRel: string := "noopener noreferrer"

  /** What a rendered button carries, apart from its fixed styling. */
  datatype ButtonView = ButtonView(
    href: string,
    target: Option<string>,
    rel: Option<string>,
    caption: string,
    subtitleLine: Option<string>,
    color: string)  // text colour of the caption and subtitle lines

  /** A link that opens in a new browsing context without opener or referrer. */
  predicate OpensExternally(v: ButtonView)
  {
    v.target == Some(BlankTarget) && v.rel == Some(SafeRel)
  }

  /** A link that opens in the current context. */
  predicate OpensInline(v: ButtonView)
  {
    v.target.None? && v.rel.None?
  }

  /** Renders one button from its properties. */
  function Render(href: string, title: string, subtitle: Option<string>, icon: Option<string>,
                  color: string): (v: ButtonView)
    ensures v.href == href && v.color == color
    // http(s)-looking links open in a new context with the safe-link relation
    ensures StartsWith(href, "http") <==> OpensExternally(v)
    ensures !StartsWith(href, "http") <==> OpensInline(v)
    // a present, non-empty icon and a space prefix the title
    ensures icon.Some? && icon.value != "" ==> v.caption == icon.value + " " + title
    ensures icon.None? || icon.value == "" ==> v.caption == title
    // the subtitle line exists only for a non-empty subtitle, and shows it
    ensures v.subtitleLine.Some? <==> subtitle.Some? && subtitle.value != ""
    ensures v.subtitleLine.Some? ==> v.subtitleLine == subtitle
  {
    var external := StartsWith(href, "http");
    ButtonView(
      href,
      if external then Some(BlankTarget) else None,
      if external then Some(SafeRel) else None,
      (if Truthy(icon) then icon.value + " " else "") + title,
      if Truthy(subtitle) then subtitle else None,
      color)
  }

  /** The caption always ends with the title, and is longer exactly when an icon shows. */
  lemma CaptionEndsWithTitle(href: string, title: string, subtitle: Option<string>,
                           icon: Option<string>, color: string)
    ensures var l := Render(href, title, subtitle, icon, color).caption;
      |l| >= |title| && l[|l| - |title|..] == title
      && (|l| > |title| <==> Truthy(icon))
  {
  }

  /** A `tel:` link (the default phone action) opens in the current context. */
  lemma TelLinkOpensInline(href: string, title: string, subtitle: Option<string>,
                           icon: Option<string>, color: string)
    requires StartsWith(href, "tel:")
    ensures OpensInline(Render(href, title, subtitle, icon, color))
  {
  }
}
