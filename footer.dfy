/** The footer's link lists (src/components/ui/Footer.tsx): each link is
    rendered either as a plain anchor that opens in a new tab or as an
    internal client-side `Link`, with an `aria-label` falling back to the
    link's name and a spacing class on the label when there is an icon. */
module Footer {
  import opened Text

  /** A `FooterLink`; the icon is reduced to whether there is one. */
  datatype FooterLink = FooterLink(name: string, href: string, external: Option<bool>, hasIcon: bool, ariaLabel: Option<string>)

  datatype LinkKind = NewTabAnchor | InternalLink

  /** The rendered element: its kind, `href`, `target` and `rel` (anchors
      only), `aria-label`, whether the icon span is there, and the class of
      the label span. */
  datatype LinkView = LinkView(
    kind: LinkKind, href: string, target: Option<string>, rel: Option<string>,
    ariaLabel: string, iconSpan: bool, labelClass: string)

  /** The schemes that make a link external without the flag. */
  predicate HasExternalScheme(href: string) {
    StartsWith(href, "http") || StartsWith(href, "mailto:") || StartsWith(href, "tel:")
  }

  /** The condition choosing the anchor. */
  predicate OpensInNewTab(link: FooterLink) {
    link.external == Some(true) || HasExternalScheme(link.href)
  }

  /** `link.ariaLabel || link.name` */
  function AriaLabel(link: FooterLink): (text: string)
    ensures Truthy(link.ariaLabel) ==> text == link.ariaLabel.value
    ensures !Truthy(link.ariaLabel) ==> text == link.name
  {
    if Truthy(link.ariaLabel) then link.ariaLabel.value else link.name
  }

  /** One list item's link. */
  function RenderLink(link: FooterLink): LinkView {
    var text := if Truthy(link.ariaLabel) then link.ariaLabel.value else link.name;
    var labelClass := if link.hasIcon then "ml-2" else "";
    if link.external == Some(true) || StartsWith(link.href, "http") || StartsWith(link.href, "mailto:") || StartsWith(link.href, "tel:") then
      LinkView(NewTabAnchor, link.href, Some("_blank"), Some("noopener noreferrer"), text, link.hasIcon, labelClass)
    else
      LinkView(InternalLink, link.href, None, None, text, link.hasIcon, labelClass)
  }

  /** A link opens in a new tab, with `noopener noreferrer`, exactly when
      it is flagged external or its `href` has one of the three schemes;
      every other link is internal and has no target. Both kinds keep the
      `href` and use the same label rules. */
  lemma RenderLinkKinds(link: FooterLink)
    ensures RenderLink(link).kind == NewTabAnchor <==> OpensInNewTab(link)
    ensures RenderLink(link).kind == NewTabAnchor ==>
      RenderLink(link).target == Some("_blank") && RenderLink(link).rel == Some("noopener noreferrer")
    ensures RenderLink(link).kind == InternalLink ==> RenderLink(link).target.None? && RenderLink(link).rel.None?
    ensures RenderLink(link).href == link.href
    ensures RenderLink(link).ariaLabel == AriaLabel(link)
    ensures RenderLink(link).iconSpan == link.hasIcon
    ensures RenderLink(link).labelClass == "ml-2" <==> link.hasIcon
    ensures !link.hasIcon ==> RenderLink(link).labelClass == ""
  {
  }

  /** The flag wins whatever the `href`. */
  lemma FlagWins(link: FooterLink)
    requires link.external == Some(true)
    ensures RenderLink(link).kind == NewTabAnchor
  {
  }

  /** A site-relative `href` has none of the external schemes. */
  lemma RelativeHasNoScheme(href: string)
    requires href != [] && href[0] == '/'
    ensures !HasExternalScheme(href)
  {
    assert !StartsWith(href, "http") by {
      if |href| >= 4 { assert href[..4][0] == '/'; }
    }
    assert !StartsWith(href, "mailto:") by {
      if |href| >= 7 { assert href[..7][0] == '/'; }
    }
    assert !StartsWith(href, "tel:") by {
      if |href| >= 4 { assert href[..4][0] == '/'; }
    }
  }

  // ---------------------------------------------------------------- the site's lists

  /** The "Resources" section. */
  const Resources: seq<FooterLink> := [
    FooterLink("Documentation", "/docs", Some(true), false, Some("View documentation")),
    FooterLink("Guides", "/guides", None, false, Some("Read our guides")),
    FooterLink("API Status", "https://status.admybrand.com", Some(true), false, Some("Check API status")),
    FooterLink("Help Center", "/help", None, false, Some("Get help from our support center")),
    FooterLink("Community", "https://community.admybrand.com", Some(true), false, Some("Join our community"))
  ]

  /** The "Contact" section. */
  const Contact: seq<FooterLink> := [
    FooterLink("hello@admybrand.com", "mailto:hello@admybrand.com", None, true, Some("Email us at hello@admybrand.com")),
    FooterLink("+1 (555) 123-4567", "tel:+15551234567", None, true, Some("Call us at +1 (555) 123-4567")),
    FooterLink("123 Business St, San Francisco, CA 94107", "https://maps.google.com", Some(true), true, Some("View our location on Google Maps"))
  ]

  /** In "Resources", the relative `/docs` opens in a new tab because of
      its flag, while `/guides` and `/help` stay internal. */
  lemma ResourcesClassified()
    ensures RenderLink(Resources[0]).kind == NewTabAnchor
    ensures RenderLink(Resources[1]).kind == InternalLink
    ensures RenderLink(Resources[2]).kind == NewTabAnchor
    ensures RenderLink(Resources[3]).kind == InternalLink
    ensures RenderLink(Resources[4]).kind == NewTabAnchor
  {
    RelativeHasNoScheme(Resources[1].href);
    RelativeHasNoScheme(Resources[3].href);
  }

  /** The e-mail and telephone links open in a new tab by their scheme
      alone, and all three contact links carry an icon and so the spaced
      label. */
  lemma ContactClassified()
    ensures Contact[0].external.None? && HasExternalScheme(Contact[0].href)
    ensures Contact[1].external.None? && HasExternalScheme(Contact[1].href)
    ensures forall k :: 0 <= k < |Contact| ==>
      RenderLink(Contact[k]).kind == NewTabAnchor && RenderLink(Contact[k]).labelClass == "ml-2"
  {
    assert Contact[0].href[..7] == "mailto:";
    assert Contact[1].href[..4] == "tel:";
  }
}
