/**
 * The document head the SEO component writes (src/components/seo/SEO.tsx):
 * defaults for absent props, the composed title, the page URL, and which
 * tags share which value.
 */
module Seo {
  import opened Types

  const DefaultTitle := "Streamify - Discover Your Next Favorite TV Show"
  const DefaultDescription := "Discover trending, popular, and top-rated TV shows. Browse episodes, search for your favorites, and find your next binge-worthy series."
  const DefaultImage := "/og-image.png"
  const TitleSuffix := " | Streamify"
  const Brand := "Streamify"

  /** The component's props; None is `undefined`. */
  datatype SeoProps = SeoProps(title: Option<string>, description: Option<string>, image: Option<string>, url: Option<string>)

  datatype HeadTags = HeadTags(
    title: string,
    description: string,
    robots: string,
    ogTitle: string,
    ogDescription: string,
    ogImage: string,
    ogUrl: string,
    ogType: string,
    twitterCard: string,
    twitterTitle: string,
    twitterDescription: string,
    twitterImage: string,
    canonical: string)

  function OrDefault(value: Option<string>, default: string): string {
    if value.Some? then value.value else default
  }

  /** The default title stands alone; any other title gets " | Streamify". */
  function FullTitle(title: string): string {
    if title == DefaultTitle then title else title + TitleSuffix
  }

  /** `url ?? (window ? window.location.href : "")`; `windowHref` is None without a window. */
  function FinalUrl(url: Option<string>, windowHref: Option<string>): string {
    if url.Some? then url.value else OrDefault(windowHref, "")
  }

  predicate OccursAt(s: string, part: string, i: int) {
    0 <= i <= |s| - |part| && s[i..i + |part|] == part
  }

  ghost predicate Contains(s: string, part: string) {
    exists i :: OccursAt(s, part, i)
  }

  /** Every composed title names the site. */
  lemma FullTitleNamesBrand(title: string)
    ensures Contains(FullTitle(title), Brand)
  {
    var t := FullTitle(title);
    if title == DefaultTitle {
      assert forall i | 0 <= i < |Brand| :: DefaultTitle[i] == Brand[i];
      assert OccursAt(t, Brand, 0);
    } else {
      var i := |title| + 3;
      assert t[i..i + |Brand|] == TitleSuffix[3..];
      assert OccursAt(t, Brand, i);
    }
  }

  /** Distinct titles compose to distinct page titles (the default title does not end in the suffix). */
  lemma FullTitleInjective(t1: string, t2: string)
    requires FullTitle(t1) == FullTitle(t2)
    ensures t1 == t2
  {
    var f := FullTitle(t1);
    DefaultTitleLacksSuffix(t1);
    DefaultTitleLacksSuffix(t2);
    if t1 != DefaultTitle && t2 != DefaultTitle {
      assert t1 == f[..|f| - |TitleSuffix|] == t2;
    }
  }

  /** No title composes to the default one: the default title does not end in " | Streamify". */
  lemma DefaultTitleLacksSuffix(title: string)
    ensures title + TitleSuffix != DefaultTitle
  {
    var composed := title + TitleSuffix;
    assert composed[|composed| - 1] == 'y';
    assert DefaultTitle[|DefaultTitle| - 1] == 'w';
  }

  /** The tags the component renders for its props. */
  function Head(props: SeoProps, windowHref: Option<string>): (h: HeadTags)
    ensures h.title == h.ogTitle == h.twitterTitle == FullTitle(OrDefault(props.title, DefaultTitle))
    ensures h.description == h.ogDescription == h.twitterDescription == OrDefault(props.description, DefaultDescription)
    ensures h.ogImage == h.twitterImage == OrDefault(props.image, DefaultImage)
    ensures h.ogUrl == h.canonical == FinalUrl(props.url, windowHref)
  {
    var fullTitle := FullTitle(OrDefault(props.title, DefaultTitle));
    var description := OrDefault(props.description, DefaultDescription);
    var image := OrDefault(props.image, DefaultImage);
    var finalUrl := FinalUrl(props.url, windowHref);
    HeadTags(fullTitle, description, "index, follow", fullTitle, description, image, finalUrl,
      "website", "summary_large_image", fullTitle, description, image, finalUrl)
  }

  /**
   * With no props the head carries the three defaults, and the bare default
   * title; a given URL is used as is, even when empty, and without a URL and
   * without a window the URL is "".
   */
  lemma HeadDefaults(windowHref: Option<string>)
    ensures var h := Head(SeoProps(None, None, None, None), windowHref);
      h.title == DefaultTitle && h.description == DefaultDescription && h.ogImage == DefaultImage
    ensures Head(SeoProps(None, None, None, Some("")), windowHref).canonical == ""
    ensures Head(SeoProps(None, None, None, None), None).canonical == ""
  {
  }
}
