/**
 * The style classifier: each predicate asks whether a paragraph's style
 * name starts with one literal prefix (Python `str.startswith`).
 */
module Checks {

  const HeadingPrefix := "Heading"
  const TitlePrefix := "Title"
  const SubtitlePrefix := "Subtitle"
  const CaptionPrefix := "Caption"

  predicate IsHeading(style: string) {
    HeadingPrefix <= style
  }

  predicate IsTitle(style: string) {
    TitlePrefix <= style
  }

  predicate IsSubtitle(style: string) {
    SubtitlePrefix <= style
  }

  predicate IsCaption(style: string) {
    CaptionPrefix <= style
  }

  /** Each classifier holds exactly when the style name's first letters spell its prefix. */
  lemma StylePrefixes(style: string)
    ensures IsHeading(style) <==> |style| >= 7 && style[..7] == "Heading"
    ensures IsTitle(style) <==> |style| >= 5 && style[..5] == "Title"
    ensures IsSubtitle(style) <==> |style| >= 8 && style[..8] == "Subtitle"
    ensures IsCaption(style) <==> |style| >= 7 && style[..7] == "Caption"
  {
  }

  /** The number of the four roles a style name has. */
  function RoleCount(style: string): nat {
    (if IsHeading(style) then 1 else 0) + (if IsTitle(style) then 1 else 0)
    + (if IsSubtitle(style) then 1 else 0) + (if IsCaption(style) then 1 else 0)
  }

  /**
   * The prefixes begin with distinct letters, so a style name has at most
   * one role, and one iff its first letters spell one of the prefixes.
   */
  lemma AtMostOneRole(style: string)
    ensures RoleCount(style) <= 1
    ensures RoleCount(style) == 1 <==>
      || (|style| >= 7 && style[..7] == "Heading")
      || (|style| >= 5 && style[..5] == "Title")
      || (|style| >= 8 && style[..8] == "Subtitle")
      || (|style| >= 7 && style[..7] == "Caption")
  {
    if IsHeading(style) { assert style[0] == 'H'; }
    if IsTitle(style) { assert style[0] == 'T'; }
    if IsSubtitle(style) { assert style[0] == 'S'; }
    if IsCaption(style) { assert style[0] == 'C'; }
  }
}
