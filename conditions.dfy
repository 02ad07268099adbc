/** The two condition selectors of the weather screen: the background image
    and the icon picked for a provider's free-text condition description
    ("Partly cloudy", "Light rain shower", ...). Both lower-case the text and
    test keywords in a fixed priority order; the first keyword found wins. */
module Conditions {
  import opened Text

  const SunnyBackground := "images/sunny.jpg"
  const CloudyBackground := "images/cloudy.jpg"
  const RainyBackground := "images/rainy.jpg"
  const SnowyBackground := "images/snowy.jpg"
  const DefaultBackground := "images/default.jpg"

  const ClearIcon := "images/icons/clear.png"
  const CloudsIcon := "images/icons/clouds.png"
  const RainIcon := "images/icons/rain.png"
  const SnowIcon := "images/icons/snow.png"
  const MistIcon := "images/icons/mist.png"

  /** `get_bg_image`: the background image for a condition description. */
  function BackgroundImage(condition: string): (r: string)
    ensures r in {SunnyBackground, CloudyBackground, RainyBackground, SnowyBackground, DefaultBackground}
  {
    var text := Lower(condition);
    if Contains(text, "sunny") || Contains(text, "clear") then SunnyBackground
    else if Contains(text, "cloud") then CloudyBackground
    else if Contains(text, "rain") || Contains(text, "drizzle") then RainyBackground
    else if Contains(text, "snow") then SnowyBackground
    else DefaultBackground
  }

  /** `get_icon`: the icon for a condition description. Unlike the
      background it has a mist/fog branch, and its fallback is the cloud icon. */
  function Icon(condition: string): (r: string)
    ensures r in {ClearIcon, CloudsIcon, RainIcon, SnowIcon, MistIcon}
  {
    var text := Lower(condition);
    if Contains(text, "sunny") || Contains(text, "clear") then ClearIcon
    else if Contains(text, "cloud") then CloudsIcon
    else if Contains(text, "rain") || Contains(text, "drizzle") then RainIcon
    else if Contains(text, "snow") then SnowIcon
    else if Contains(text, "mist") || Contains(text, "fog") then MistIcon
    else CloudsIcon
  }

  // ---------------------------------------------------------------------
  // A table-driven reference: categories, their keywords, and the first
  // category of a priority list that the text mentions.
  // ---------------------------------------------------------------------

  datatype Category = Clear | Cloudy | Rainy | Snowy | Misty

  datatype Option<T> = None | Some(value: T)

  /** The keywords that select a category. */
  function Keywords(c: Category): (keywords: seq<string>)
  {
    match c
    case Clear => ["sunny", "clear"]
    case Cloudy => ["cloud"]
    case Rainy => ["rain", "drizzle"]
    case Snowy => ["snow"]
    case Misty => ["mist", "fog"]
  }

  /** Some keyword of `c` occurs in `text`. */
  predicate Mentions(text: string, c: Category)
  {
    exists k :: k in Keywords(c) && Contains(text, k)
  }

  /** The priority order each selector tests. */
  const BackgroundOrder: seq<Category> := [Clear, Cloudy, Rainy, Snowy]
  const IconOrder: seq<Category> := [Clear, Cloudy, Rainy, Snowy, Misty]

  /** The first category of `order` that `text` mentions, if any. */
  function FirstMentioned(text: string, order: seq<Category>): (r: Option<Category>)
    ensures r.Some? ==> r.value in order && Mentions(text, r.value)
    ensures r.None? <==> forall c :: c in order ==> !Mentions(text, c)
  {
    if order == [] then None
    else if Mentions(text, order[0]) then Some(order[0])
    else FirstMentioned(text, order[1..])
  }

  /** First match wins: a mentioned category with no mentioned category
      ahead of it in the order is the one chosen. */
  lemma {:induction false} FirstMentionedWins(text: string, order: seq<Category>, i: nat)
    requires i < |order| && Mentions(text, order[i])
    requires forall j :: 0 <= j < i ==> !Mentions(text, order[j])
    ensures FirstMentioned(text, order) == Some(order[i])
  {
    if i > 0 {
      FirstMentionedWins(text, order[1..], i - 1);
    }
  }

  /** The background and icon that each category selects. */
  function BackgroundFor(c: Category): (image: string)
    requires c != Misty
  {
    match c
    case Clear => SunnyBackground
    case Cloudy => CloudyBackground
    case Rainy => RainyBackground
    case Snowy => SnowyBackground
  }

  function IconFor(c: Category): (icon: string)
  {
    match c
    case Clear => ClearIcon
    case Cloudy => CloudsIcon
    case Rainy => RainIcon
    case Snowy => SnowIcon
    case Misty => MistIcon
  }
}
