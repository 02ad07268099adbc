/** What the two condition selectors promise: first-match-wins priority,
    totality, case-insensitivity, and the categories on which they agree. */
module ConditionLaws {
  import opened Text
  import opened Conditions

  /** `Mentions` spelled out per category. */
  lemma MentionsExplicit(text: string)
    ensures Mentions(text, Clear) <==> Contains(text, "sunny") || Contains(text, "clear")
    ensures Mentions(text, Cloudy) <==> Contains(text, "cloud")
    ensures Mentions(text, Rainy) <==> Contains(text, "rain") || Contains(text, "drizzle")
    ensures Mentions(text, Snowy) <==> Contains(text, "snow")
    ensures Mentions(text, Misty) <==> Contains(text, "mist") || Contains(text, "fog")
  {
    assert Keywords(Clear)[0] == "sunny" && Keywords(Clear)[1] == "clear";
    assert Keywords(Cloudy)[0] == "cloud";
    assert Keywords(Rainy)[0] == "rain" && Keywords(Rainy)[1] == "drizzle";
    assert Keywords(Snowy)[0] == "snow";
    assert Keywords(Misty)[0] == "mist" && Keywords(Misty)[1] == "fog";
  }

  /** The reference over each selector's order, unrolled. */
  lemma FirstMentionedInBackgroundOrder(text: string)
    ensures FirstMentioned(text, BackgroundOrder) ==
      if Mentions(text, Clear) then Some(Clear)
      else if Mentions(text, Cloudy) then Some(Cloudy)
      else if Mentions(text, Rainy) then Some(Rainy)
      else if Mentions(text, Snowy) then Some(Snowy)
      else None
  {
    var o := BackgroundOrder;
    if Mentions(text, Clear) {
      FirstMentionedWins(text, o, 0);
    } else if Mentions(text, Cloudy) {
      FirstMentionedWins(text, o, 1);
    } else if Mentions(text, Rainy) {
      FirstMentionedWins(text, o, 2);
    } else if Mentions(text, Snowy) {
      FirstMentionedWins(text, o, 3);
    }
  }

  lemma FirstMentionedInIconOrder(text: string)
    ensures FirstMentioned(text, IconOrder) ==
      if Mentions(text, Clear) then Some(Clear)
      else if Mentions(text, Cloudy) then Some(Cloudy)
      else if Mentions(text, Rainy) then Some(Rainy)
      else if Mentions(text, Snowy) then Some(Snowy)
      else if Mentions(text, Misty) then Some(Misty)
      else None
  {
    var o := IconOrder;
    if Mentions(text, Clear) {
      FirstMentionedWins(text, o, 0);
    } else if Mentions(text, Cloudy) {
      FirstMentionedWins(text, o, 1);
    } else if Mentions(text, Rainy) {
      FirstMentionedWins(text, o, 2);
    } else if Mentions(text, Snowy) {
      FirstMentionedWins(text, o, 3);
    } else if Mentions(text, Misty) {
      FirstMentionedWins(text, o, 4);
    } else {
      assert forall c :: c in o ==> !Mentions(text, c);
    }
  }

  /** The background selector is the table-driven reference over the
      order sunny/clear, cloud, rain/drizzle, snow, with the default image
      when none is mentioned. */
  lemma BackgroundImageByPriority(condition: string)
    ensures BackgroundImage(condition) ==
      match FirstMentioned(Lower(condition), BackgroundOrder)
      case Some(c) => BackgroundFor(c)
      case None => DefaultBackground
  {
    BackgroundImageIff(condition);
    FirstMentionedInBackgroundOrder(Lower(condition));
  }

  /** The icon selector is the same reference over the order extended by
      mist/fog, with the cloud icon when none is mentioned. */
  lemma IconByPriority(condition: string)
    ensures Icon(condition) ==
      match FirstMentioned(Lower(condition), IconOrder)
      case Some(c) => IconFor(c)
      case None => CloudsIcon
  {
    IconIff(condition);
    FirstMentionedInIconOrder(Lower(condition));
  }

  /** The source repeats the keyword tests in both selectors, but one
      classification over the icon's order, read through two tables, gives
      both: the background treats mist/fog like no match at all. */
  lemma SharedClassifier(condition: string)
    ensures BackgroundImage(condition) ==
      match FirstMentioned(Lower(condition), IconOrder)
      case Some(c) => if c == Misty then DefaultBackground else BackgroundFor(c)
      case None => DefaultBackground
    ensures Icon(condition) ==
      match FirstMentioned(Lower(condition), IconOrder)
      case Some(c) => IconFor(c)
      case None => CloudsIcon
  {
    BackgroundImageIff(condition);
    IconByPriority(condition);
    FirstMentionedInIconOrder(Lower(condition));
  }

  /** Sunny/clear wins whatever else the text says. */
  lemma SunnyWins(condition: string)
    requires Mentions(Lower(condition), Clear)
    ensures BackgroundImage(condition) == SunnyBackground
    ensures Icon(condition) == ClearIcon
  {
    MentionsExplicit(Lower(condition));
  }

  /** Each background is chosen exactly when its category is the first one
      mentioned; the default exactly when none of the six keywords occurs. */
  lemma BackgroundImageIff(condition: string)
    ensures var t := Lower(condition);
      && (BackgroundImage(condition) == SunnyBackground <==> Mentions(t, Clear))
      && (BackgroundImage(condition) == CloudyBackground <==>
            !Mentions(t, Clear) && Mentions(t, Cloudy))
      && (BackgroundImage(condition) == RainyBackground <==>
            !Mentions(t, Clear) && !Mentions(t, Cloudy) && Mentions(t, Rainy))
      && (BackgroundImage(condition) == SnowyBackground <==>
            !Mentions(t, Clear) && !Mentions(t, Cloudy) && !Mentions(t, Rainy) && Mentions(t, Snowy))
      && (BackgroundImage(condition) == DefaultBackground <==>
            !Mentions(t, Clear) && !Mentions(t, Cloudy) && !Mentions(t, Rainy) && !Mentions(t, Snowy))
  {
    MentionsExplicit(Lower(condition));
  }

  /** The same for the icon: mist is reached only when none of the earlier
      keywords occurs, and text matching none of the seven keywords gets the
      cloud icon, the same as text mentioning clouds. */
  lemma IconIff(condition: string)
    ensures var t := Lower(condition);
      && (Icon(condition) == ClearIcon <==> Mentions(t, Clear))
      && (Icon(condition) == RainIcon <==>
            !Mentions(t, Clear) && !Mentions(t, Cloudy) && Mentions(t, Rainy))
      && (Icon(condition) == SnowIcon <==>
            !Mentions(t, Clear) && !Mentions(t, Cloudy) && !Mentions(t, Rainy) && Mentions(t, Snowy))
      && (Icon(condition) == MistIcon <==>
            !Mentions(t, Clear) && !Mentions(t, Cloudy) && !Mentions(t, Rainy) && !Mentions(t, Snowy)
            && Mentions(t, Misty))
      && (Icon(condition) == CloudsIcon <==>
            (!Mentions(t, Clear) && Mentions(t, Cloudy)) ||
            (forall c :: c in IconOrder ==> !Mentions(t, c)))
  {
    var t := Lower(condition);
    MentionsExplicit(t);
    assert forall c :: c in IconOrder <==> c in {Clear, Cloudy, Rainy, Snowy, Misty};
  }

  /** Both selectors ignore the case of ASCII letters. */
  lemma CaseInsensitive(s: string, u: string)
    requires Lower(s) == Lower(u)
    ensures BackgroundImage(s) == BackgroundImage(u)
    ensures Icon(s) == Icon(u)
  {
  }

  lemma LowerCaseInput(condition: string)
    ensures BackgroundImage(condition) == BackgroundImage(Lower(condition))
    ensures Icon(condition) == Icon(Lower(condition))
  {
    LowerIdempotent(condition);
    CaseInsensitive(condition, Lower(condition));
  }

  /** The selectors agree on the category whenever the background is not
      the default: sunny with clear, cloudy with clouds, rainy with rain,
      snowy with snow. Where the background is the default, the icon is the
      mist or the cloud icon. */
  lemma SelectorsAgree(condition: string, c: Category)
    requires c != Misty
    ensures BackgroundImage(condition) == BackgroundFor(c) ==> Icon(condition) == IconFor(c)
    ensures c != Cloudy && Icon(condition) == IconFor(c) ==> BackgroundImage(condition) == BackgroundFor(c)
    ensures Icon(condition) == CloudsIcon ==>
              BackgroundImage(condition) in {CloudyBackground, DefaultBackground}
    ensures BackgroundImage(condition) == DefaultBackground ==>
              Icon(condition) in {MistIcon, CloudsIcon}
  {
  }
}
