/** One ad of a break (Ad.java) and its kind (AdType.java). */
module Ads {
  import opened Wrappers
  import opened Json

  datatype AdType = Regular | Truex | Idvx

  /** The two ad-system tags that mark an interactive (Infillion) ad; case matters. */
  const TruexSystem: string := "trueX"
  const IdvxSystem: string := "IDVx"

  /** The kind an ad-system tag denotes; a missing tag denotes a regular ad. */
  function DetermineAdType(adSystem: Option<string>): (t: AdType)
    ensures t == Truex <==> adSystem == Some(TruexSystem)
    ensures t == Idvx <==> adSystem == Some(IdvxSystem)
    ensures t == Regular <==> adSystem != Some(TruexSystem) && adSystem != Some(IdvxSystem)
  {
    if adSystem == Some(TruexSystem) then Truex
    else if adSystem == Some(IdvxSystem) then Idvx
    else Regular
  }

  /**
   * An ad: its media file is what the pod plays, its description is the VAST
   * configuration URL of an interactive ad, its duration is in seconds.
   */
  datatype Ad = Ad(
    adSystem: Option<string>,
    mediaFile: Option<string>,
    description: Option<string>,
    adParameters: Option<Json>,
    duration: int,
    adId: string,
    adType: AdType)
  {
    /** An interactive ad: for a kind fixed from the tag, exactly the two Infillion tags. */
    predicate IsInfillionAd()
      ensures adType == DetermineAdType(adSystem) ==>
        (IsInfillionAd() <==> adSystem == Some(TruexSystem) || adSystem == Some(IdvxSystem))
    {
      adType == Truex || adType == Idvx
    }

    /** Every ad is either regular or interactive, never both. */
    predicate IsRegularAd()
      ensures IsRegularAd() <==> !IsInfillionAd()
    {
      adType == Regular
    }

    /**
     * The VAST configuration URL is the description, for every kind of ad: a
     * regular ad answers null only when its entry has no description.
     */
    function GetVastConfigUrl(): (r: Option<string>)
      ensures r == description
    {
      description
    }

    /** The URL the pod plays is the media file, for every kind of ad. */
    function GetAdUrl(): (r: Option<string>)
      ensures r == mediaFile
    {
      mediaFile
    }
  }

  /** The constructor: the kind is fixed once, from the ad-system tag. */
  function NewAd(adSystem: Option<string>, mediaFile: Option<string>, description: Option<string>,
                 adParameters: Option<Json>, duration: int, adId: string): (a: Ad)
    ensures a.adSystem == adSystem && a.mediaFile == mediaFile && a.description == description
    ensures a.adParameters == adParameters && a.duration == duration && a.adId == adId
    ensures a.IsInfillionAd() <==> adSystem == Some(TruexSystem) || adSystem == Some(IdvxSystem)
    ensures a.IsInfillionAd() != a.IsRegularAd()
  {
    Ad(adSystem, mediaFile, description, adParameters, duration, adId, DetermineAdType(adSystem))
  }

  /** A regular ad with a description answers it as its VAST configuration URL. */
  lemma RegularAdVastConfigUrl()
    ensures var a := NewAd(Some("GDFP"), Some("https://example.com/ad.mp4"), Some("desc"), None, 30, "ad-0");
      a.IsRegularAd() && a.GetVastConfigUrl() == Some("desc")
  {
  }

  /** The tags are matched exactly: other spellings, and no tag at all, give a regular ad. */
  lemma TagsAreCaseSensitive()
    ensures DetermineAdType(Some("truex")) == Regular
    ensures DetermineAdType(Some("TRUEX")) == Regular
    ensures DetermineAdType(Some("idvx")) == Regular
    ensures DetermineAdType(Some("GDFP")) == Regular
    ensures DetermineAdType(None) == Regular
  {
  }
}
