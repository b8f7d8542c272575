/** An image that shows a fixed fallback picture when it has no source or its
    source fails to load. */
module ImageWithFallback {
  import opened Common

  const FallbackUrl := "https://encrypted-tbn0.gstatic.com/images?q=tbn:ANd9GcQHOjsKSJVdki65NV_SN4HBcEqL3_I6uhqU_g&s"

  /** The source the effect picks for the `src` prop (missing, or a string). */
  function SourceFor(src: Option<string>): (shown: string)
    ensures shown != ""
    ensures src.Some? && src.value != "" ==> shown == src.value
    ensures src.None? || src.value == "" ==> shown == FallbackUrl
  {
    if src.Some? && src.value != "" then src.value else FallbackUrl
  }

  class Image {
    var imgSrc: string

    constructor ()
      ensures imgSrc == ""
    {
      imgSrc := "";
    }

    /** The effect on `[src]`: a new truthy source replaces whatever was shown, a fallback included. */
    method SrcEffect(src: Option<string>)
      modifies this
      ensures imgSrc == SourceFor(src)
    {
      if src.Some? && src.value != "" {
        imgSrc := src.value;
      } else {
        imgSrc := FallbackUrl;
      }
    }

    /** `onError`: show the fallback; a second error leaves it as it is. */
    method HandleError()
      modifies this
      ensures imgSrc == FallbackUrl
      ensures old(imgSrc) == FallbackUrl ==> imgSrc == old(imgSrc)
    {
      imgSrc := FallbackUrl;
    }
  }
}
