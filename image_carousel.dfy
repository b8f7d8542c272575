/** The venue image carousel: a current index that wraps around the image
    list, a lightbox flag, and the keyboard shortcuts that drive both. */
module ImageCarousel {
  import opened Common

  /** The updater of `handlePrev`: step back, wrapping from the first image to the last. */
  function Prev(index: int, count: int): (r: int)
    ensures 0 <= index < count ==> 0 <= r < count
    ensures index == 0 ==> r == count - 1
  {
    if index == 0 then count - 1 else index - 1
  }

  /** The updater of `handleNext`: step forward, wrapping from the last image to the first. */
  function Next(index: int, count: int): (r: int)
    ensures 0 <= index < count ==> 0 <= r < count
    ensures index == count - 1 ==> r == 0
  {
    if index == count - 1 then 0 else index + 1
  }

  /** Each step undoes the other inside the image list. */
  lemma PrevNextInverse(index: int, count: int)
    requires 0 <= index < count
    ensures Prev(Next(index, count), count) == index
    ensures Next(Prev(index, count), count) == index
  {
  }

  /** With a single image both steps stay on it. */
  lemma SingleImage(index: int)
    requires index == 0
    ensures Prev(index, 1) == 0 && Next(index, 1) == 0
  {
  }

  /** `steps` presses of "next". */
  function NextTimes(index: int, count: int, steps: nat): int
  {
    if steps == 0 then index else Next(NextTimes(index, count, steps - 1), count)
  }

  /** Before the wrap, each "next" moves one place forward. */
  lemma {:induction false} NextTimesForward(index: int, count: int, steps: nat)
    requires 0 <= index && index + steps < count
    ensures NextTimes(index, count, steps) == index + steps
  {
    if steps > 0 {
      NextTimesForward(index, count, steps - 1);
    }
  }

  /** Presses of "next" compose. */
  lemma {:induction false} NextTimesSplit(index: int, count: int, first: nat, second: nat)
    ensures NextTimes(index, count, first + second) == NextTimes(NextTimes(index, count, first), count, second)
    decreases second
  {
    if second > 0 {
      NextTimesSplit(index, count, first, second - 1);
    }
  }

  /** Pressing "next" once per image returns to the starting image. */
  lemma FullCycle(index: int, count: int)
    requires 0 <= index < count
    ensures NextTimes(index, count, count) == index
  {
    var toLast := count - 1 - index;
    NextTimesForward(index, count, toLast);
    NextTimesSplit(index, count, toLast, 1);
    assert NextTimes(index, count, toLast + 1) == 0;
    NextTimesSplit(index, count, toLast + 1, index);
    if index > 0 {
      NextTimesForward(0, count, index);
    }
  }

  /** What the component renders for `count` images. */
  datatype Layout = Placeholder | Slides(showsNavigation: bool)

  function LayoutFor(count: nat): (l: Layout)
    ensures l.Placeholder? <==> count == 0
    ensures l.Slides? ==> (l.showsNavigation <==> count > 1)
  {
    if count == 0 then Placeholder else Slides(count > 1)
  }

  /** The alt text shown for an image: its own, or "Image" when it has none. */
  function AltText(current: Option<Image>): (alt: string)
    ensures current.Some? && current.value.alt != "" ==> alt == current.value.alt
    ensures !(current.Some? && current.value.alt != "") ==> alt == "Image"
    ensures alt != ""
  {
    if current.Some? && current.value.alt != "" then current.value.alt else "Image"
  }

  class Carousel {
    var images: seq<Image>
    var currentIndex: int
    var lightboxOpen: bool

    constructor (images: seq<Image>)
      ensures this.images == images && currentIndex == 0 && !lightboxOpen
    {
      this.images := images;
      currentIndex := 0;
      lightboxOpen := false;
    }

    /** `images[currentIndex] || {}`: an index outside the list gives the
        empty record instead of a fault. */
    function CurrentImage(): (current: Option<Image>)
      reads this
      ensures current.Some? <==> 0 <= currentIndex < |images|
      ensures current.Some? ==> current.value == images[currentIndex]
    {
      if 0 <= currentIndex < |images| then Some(images[currentIndex]) else None
    }

    /** A new `images` prop; the index is kept as it is. */
    method SetImages(newImages: seq<Image>)
      modifies this
      ensures images == newImages
      ensures currentIndex == old(currentIndex) && lightboxOpen == old(lightboxOpen)
    {
      images := newImages;
    }

    method HandlePrev()
      modifies this
      ensures currentIndex == Prev(old(currentIndex), |images|)
      ensures images == old(images) && lightboxOpen == old(lightboxOpen)
    {
      currentIndex := if currentIndex == 0 then |images| - 1 else currentIndex - 1;
    }

    method HandleNext()
      modifies this
      ensures currentIndex == Next(old(currentIndex), |images|)
      ensures images == old(images) && lightboxOpen == old(lightboxOpen)
    {
      currentIndex := if currentIndex == |images| - 1 then 0 else currentIndex + 1;
    }

    method OpenLightbox()
      modifies this
      ensures lightboxOpen
      ensures images == old(images) && currentIndex == old(currentIndex)
    {
      lightboxOpen := true;
    }

    method CloseLightbox()
      modifies this
      ensures !lightboxOpen
      ensures images == old(images) && currentIndex == old(currentIndex)
    {
      lightboxOpen := false;
    }

    /** The window keydown listener, as a function of the key name. */
    method OnKeyDown(key: string)
      modifies this
      ensures images == old(images)
      ensures key == "ArrowLeft" && |images| > 1 ==> currentIndex == Prev(old(currentIndex), |images|)
      ensures key == "ArrowRight" && |images| > 1 ==> currentIndex == Next(old(currentIndex), |images|)
      ensures key == "ArrowLeft" || key == "ArrowRight" ==> lightboxOpen == old(lightboxOpen)
      ensures key == "Escape" ==> !lightboxOpen && currentIndex == old(currentIndex)
      ensures (key != "ArrowLeft" && key != "ArrowRight") || |images| <= 1 ==> currentIndex == old(currentIndex)
      ensures key != "ArrowLeft" && key != "ArrowRight" && key != "Escape" ==>
                lightboxOpen == old(lightboxOpen)
    {
      if key == "ArrowLeft" {
        if |images| > 1 {
          HandlePrev();
        }
      } else if key == "ArrowRight" {
        if |images| > 1 {
          HandleNext();
        }
      } else if key == "Escape" {
        if lightboxOpen {
          CloseLightbox();
        }
      }
    }
  }
}
