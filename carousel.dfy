/** The product image carousel, app/components/ui/Carousel.tsx: an index into
    a fixed list of image urls that the arrows move cyclically and the dots
    set directly. */
module CarouselView {
  import opened Common
  import opened CyclicIndex

  /** What the carousel renders: the image shown, whether the arrows and the
      dots appear, and for each dot whether it is the highlighted one. */
  datatype Frame = Frame(src: string, controls: bool, dots: seq<bool>)

  class Carousel {
    /** The `images` prop; the component never changes it. */
    const images: seq<string>
    var currentIndex: int

    /** The index always names an image when there is one. */
    ghost predicate Valid()
      reads this
    {
      images == [] || 0 <= currentIndex < |images|
    }

    constructor (images: seq<string>)
      ensures this.images == images && currentIndex == 0
      ensures Valid()
    {
      this.images := images;
      currentIndex := 0;
    }

    /** `handlePrevious`. */
    method HandlePrevious()
      requires Valid()
      modifies this
      ensures currentIndex == Prev(old(currentIndex), |images|)
      ensures Valid()
    {
      currentIndex := if currentIndex == 0 then |images| - 1 else currentIndex - 1;
    }

    /** `handleNext`. */
    method HandleNext()
      requires Valid()
      modifies this
      ensures currentIndex == Next(old(currentIndex), |images|)
      ensures Valid()
    {
      currentIndex := if currentIndex == |images| - 1 then 0 else currentIndex + 1;
    }

    /** A click on dot `index`; a dot exists for every image. */
    method HandleDot(index: nat)
      requires Valid() && index < |images|
      modifies this
      ensures currentIndex == index
      ensures Valid()
    {
      currentIndex := index;
    }

    /** The rendering: nothing for an empty list; otherwise the current image,
        and the arrows and one dot per image only when there are several
        images, the current one's dot highlighted. */
    function Render(): (r: Option<Frame>)
      requires Valid()
      reads this
      ensures r.None? <==> images == []
      ensures r.Some? ==> r.value.src == images[currentIndex]
      ensures r.Some? ==> (r.value.controls <==> |images| > 1)
      ensures r.Some? && !r.value.controls ==> r.value.dots == []
      ensures r.Some? && r.value.controls ==>
        |r.value.dots| == |images| && forall i :: 0 <= i < |images| ==> (r.value.dots[i] <==> i == currentIndex)
    {
      if images == [] then None
      else
        var controls := |images| > 1;
        var current := currentIndex;
        var dots := if controls then seq(|images|, i => i == current) else [];
        Some(Frame(images[currentIndex], controls, dots))
    }
  }
}
