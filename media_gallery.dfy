/** The media gallery, app/components/MediaGallery.tsx: a cyclic index into a
    fixed list of images and videos, moved by the arrows and set by the
    thumbnails, and the picture each thumbnail shows. */
module MediaGalleryView {
  import opened Common
  import opened Types
  import opened CyclicIndex

  /** The picture on an item's thumbnail: a video shows its `thumbnailUrl`
      when it has a non-empty one, and its own url otherwise. */
  function ThumbnailSrc(m: Media): (src: string)
    ensures m.kind == Image ==> src == m.url
    ensures m.kind == Video && Present(m.thumbnailUrl) ==> src == m.thumbnailUrl.value
    ensures m.kind == Video && !Present(m.thumbnailUrl) ==> src == m.url
  {
    if m.kind == Video then OrElse(m.thumbnailUrl, m.url) else m.url
  }

  datatype Thumbnail = Thumbnail(src: string, isVideo: bool, highlighted: bool)

  /** What the gallery renders: the current item, whether the arrows appear,
      and the thumbnail strip (empty when it is hidden). */
  datatype Frame = Frame(main: Media, arrows: bool, thumbnails: seq<Thumbnail>)

  class MediaGallery {
    /** The `media` prop; the component never changes it. */
    const media: seq<Media>
    var currentIndex: int

    ghost predicate Valid()
      reads this
    {
      media == [] || 0 <= currentIndex < |media|
    }

    constructor (media: seq<Media>)
      ensures this.media == media && currentIndex == 0
      ensures Valid()
    {
      this.media := media;
      currentIndex := 0;
    }

    /** `handlePrevious`. */
    method HandlePrevious()
      requires Valid()
      modifies this
      ensures currentIndex == Prev(old(currentIndex), |media|)
      ensures Valid()
    {
      currentIndex := if currentIndex == 0 then |media| - 1 else currentIndex - 1;
    }

    /** `handleNext`. */
    method HandleNext()
      requires Valid()
      modifies this
      ensures currentIndex == Next(old(currentIndex), |media|)
      ensures Valid()
    {
      currentIndex := if currentIndex == |media| - 1 then 0 else currentIndex + 1;
    }

    /** `handleThumbnailClick(index)`; there is a thumbnail per item. */
    method HandleThumbnailClick(index: nat)
      requires Valid() && index < |media|
      modifies this
      ensures currentIndex == index
      ensures Valid()
    {
      currentIndex := index;
    }

    /** The rendering: nothing for an empty list; otherwise the current item,
        and with several items the arrows and one thumbnail per item, in
        order, the current one highlighted. */
    function Render(): (r: Option<Frame>)
      requires Valid()
      reads this
      ensures r.None? <==> media == []
      ensures r.Some? ==> r.value.main == media[currentIndex]
      ensures r.Some? ==> (r.value.arrows <==> |media| > 1)
      ensures r.Some? && !r.value.arrows ==> r.value.thumbnails == []
      ensures r.Some? && r.value.arrows ==>
        && |r.value.thumbnails| == |media|
        && forall i :: 0 <= i < |media| ==>
             var t := r.value.thumbnails[i];
             t.src == ThumbnailSrc(media[i]) && (t.isVideo <==> media[i].kind == Video)
             && (t.highlighted <==> i == currentIndex)
    {
      if media == [] then None
      else
        var several := |media| > 1;
        var current := currentIndex;
        var strip := if several then
          seq(|media|, i requires 0 <= i < |media| =>
            Thumbnail(ThumbnailSrc(media[i]), media[i].kind == Video, i == current))
          else [];
        Some(Frame(media[currentIndex], several, strip))
    }
  }
}
