/** The dish page, app/components/ui/DishDetails.tsx: the media reordered
    videos first, the cyclic picture index, the quantity shown from the cart,
    the minus / plus / add controls that act on the cart, and the back
    button that keeps the chosen city. */
module DishDetailsPage {
  import opened Common
  import opened Seqs
  import opened Types
  import opened Cart
  import opened CyclicIndex
  import opened StockStatus

  predicate IsVideo(m: Media) {
    m.kind == Video
  }

  predicate IsImage(m: Media) {
    m.kind == Image
  }

  /** `[...videos, ...images]`. */
  function AllMedia(media: seq<Media>): seq<Media> {
    Filter(media, IsVideo) + Filter(media, IsImage)
  }

  /** The reordered list has the items of `media`, each as often: a media
      item is either an image or a video. */
  lemma AllMediaPermutes(media: seq<Media>)
    ensures |AllMedia(media)| == |media| && multiset(AllMedia(media)) == multiset(media)
  {
    FilterSplit(media, IsVideo, IsImage);
  }

  /** The reordered list holds every video, then every image. */
  lemma AllMediaGroups(media: seq<Media>)
    ensures var r := AllMedia(media);
      var k := |Filter(media, IsVideo)|;
      && k <= |r|
      && (forall i :: 0 <= i < k ==> r[i].kind == Video)
      && (forall i :: k <= i < |r| ==> r[i].kind == Image)
  {
    var videos := Filter(media, IsVideo);
    var images := Filter(media, IsImage);
    var r := videos + images;
    forall i | 0 <= i < |videos| ensures r[i].kind == Video {
      assert r[i] == videos[i] && IsVideo(videos[i]);
    }
    forall i | |videos| <= i < |r| ensures r[i].kind == Image {
      assert r[i] == images[i - |videos|] && IsImage(images[i - |videos|]);
    }
  }

  /** Each group keeps the order the items have in `media`. */
  lemma AllMediaKeepsOrder(media: seq<Media>)
    ensures var r := AllMedia(media);
      var k := |Filter(media, IsVideo)|;
      && k <= |r|
      && Subsequence(r[..k], media) && Subsequence(r[k..], media)
  {
    var videos := Filter(media, IsVideo);
    var images := Filter(media, IsImage);
    var r := videos + images;
    assert r[..|videos|] == videos;
    assert r[|videos|..] == images;
    FilterIsSubsequence(media, IsVideo);
    FilterIsSubsequence(media, IsImage);
  }

  /** `mainMedia`: the item at the index, `null` when the list is empty or,
      as `allMedia[i]` is `undefined` there, when the index is off the list. */
  function MainMedia(allMedia: seq<Media>, index: int): (r: Option<Media>)
    ensures r.None? <==> (allMedia == [] || !(0 <= index < |allMedia|))
    ensures r.Some? ==> r.value in allMedia
  {
    if |allMedia| > 0 && 0 <= index < |allMedia| then Some(allMedia[index]) else None
  }

  /** With the index kept on the list, the placeholder shows exactly when the
      dish has no media at all. */
  lemma PlaceholderExactlyWithoutMedia(media: seq<Media>, index: int)
    requires media == [] || 0 <= index < |media|
    ensures MainMedia(AllMedia(media), index).None? <==> media == []
  {
    AllMediaPermutes(media);
  }

  /** `dish.media.find(m => m.type === 'image')?.url`: the video poster. */
  function FirstImageUrl(media: seq<Media>): (r: Option<string>)
    ensures r.Some? <==> exists i :: 0 <= i < |media| && media[i].kind == Image
    ensures r.Some? ==> exists i ::
      && 0 <= i < |media| && media[i].kind == Image && media[i].url == r.value
      && forall j :: 0 <= j < i ==> media[j].kind != Image
  {
    match FindFirst(media, IsImage)
    case None => None
    case Some(m) => Some(m.url)
  }

  /** The picture on a strip thumbnail: a video shows the dish's first image
      (when that url is non-empty), otherwise its own url. */
  function StripThumbnailSrc(media: seq<Media>, item: Media): (src: string)
    ensures item.kind == Image ==> src == item.url
    ensures item.kind == Video && !Present(FirstImageUrl(media)) ==> src == item.url
    ensures item.kind == Video && Present(FirstImageUrl(media)) ==> src == FirstImageUrl(media).value
  {
    if item.kind == Video then OrElse(FirstImageUrl(media), item.url) else item.url
  }

  /** The item pictured by thumbnail `i` of the strip, as written: the strip
      and the dots run over `dish.media`, in its original order. */
  function StripItem(media: seq<Media>, i: nat): (m: Media)
    requires i < |media|
    ensures m in media
  {
    media[i]
  }

  /** Clicking a thumbnail can show a different item from the one it
      pictures: with an image before a video, thumbnail 0 pictures the image
      while the main view, which runs over the reordered list, shows the
      video. */
  lemma ThumbnailShowsOtherItem()
    ensures var img := Media(None, "a.jpg", Image, None);
      var vid := Media(None, "b.mp4", Video, None);
      && MainMedia(AllMedia([img, vid]), 0) == Some(vid)
      && StripItem([img, vid], 0) == img
      && img != vid
  {
    var img := Media(None, "a.jpg", Image, None);
    var vid := Media(None, "b.mp4", Video, None);
    assert Filter([img, vid], IsVideo) == [vid] by {
      assert [img, vid][1..] == [vid];
      assert [vid][1..] == [];
    }
    assert Filter([img, vid], IsImage) == [img] by {
      assert [img, vid][1..] == [vid];
      assert [vid][1..] == [];
    }
  }

  /** The strip as evidently intended: over the same reordered list as the
      main view. */
  function CorrectedStripItem(media: seq<Media>, i: nat): (m: Media)
    requires i < |media|
    ensures m in media
  {
    AllMediaPermutes(media);
    var all := AllMedia(media);
    assert all[i] in multiset(all);
    all[i]
  }

  /** With the corrected strip, clicking thumbnail `i` shows the very item it
      pictures, and every item of the dish has a thumbnail. */
  lemma CorrectedThumbnailShowsItsItem(media: seq<Media>, i: nat, m: Media)
    requires i < |media|
    ensures MainMedia(AllMedia(media), i) == Some(CorrectedStripItem(media, i))
    ensures m in media ==> exists j :: 0 <= j < |media| && CorrectedStripItem(media, j) == m
  {
    AllMediaPermutes(media);
    var all := AllMedia(media);
    if m in media {
      assert m in multiset(all);
      var j :| 0 <= j < |all| && all[j] == m;
      assert CorrectedStripItem(media, j) == m;
    }
  }

  /** `existingItem?.quantity || 0`: the quantity on the dish's first cart
      line, 0 when the dish is not in the cart. */
  function CurrentQuantity(items: seq<CartItem>, id: string): (q: int)
    ensures !HasItem(items, id) ==> q == 0
    ensures HasItem(items, id) ==> exists i :: 0 <= i < |items| && items[i].id == id && q == items[i].quantity
  {
    match FirstIndex(items, (it: CartItem) => it.id == id)
    case None => 0
    case Some(i) => items[i].quantity
  }

  /** In a cart without duplicate lines, the quantity shown is the quantity
      on the dish's line. */
  lemma CurrentQuantityOfLine(items: seq<CartItem>, i: nat)
    requires UniqueIds(items) && i < |items|
    ensures CurrentQuantity(items, items[i].id) == items[i].quantity
  {
    var id := items[i].id;
    assert HasItem(items, id);
  }

  /** The `map` step of `updateQuantity` on a list, split at its head. */
  lemma WithQuantitySetCons(items: seq<CartItem>, id: string, quantity: int)
    requires items != []
    ensures WithQuantitySet(items, id, quantity) ==
      [if items[0].id == id then items[0].(quantity := quantity) else items[0]]
      + WithQuantitySet(items[1..], id, quantity)
  {
  }

  /** Asking for quantity 0 removes the dish's line and nothing else. */
  lemma {:induction false} ZeroQuantityRemoves(items: seq<CartItem>, id: string)
    requires AllPositive(items)
    ensures WithQuantity(items, id, 0) == WithoutDish(items, id)
  {
    if items != [] {
      WithQuantitySetCons(items, id, 0);
      ZeroQuantityRemoves(items[1..], id);
    }
  }

  /** Minus on a dish whose line holds one unit takes the dish out of the
      cart. */
  lemma MinusAtOneRemoves(items: seq<CartItem>, id: string)
    requires AllPositive(items) && CurrentQuantity(items, id) == 1
    ensures WithQuantity(items, id, CurrentQuantity(items, id) - 1) == WithoutDish(items, id)
    ensures !HasItem(WithQuantity(items, id, CurrentQuantity(items, id) - 1), id)
  {
    ZeroQuantityRemoves(items, id);
    RemoveDropsExactly(items, id);
  }

  /** Plus does what "add to cart" does: one more unit on the dish's line. */
  lemma PlusMatchesAdd(items: seq<CartItem>, dish: Dish)
    requires UniqueIds(items) && AllPositive(items) && HasItem(items, dish.id)
    ensures WithQuantity(items, dish.id, CurrentQuantity(items, dish.id) + 1) == WithDishAdded(items, dish)
  {
    var i :| 0 <= i < |items| && items[i].id == dish.id;
    CurrentQuantityOfLine(items, i);
    OneMoreIsAdd(items, dish, i);
  }

  /** The badge text on the dish page; it reads like the stock badge with
      "on order" for every dish that is not in stock. */
  function AvailabilityText(dish: Dish): (t: string)
    ensures dish.availability.inStock ==> t == "В наличии"
    ensures !dish.availability.inStock ==> t == "Под заказ"
  {
    if dish.availability.inStock then "В наличии" else "Под заказ"
  }

  lemma AvailabilityTextIsStockBadge(dish: Dish)
    ensures AvailabilityText(dish) ==
      StatusBadge(dish.availability.inStock, !dish.availability.inStock).Text()
  {
  }

  /** Where the back button goes. */
  datatype Navigation = Push(url: string) | HistoryBack

  /** The page's state for one dish; `city` is `searchParams.get('city') || ''`. */
  class DishDetails {
    const dish: Dish
    const city: string
    var currentImageIndex: int

    ghost predicate Valid()
      reads this
    {
      dish.media == [] || 0 <= currentImageIndex < |dish.media|
    }

    constructor (dish: Dish, cityParam: Option<string>)
      ensures this.dish == dish && city == OrElse(cityParam, "")
      ensures currentImageIndex == 0 && Valid()
    {
      this.dish := dish;
      city := OrElse(cityParam, "");
      currentImageIndex := 0;
    }

    /** `handlePreviousImage`, modulo `dish.media.length`. */
    method HandlePreviousImage()
      requires Valid()
      modifies this
      ensures currentImageIndex == Prev(old(currentImageIndex), |dish.media|)
      ensures Valid()
    {
      currentImageIndex := if currentImageIndex == 0 then |dish.media| - 1 else currentImageIndex - 1;
    }

    /** `handleNextImage`, modulo `dish.media.length`. */
    method HandleNextImage()
      requires Valid()
      modifies this
      ensures currentImageIndex == Next(old(currentImageIndex), |dish.media|)
      ensures Valid()
    {
      currentImageIndex := if currentImageIndex == |dish.media| - 1 then 0 else currentImageIndex + 1;
    }

    /** A click on dot or strip thumbnail `index`. */
    method HandleSelect(index: nat)
      requires Valid() && index < |dish.media|
      modifies this
      ensures currentImageIndex == index
      ensures Valid()
    {
      currentImageIndex := index;
    }

    /** `handleAddToCart`. */
    method HandleAddToCart(cart: CartStore)
      requires cart.Valid()
      modifies cart
      ensures cart.items == WithDishAdded(old(cart.items), dish)
      ensures cart.Valid()
    {
      cart.AddToCart(dish);
    }

    /** The minus control, shown while the quantity is positive. */
    method HandleMinus(cart: CartStore)
      requires cart.Valid() && CurrentQuantity(cart.items, dish.id) > 0
      modifies cart
      ensures cart.items == WithQuantity(old(cart.items), dish.id, CurrentQuantity(old(cart.items), dish.id) - 1)
      ensures cart.Valid()
    {
      cart.UpdateQuantity(dish.id, CurrentQuantity(cart.items, dish.id) - 1);
    }

    /** The plus control, shown while the quantity is positive. */
    method HandlePlus(cart: CartStore)
      requires cart.Valid() && CurrentQuantity(cart.items, dish.id) > 0
      modifies cart
      ensures cart.items == WithQuantity(old(cart.items), dish.id, CurrentQuantity(old(cart.items), dish.id) + 1)
      ensures cart.Valid()
    {
      cart.UpdateQuantity(dish.id, CurrentQuantity(cart.items, dish.id) + 1);
    }

    /** `handleBack`: back to the shop with the city kept, or one step back
        in the history when no city was chosen. */
    function BackTarget(): (r: Navigation)
      reads this
      ensures r.Push? <==> city != ""
      ensures r.Push? ==> r.url == "/shop?city=" + city
    {
      if city != "" then Push("/shop?city=" + city) else HistoryBack
    }
  }
}
