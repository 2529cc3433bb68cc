/**
 * The display rules of a card in `components/home/TodayRecommend.tsx`: the
 * icon picked from the number in the image path, the stacked avatars, the
 * price labels, the participant count and the route parameter of a card.
 */
module TodayRecommend {
  import opened Wrappers
  import opened Strings
  import opened Common

  // ---------------------------------------------------------------------------
  // The icon
  // ---------------------------------------------------------------------------

  /**
   * Why no icon can be picked. Each of these makes the card throw a
   * TypeError while rendering (reading `.split` of undefined, or a field of
   * the undefined `icon`).
   */
  datatype IconError = MissingSegment | NotANumber | OutOfRange

  /**
   * `Number(item.image.split("/")[2].split(".")[0]) - 1`: the number before
   * the first dot of the third `/`-separated piece, minus one.
   */
  function IconIndex(image: string): (r: Result<int, IconError>)
    ensures r == Err(MissingSegment) <==> |Split(image, '/')| < 3
    ensures r.Ok? ==> NumberValue(Split(Split(image, '/')[2], '.')[0]) == Some(r.value + 1)
    ensures |Split(image, '/')| >= 3 ==>
      (r.Ok? <==> NumberValue(Split(Split(image, '/')[2], '.')[0]).Some?)
    ensures r.Err? ==> r.error != OutOfRange
  {
    var pieces := Split(image, '/');
    if |pieces| < 3 then Err(MissingSegment)
    else
      match NumberValue(Split(pieces[2], '.')[0])
      case None => Err(NotANumber)
      case Some(n) => Ok(n - 1)
  }

  /** `icons[index]`: an index outside the icon list gives undefined, which the card cannot use. */
  function IconFor(image: string, iconCount: nat): (r: Result<nat, IconError>)
    ensures r.Ok? ==> r.value < iconCount && IconIndex(image) == Ok(r.value as int)
    ensures IconIndex(image).Err? ==> r == Err(IconIndex(image).error)
    ensures IconIndex(image).Ok? ==> (r.Ok? <==> 0 <= IconIndex(image).value < iconCount)
  {
    match IconIndex(image)
    case Err(e) => Err(e)
    case Ok(i) => if 0 <= i < iconCount then Ok(i) else Err(OutOfRange)
  }

  predicate NoChar(s: string, c: char) {
    forall j :: 0 <= j < |s| ==> s[j] != c
  }

  lemma DecimalStringHasNoDot(n: nat)
    ensures NoChar(DecimalString(n), '.') && NoChar(DecimalString(n), '/')
  {
  }

  /** Three `/`-free pieces joined by `/` split back into those pieces. */
  lemma SplitPath(dir1: string, dir2: string, file: string)
    requires NoChar(dir1, '/') && NoChar(dir2, '/') && NoChar(file, '/')
    ensures Split(dir1 + "/" + dir2 + "/" + file, '/') == [dir1, dir2, file]
  {
    assert dir1 + "/" + dir2 + "/" + file == dir1 + ['/'] + (dir2 + ['/'] + file);
    SplitAtFirst(dir1, '/', dir2 + ['/'] + file);
    SplitAtFirst(dir2, '/', file);
    SplitNoSeparator(file, '/');
  }

  /** The text before the first dot of `<n>.<ext>` is the printed number. */
  lemma FileStem(n: nat, ext: string)
    ensures Split(DecimalString(n) + "." + ext, '.')[0] == DecimalString(n)
  {
    DecimalStringHasNoDot(n);
    assert DecimalString(n) + "." + ext == DecimalString(n) + ['.'] + ext;
    SplitAtFirst(DecimalString(n), '.', ext);
  }

  /**
   * An image stored as `<dir>/<dir>/<n>.<ext>` picks icon n - 1: the path
   * rule and the printing of icon numbers are inverse.
   */
  lemma IconIndexOfPath(dir1: string, dir2: string, n: nat, ext: string, iconCount: nat)
    requires NoChar(dir1, '/') && NoChar(dir2, '/') && NoChar(ext, '/')
    requires 1 <= n <= iconCount
    ensures IconFor(dir1 + "/" + dir2 + "/" + DecimalString(n) + "." + ext, iconCount) == Ok(n - 1)
  {
    var file := DecimalString(n) + "." + ext;
    DecimalStringHasNoDot(n);
    assert NoChar(file, '/');
    SplitPath(dir1, dir2, file);
    FileStem(n, ext);
    DecimalRoundTrip(n);
    assert IconIndex(dir1 + "/" + dir2 + "/" + file) == Ok(n - 1);
    assert dir1 + "/" + dir2 + "/" + file == dir1 + "/" + dir2 + "/" + DecimalString(n) + "." + ext;
  }

  /** A path with no `/` at all has no third piece. */
  lemma IconIndexWithoutSlash(image: string)
    requires NoChar(image, '/')
    ensures IconIndex(image) == Err(MissingSegment)
  {
    SplitNoSeparator(image, '/');
  }

  // ---------------------------------------------------------------------------
  // Avatars, price, participants, route
  // ---------------------------------------------------------------------------

  /** One rendered avatar: its image URI, its stacking order and whether it overlaps its left neighbour. */
  datatype AvatarView = AvatarView(uri: string, zIndex: int, overlaps: bool)

  /**
   * `item.user_avatars?.slice(0, 3).map(...)`: at most the first three
   * avatars, avatar i above avatar i + 1 (zIndex 3 - i), every one after
   * the first pulled left over its neighbour, each through the image proxy.
   */
  function AvatarStack(host: Option<string>, avatars: Option<seq<string>>): (r: seq<AvatarView>)
    ensures avatars.None? ==> r == []
    ensures avatars.Some? ==> |r| == if |avatars.value| < 3 then |avatars.value| else 3
    ensures forall i :: 0 <= i < |r| ==>
      r[i] == AvatarView(ImgProxy(host, Some(avatars.value[i])), 3 - i, i > 0)
  {
    match avatars
    case None => []
    case Some(list) =>
      var shown := if |list| < 3 then list else list[..3];
      seq(|shown|, i requires 0 <= i < |shown| => AvatarView(ImgProxy(host, Some(shown[i])), 3 - i, i > 0))
  }

  /** The stack is drawn front to back: every avatar is above the ones after it, and all z-indices are 1..3. */
  lemma AvatarStackOrder(host: Option<string>, avatars: Option<seq<string>>)
    ensures forall i, j :: 0 <= i < j < |AvatarStack(host, avatars)| ==>
      AvatarStack(host, avatars)[i].zIndex > AvatarStack(host, avatars)[j].zIndex
    ensures forall i :: 0 <= i < |AvatarStack(host, avatars)| ==> 1 <= AvatarStack(host, avatars)[i].zIndex <= 3
  {
  }

  /** The main price label: the free label, or an amount in cents. */
  datatype PriceLabel = Free | Amount(cents: int)

  /** The price area: the main label, and the struck-through original price when one is shown. */
  datatype PriceView = PriceView(main: PriceLabel, original: Option<int>)

  /**
   * A discount price of 0 shows the free label and no original price; any
   * other discount price is shown as the amount, with the original price
   * struck through next to it.
   */
  function Price(discountPrice: int, price: int): (r: PriceView)
    ensures r.main.Free? <==> discountPrice == 0
    ensures r.original.Some? <==> discountPrice != 0
    ensures r.main.Amount? ==> r.main.cents == discountPrice
    ensures r.original.Some? ==> r.original.value == price
  {
    if discountPrice == 0 then PriceView(Free, None) else PriceView(Amount(discountPrice), Some(price))
  }

  /** The free label and the original price never appear together, and one of the labels always does. */
  lemma FreeXorOriginal(discountPrice: int, price: int)
    ensures Price(discountPrice, price).main.Free? != Price(discountPrice, price).original.Some?
  {
  }

  /**
   * `item.total ? formatCompact(item.total) : ""`: the number to format, or
   * None for the empty text when the total is missing or 0.
   */
  function ParticipantsCount(total: Option<int>): (r: Option<int>)
    ensures r.None? <==> total.None? || total == Some(0)
    ensures r.Some? ==> r == total && r.value != 0
  {
    if total.Some? && total.value != 0 then total else None
  }

  /** `item.id.toString()`: the `id` route parameter of the test screen. */
  function RouteParam(id: int): (r: string)
    ensures |r| >= 1
    ensures id >= 0 ==> AllDigits(r)
  {
    DecimalString(id)
  }

  /** The test screen reading the parameter back with `Number` gets the card's id. */
  lemma RouteParamRoundTrip(id: int)
    ensures NumberValue(RouteParam(id)) == Some(id)
  {
    DecimalRoundTrip(id);
  }
}
