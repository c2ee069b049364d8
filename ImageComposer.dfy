/**
 * `Messenger._merge_images`: one image is serialised as it is, four images are pasted
 * into a 2 x 2 grid, any other count yields empty bytes. Pixels and PNG encoding are
 * abstracted away: an image is its size and an identity, the result is the placement.
 */
module ImageComposer {

  datatype Image = Image(width: nat, height: nat, id: nat)

  /** `canvas.paste(image, (x, y))`. */
  datatype Tile = Tile(image: Image, x: nat, y: nat)

  /** The serialised result: `b''`, one image, or a canvas with the pasted tiles in paste order. */
  datatype Composite =
    | Empty
    | Single(image: Image)
    | Grid(width: nat, height: nat, tiles: seq<Tile>)

  function MergeImages(images: seq<Image>): (r: Composite)
    ensures r.Empty? <==> |images| != 1 && |images| != 4
    ensures |images| == 1 ==> r == Single(images[0])
    ensures |images| == 4 ==>
      (r.Grid? && |r.tiles| == 4 &&
       r.width == 2 * images[0].width && r.height == 2 * images[0].height &&
       forall i :: 0 <= i < 4 ==> r.tiles[i].image == images[i])
  {
    if |images| == 1 then
      Single(images[0])
    else if |images| == 4 then
      var w, h := images[0].width, images[0].height;
      Grid(2 * w, 2 * h, [Tile(images[0], 0, 0), Tile(images[1], w, 0),
                          Tile(images[2], 0, h), Tile(images[3], w, h)])
    else
      Empty
  }

  /** Pixel (px, py) lies in the tile. */
  predicate Covers(t: Tile, px: int, py: int) {
    t.x <= px < t.x + t.image.width && t.y <= py < t.y + t.image.height
  }

  /** Pixel (px, py) lies on the canvas of a grid. */
  predicate OnCanvas(c: Composite, px: int, py: int)
    requires c.Grid?
  {
    0 <= px < c.width && 0 <= py < c.height
  }

  predicate SameSize(a: Image, b: Image) {
    a.width == b.width && a.height == b.height
  }

  /** The four tiles fill the grid row by row: tile i sits at column i % 2, row i / 2. */
  lemma GridIsRowMajor(images: seq<Image>)
    requires |images| == 4
    ensures var g := MergeImages(images);
      forall i :: 0 <= i < 4 ==>
        g.tiles[i].x == (i % 2) * images[0].width && g.tiles[i].y == (i / 2) * images[0].height
  {
    var g := MergeImages(images);
    forall i | 0 <= i < 4
      ensures g.tiles[i].x == (i % 2) * images[0].width && g.tiles[i].y == (i / 2) * images[0].height
    {
      if i == 0 {} else if i == 1 {} else if i == 2 {} else {}
    }
  }

  /**
   * With four images of the first image's size the tiles partition the canvas:
   * every pixel of the canvas lies in exactly one tile and no tile reaches outside it.
   */
  lemma GridPartitionsCanvas(images: seq<Image>)
    requires |images| == 4
    requires forall i :: 0 <= i < 4 ==> SameSize(images[i], images[0])
    ensures var g := MergeImages(images);
      (forall px, py :: OnCanvas(g, px, py) ==> exists i :: 0 <= i < 4 && Covers(g.tiles[i], px, py)) &&
      (forall i, j, px, py :: 0 <= i < j < 4 && Covers(g.tiles[i], px, py) ==> !Covers(g.tiles[j], px, py)) &&
      (forall i, px, py :: 0 <= i < 4 && Covers(g.tiles[i], px, py) ==> OnCanvas(g, px, py))
  {
    var g := MergeImages(images);
    var w, h := images[0].width, images[0].height;
    assert SameSize(images[1], images[0]) && SameSize(images[2], images[0]) && SameSize(images[3], images[0]);
    forall px, py | OnCanvas(g, px, py)
      ensures exists i :: 0 <= i < 4 && Covers(g.tiles[i], px, py)
    {
      var i := (if px < w then 0 else 1) + (if py < h then 0 else 2);
      assert Covers(g.tiles[i], px, py);
    }
  }

  /**
   * The canvas is sized from the first image only: the bottom-right tile stays on the
   * canvas exactly when the last image is no wider and no taller than the first one,
   * so a larger last image is cropped.
   */
  lemma LastTileFitsIffNoLargerThanFirst(images: seq<Image>)
    requires |images| == 4
    ensures var g := MergeImages(images);
      (g.tiles[3].x + images[3].width <= g.width && g.tiles[3].y + images[3].height <= g.height)
      <==>
      (images[3].width <= images[0].width && images[3].height <= images[0].height)
  {
  }
}
