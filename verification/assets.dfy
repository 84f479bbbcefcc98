/**
 * `AssetLoader`: a memoizing map from asset path to bitmap. A path that fails
 * to decode gets a 100x100 placeholder of the caller's colour, which is
 * cached like a real image, so a path resolves to one handle for the
 * loader's lifetime and failures are not retried.
 */
module Assets {
  import opened Wrappers

  /** Side length of the placeholder made by `createFallbackBitmap`. */
  const FallbackSize: int := 100

  /**
   * An immutable image handle. `fill` is the colour a placeholder was erased
   * to; decoded art has none.
   */
  class Bitmap {
    const width: int
    const height: int
    const fill: Option<int>

    constructor(width: int, height: int, fill: Option<int>)
      ensures this.width == width && this.height == height && this.fill == fill
    {
      this.width := width;
      this.height := height;
      this.fill := fill;
    }
  }

  /**
   * What opening, decoding and closing an asset stream yields: an image of the
   * given size, a `null` from `decodeStream`, or an exception from any of the
   * three steps.
   */
  datatype Decoded = Image(width: int, height: int) | NullImage | Failed

  class AssetLoader {
    /** The Kotlin map allows `null` values; the loader never stores one. */
    var cache: map<string, Bitmap?>

    ghost predicate Valid()
      reads this
    {
      forall p :: p in cache ==> cache[p] != null
    }

    constructor()
      ensures cache == map[]
      ensures Valid()
    {
      cache := map[];
    }

    /** `createFallbackBitmap`: a fresh 100x100 image erased to `color`. */
    method CreateFallbackBitmap(color: int) returns (b: Bitmap)
      ensures fresh(b)
      ensures b.width == FallbackSize && b.height == FallbackSize
      ensures b.fill == Some(color)
    {
      b := new Bitmap(FallbackSize, FallbackSize, Some(color));
    }

    /**
     * `loadBitmap`: the asset store is read through `decode`, which is
     * consulted only when the path has no cached image.
     */
    method LoadBitmap(assetPath: string, fallbackColor: int, decode: string -> Decoded) returns (b: Bitmap)
      requires Valid()
      modifies this
      ensures Valid()
      ensures cache == old(cache)[assetPath := b]
      ensures assetPath in old(cache) ==> b == old(cache)[assetPath]
      ensures assetPath !in old(cache) ==> fresh(b)
      ensures assetPath !in old(cache) && decode(assetPath).Image? ==>
        b.width == decode(assetPath).width && b.height == decode(assetPath).height && b.fill == None
      ensures assetPath !in old(cache) && !decode(assetPath).Image? ==>
        b.width == FallbackSize && b.height == FallbackSize && b.fill == Some(fallbackColor)
    {
      if assetPath in cache {
        var cached := cache[assetPath];
        if cached != null {
          return cached;
        }
      }
      var outcome := decode(assetPath);
      if outcome.Image? {
        var bitmap := new Bitmap(outcome.width, outcome.height, None);
        cache := cache[assetPath := bitmap];
        return bitmap;
      }
      var fallback := CreateFallbackBitmap(fallbackColor);
      cache := cache[assetPath := fallback];
      return fallback;
    }

    /** `getBitmap`: a lookup that never loads; `null` exactly for a path never loaded. */
    method GetBitmap(assetPath: string) returns (b: Bitmap?)
      ensures b == (if assetPath in cache then cache[assetPath] else null)
      ensures Valid() ==> (b != null <==> assetPath in cache)
    {
      if assetPath in cache {
        b := cache[assetPath];
      } else {
        b := null;
      }
    }
  }
}
