/** Static platforms and the "first platform overlapping this box" search used by the enemies. */
module PlatformerPlatforms {
  import opened Options
  import opened Geometry
  import opened Seqs

  /** The `platform_type` tag; it only selects a colour when drawing. */
  datatype PlatformKind = Grass | Stone | Ice

  /** A platform never changes after the generator creates it. */
  datatype Platform = Platform(x: int, y: int, width: int, height: int, kind: PlatformKind)

  function PlatformRect(p: Platform): Rect
  {
    Rect(p.x as real, p.y as real, p.width as real, p.height as real)
  }

  /** Index of the first platform, in list order, that overlaps `r`. */
  function FirstOverlap(r: Rect, platforms: seq<Platform>): (k: Option<nat>)
    ensures k.Some? ==> k.value < |platforms| && Overlaps(r, PlatformRect(platforms[k.value]))
    ensures k.Some? ==> forall j :: 0 <= j < k.value ==> !Overlaps(r, PlatformRect(platforms[j]))
    ensures k.None? <==> forall j :: 0 <= j < |platforms| ==> !Overlaps(r, PlatformRect(platforms[j]))
  {
    FirstIndex(platforms, (p: Platform) => Overlaps(r, PlatformRect(p)))
  }
}
