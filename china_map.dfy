/**
 * The `/api/china-map` handler (src/pages/api/china-map.ts): serves the bundled China provinces
 * GeoJSON with artefact features (no name, or no geometry) removed.
 */
module ChinaMap {
  import opened Wrappers

  datatype Properties = Properties(name: Option<string>)

  /** A GeoJSON feature; `geometry` stands for the geometry object, which is passed on untouched. */
  datatype Feature = Feature(properties: Option<Properties>, geometry: Option<string>)

  /** A GeoJSON document; `features` may be absent. */
  datatype GeoJson = GeoJson(features: Option<seq<Option<Feature>>>)

  /** The reply: status, `Cache-Control` header, and the body's `type` and `features`. */
  datatype MapReply = MapReply(status: int, cacheControl: string, kind: string, features: Option<seq<Option<Feature>>>)

  /** `f?.properties?.name && f?.geometry`: a non-empty name and a geometry. */
  predicate Kept(f: Option<Feature>)
  {
    && f.Some?
    && f.value.properties.Some?
    && TruthyStr(f.value.properties.value.name)
    && f.value.geometry.Some?
  }

  /** `features.filter(Kept)`. */
  function Filter(fs: seq<Option<Feature>>): (kept: seq<Option<Feature>>)
    ensures |kept| <= |fs|
    ensures forall f :: f in kept <==> f in fs && Kept(f)
  {
    if fs == [] then []
    else if Kept(fs[0]) then [fs[0]] + Filter(fs[1..])
    else Filter(fs[1..])
  }

  /** Filtering distributes over concatenation: kept features stay in their original order. */
  lemma {:induction false} FilterAppend(a: seq<Option<Feature>>, b: seq<Option<Feature>>)
    ensures Filter(a + b) == Filter(a) + Filter(b)
  {
    if a == [] {
      assert a + b == b;
    } else {
      assert (a + b)[1..] == a[1..] + b;
      FilterAppend(a[1..], b);
    }
  }

  /** A kept feature is dropped by nothing; filtering twice changes nothing. */
  lemma {:induction false} FilterIdempotent(fs: seq<Option<Feature>>)
    ensures Filter(Filter(fs)) == Filter(fs)
  {
    if fs != [] {
      FilterIdempotent(fs[1..]);
    }
  }

  /** Nothing is dropped exactly when every feature is kept. */
  lemma {:induction false} FilterKeepsAll(fs: seq<Option<Feature>>)
    ensures Filter(fs) == fs <==> forall i :: 0 <= i < |fs| ==> Kept(fs[i])
  {
    if fs != [] {
      FilterKeepsAll(fs[1..]);
      if !Kept(fs[0]) {
        assert |Filter(fs)| <= |fs[1..]| < |fs|;
      }
    }
  }

  /** `handler`: always 200, never cached, a FeatureCollection; absent `features` stay absent. */
  function Handle(doc: GeoJson): (reply: MapReply)
    ensures reply.status == 200 && reply.cacheControl == "no-store" && reply.kind == "FeatureCollection"
    ensures doc.features.None? <==> reply.features.None?
    ensures doc.features.Some? ==> reply.features == Some(Filter(doc.features.value))
  {
    MapReply(200, "no-store", "FeatureCollection",
             match doc.features case None => None case Some(fs) => Some(Filter(fs)))
  }
}
