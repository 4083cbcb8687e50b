/** `LoadTexture2D`: the texture table deduplicates by path. A path already
    loaded gives back its index; a new path is decoded and, when decoding
    succeeds, appended; when it fails, the sentinel `UINT32_MAX` comes back.

    Image decoding and the GL upload are one oracle: `uploaded` is
    `Some(name)` when the image decodes (the GL name of the texture created
    from it) and `None` when it does not. */
module TextureRegistry {
  import opened Common
  import opened EngineTypes

  datatype TextureLoad = TextureLoad(textures: seq<Texture>, index: u32)

  /** First texture loaded from exactly `path`. */
  function FindTexture(textures: seq<Texture>, path: string): Option<nat> {
    FirstWhere(textures, (t: Texture) => t.filepath == path)
  }

  predicate Loaded(textures: seq<Texture>, path: string) {
    exists i :: 0 <= i < |textures| && textures[i].filepath == path
  }

  /** No two textures share a path. */
  predicate PathsDistinct(textures: seq<Texture>) {
    forall i, j :: 0 <= i < j < |textures| ==> textures[i].filepath != textures[j].filepath
  }

  /** The `u32` scan over the table terminates only while the table size
      fits in a `u32`. */
  function LoadTexture2D(textures: seq<Texture>, path: string, uploaded: Option<Name>): (r: TextureLoad)
    requires |textures| <= U32_MAX
    ensures Loaded(textures, path) ==>
      && r.textures == textures
      && r.index < |textures|
      && textures[r.index].filepath == path
      && (forall k :: 0 <= k < r.index ==> textures[k].filepath != path)
    ensures !Loaded(textures, path) && uploaded.Some? ==>
      r.textures == textures + [Texture(uploaded.value, path)] && r.index == |textures|
    ensures !Loaded(textures, path) && uploaded.None? ==>
      r.textures == textures && r.index == U32_MAX
  {
    match FindTexture(textures, path)
    case Some(i) => TextureLoad(textures, i)
    case None =>
      match uploaded
      case Some(handle) => TextureLoad(textures + [Texture(handle, path)], |textures|)
      case None => TextureLoad(textures, U32_MAX)
  }

  /** Loading never breaks path uniqueness, and never adds more than one
      texture. */
  lemma LoadKeepsPathsDistinct(textures: seq<Texture>, path: string, uploaded: Option<Name>)
    requires |textures| <= U32_MAX
    requires PathsDistinct(textures)
    ensures var r := LoadTexture2D(textures, path, uploaded);
      PathsDistinct(r.textures) && |textures| <= |r.textures| <= |textures| + 1
  {
  }

  /** Whenever the returned index is not the sentinel it names a texture
      loaded from `path`, provided the table was short of `UINT32_MAX`
      entries (at exactly that many a fresh index equals the sentinel). */
  lemma LoadedIndexIsValid(textures: seq<Texture>, path: string, uploaded: Option<Name>)
    requires |textures| < U32_MAX
    ensures var r := LoadTexture2D(textures, path, uploaded);
      (r.index != U32_MAX <==> (Loaded(textures, path) || uploaded.Some?))
      && (r.index != U32_MAX ==> r.index < |r.textures| && r.textures[r.index].filepath == path)
  {
  }

  /** Loading the same path twice gives the same index and creates exactly
      one GPU texture: the second call hits whatever the decoder would say,
      so the table is unchanged by it. */
  lemma LoadTwiceSameIndex(textures: seq<Texture>, path: string, first: Option<Name>, second: Option<Name>)
    requires |textures| < U32_MAX
    requires LoadTexture2D(textures, path, first).index != U32_MAX
    ensures var r1 := LoadTexture2D(textures, path, first);
      var r2 := LoadTexture2D(r1.textures, path, second);
      r2 == r1 && |r1.textures| <= |textures| + 1
  {
    var r1 := LoadTexture2D(textures, path, first);
    if !Loaded(textures, path) {
      assert r1.textures[|textures|].filepath == path;
    }
  }

  /** A failed decode leaves no trace: the next attempt at the same path
      behaves exactly like the first one would have. */
  lemma FailedLoadIsRetried(textures: seq<Texture>, path: string, uploaded: Option<Name>)
    requires |textures| < U32_MAX
    requires LoadTexture2D(textures, path, None).index == U32_MAX
    ensures var r1 := LoadTexture2D(textures, path, None);
      LoadTexture2D(r1.textures, path, uploaded) == LoadTexture2D(textures, path, uploaded)
  {
  }
}
