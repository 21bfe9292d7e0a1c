/** The track record the media library hands to the app (`SongInfo`). */
module Songs {
  import Sorting

  /** Swift's `UInt64`, the width of a media item's persistent id. */
  type UInt64 = x: int | 0 <= x < 0x1_0000_0000_0000_0000

  /**
   * A library track. Equality is structural over every field, the id
   * included. The playback duration (a `TimeInterval`) and the artwork
   * image are not modelled.
   */
  datatype Song = Song(
    id: UInt64,
    title: string,
    artist: string,
    album: string,
    playCount: nat,
    hasAssetUrl: bool,
    mediaType: string)

  /** The predicate `{ $0.playCount < $1.playCount }`. */
  predicate FewerPlays(a: Song, b: Song) {
    a.playCount < b.playCount
  }

  /** The predicate `{ $0.playCount > $1.playCount }`. */
  predicate MorePlays(a: Song, b: Song) {
    a.playCount > b.playCount
  }

  lemma PlayCountOrdersAreStrictWeak()
    ensures Sorting.StrictWeakOrder(FewerPlays)
    ensures Sorting.StrictWeakOrder(MorePlays)
  {
  }
}
