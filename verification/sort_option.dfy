/**
 * `SortOption`: the eight (field, direction) orders of the song list, their
 * identifiers and labels, and the sort each one applies. The locale-aware
 * `localizedStandardCompare` is a parameter, assumed to be a total preorder.
 */
module SortOptions {
  import opened Wrappers
  import opened Sorting
  import opened Songs

  /** Foundation's `ComparisonResult`. */
  datatype ComparisonResult = OrderedAscending | OrderedSame | OrderedDescending

  /**
   * The laws assumed of `localizedStandardCompare`: swapping the operands
   * swaps the answer, every string compares the same as itself, and "not
   * after" is transitive. Together they make it a total preorder.
   */
  ghost predicate IsCollation(collate: (string, string) -> ComparisonResult) {
    && (forall a, b :: collate(a, b) == OrderedAscending <==> collate(b, a) == OrderedDescending)
    && (forall a :: collate(a, a) == OrderedSame)
    && (forall a, b, c :: collate(a, b) != OrderedDescending && collate(b, c) != OrderedDescending
                          ==> collate(a, c) != OrderedDescending)
  }

  datatype SortOption =
    | PlayCountDescending
    | PlayCountAscending
    | TitleAscending
    | TitleDescending
    | ArtistAscending
    | ArtistDescending
    | AlbumAscending
    | AlbumDescending

  datatype Field = PlayCount | Title | Artist | Album

  /** The field an option sorts on. */
  function FieldOf(opt: SortOption): Field {
    match opt
    case PlayCountDescending | PlayCountAscending => PlayCount
    case TitleAscending | TitleDescending => Title
    case ArtistAscending | ArtistDescending => Artist
    case AlbumAscending | AlbumDescending => Album
  }

  predicate IsDescending(opt: SortOption) {
    opt.PlayCountDescending? || opt.TitleDescending? || opt.ArtistDescending? || opt.AlbumDescending?
  }

  /** `allCases`, in declaration order. */
  const AllCases: seq<SortOption> := [
    PlayCountDescending, PlayCountAscending, TitleAscending, TitleDescending,
    ArtistAscending, ArtistDescending, AlbumAscending, AlbumDescending]

  lemma AllCasesComplete(opt: SortOption)
    ensures opt in AllCases
    ensures multiset(AllCases)[opt] == 1
  {
  }

  /** Every direction of every field is one case. */
  lemma FieldAndDirectionDetermineCase(a: SortOption, b: SortOption)
    ensures a == b <==> FieldOf(a) == FieldOf(b) && (IsDescending(a) <==> IsDescending(b))
  {
  }

  // --------------------------------------------------------------- names

  /** The camel-case name of a field, as it begins a raw value. */
  function FieldName(f: Field): string {
    match f
    case PlayCount => "playCount"
    case Title => "title"
    case Artist => "artist"
    case Album => "album"
  }

  /** The direction word that ends a raw value. */
  function DirectionName(descending: bool): string {
    if descending then "Descending" else "Ascending"
  }

  /**
   * The enum's `String` raw value, which is also its `id`: the field's name
   * followed by the direction.
   */
  function RawValue(opt: SortOption): (r: string)
    ensures r == FieldName(FieldOf(opt)) + DirectionName(IsDescending(opt))
  {
    match opt
    case PlayCountDescending => assert "playCount" + "Descending" == "playCountDescending"; "playCountDescending"
    case PlayCountAscending => assert "playCount" + "Ascending" == "playCountAscending"; "playCountAscending"
    case TitleAscending => assert "title" + "Ascending" == "titleAscending"; "titleAscending"
    case TitleDescending => assert "title" + "Descending" == "titleDescending"; "titleDescending"
    case ArtistAscending => assert "artist" + "Ascending" == "artistAscending"; "artistAscending"
    case ArtistDescending => assert "artist" + "Descending" == "artistDescending"; "artistDescending"
    case AlbumAscending => assert "album" + "Ascending" == "albumAscending"; "albumAscending"
    case AlbumDescending => assert "album" + "Descending" == "albumDescending"; "albumDescending"
  }

  /** `id`: the raw value. */
  function Id(opt: SortOption): (r: string)
    ensures FromRawValue(r) == Some(opt)
  {
    RawValueRoundTrip(opt);
    RawValue(opt)
  }

  /** `init?(rawValue:)`: the case with that raw value, if any. */
  function FromRawValue(s: string): (r: Option<SortOption>)
    ensures r.Some? ==> RawValue(r.value) == s
  {
    if s == "playCountDescending" then Some(PlayCountDescending)
    else if s == "playCountAscending" then Some(PlayCountAscending)
    else if s == "titleAscending" then Some(TitleAscending)
    else if s == "titleDescending" then Some(TitleDescending)
    else if s == "artistAscending" then Some(ArtistAscending)
    else if s == "artistDescending" then Some(ArtistDescending)
    else if s == "albumAscending" then Some(AlbumAscending)
    else if s == "albumDescending" then Some(AlbumDescending)
    else None
  }

  lemma RawValueRoundTrip(opt: SortOption)
    ensures FromRawValue(RawValue(opt)) == Some(opt)
  {
  }

  /** The eight raw values, and so the eight ids, are pairwise distinct. */
  lemma RawValuesDistinct(a: SortOption, b: SortOption)
    ensures RawValue(a) == RawValue(b) <==> a == b
  {
  }

  /** `displayName`: the field's name, whatever the direction. */
  function DisplayName(opt: SortOption): (r: string)
    ensures 0 < |r|
  {
    match FieldOf(opt)
    case PlayCount => "Play Count"
    case Title => "Title"
    case Artist => "Artist"
    case Album => "Album"
  }

  /** `shortLabel`, spelled out case by case in `SortOption.swift`. */
  function ShortLabel(opt: SortOption): (r: string)
    ensures 0 < |r|
  {
    match opt
    case PlayCountDescending => "Play Count"
    case PlayCountAscending => "Play Count"
    case TitleAscending => "Title"
    case TitleDescending => "Title"
    case ArtistAscending => "Artist"
    case ArtistDescending => "Artist"
    case AlbumAscending => "Album"
    case AlbumDescending => "Album"
  }

  /** Both labels name the field and nothing else: equal labels, equal fields. */
  lemma LabelsFollowField(a: SortOption, b: SortOption)
    ensures ShortLabel(a) == DisplayName(a)
    ensures DisplayName(a) == DisplayName(b) <==> FieldOf(a) == FieldOf(b)
  {
  }

  /** `icon(isSelected:)`: the SF Symbol name for the direction, filled when selected. */
  function Icon(opt: SortOption, isSelected: bool): (r: string)
    ensures 15 <= |r|
    ensures |r| == (if IsDescending(opt) then 17 else 15) + (if isSelected then 5 else 0)
    ensures r[6] == 'd' <==> IsDescending(opt)
    ensures r[|r| - 5..] == ".fill" <==> isSelected
    ensures IsDescending(opt) ==> r[..17] == "arrow.down.circle"
    ensures !IsDescending(opt) ==> r[..15] == "arrow.up.circle"
  {
    var base := if IsDescending(opt) then "arrow.down.circle" else "arrow.up.circle";
    var suffix := if isSelected then ".fill" else "";
    IconParts(base, suffix);
    base + suffix
  }

  lemma IconParts(base: string, suffix: string)
    requires base == "arrow.down.circle" || base == "arrow.up.circle"
    requires suffix == ".fill" || suffix == ""
    ensures (base + suffix)[..|base|] == base && (base + suffix)[6] == base[6]
    ensures (base + suffix)[|base + suffix| - 5..] == ".fill" <==> suffix == ".fill"
  {
    var r := base + suffix;
    if suffix == "" {
      assert r == base;
      assert r[|r| - 5..] == "ircle";
    } else {
      assert r[|r| - 5..] == suffix;
    }
  }

  // ------------------------------------------------------------- sorting

  /** The text field an option compares. */
  function TextOf(f: Field, s: Song): string
    requires f != PlayCount
  {
    match f
    case Title => s.title
    case Artist => s.artist
    case Album => s.album
  }

  /** The `areInIncreasingOrder` closure `sorted(_:)` hands to `Array.sorted(by:)`. */
  function Before(opt: SortOption, collate: (string, string) -> ComparisonResult): (lt: (Song, Song) -> bool)
    ensures IsCollation(collate) ==> forall a, b :: lt(b, a) <==> !MayPrecede(opt, collate, a, b)
  {
    match opt
    case PlayCountDescending => MorePlays
    case PlayCountAscending => FewerPlays
    case TitleAscending => (a: Song, b: Song) => collate(a.title, b.title) == OrderedAscending
    case TitleDescending => (a: Song, b: Song) => collate(a.title, b.title) == OrderedDescending
    case ArtistAscending => (a: Song, b: Song) => collate(a.artist, b.artist) == OrderedAscending
    case ArtistDescending => (a: Song, b: Song) => collate(a.artist, b.artist) == OrderedDescending
    case AlbumAscending => (a: Song, b: Song) => collate(a.album, b.album) == OrderedAscending
    case AlbumDescending => (a: Song, b: Song) => collate(a.album, b.album) == OrderedDescending
  }

  /**
   * The reference order: `a` may come before `b` in the output of `opt`,
   * stated on the field and direction directly.
   */
  predicate MayPrecede(opt: SortOption, collate: (string, string) -> ComparisonResult, a: Song, b: Song) {
    if FieldOf(opt) == PlayCount then
      (if IsDescending(opt) then a.playCount >= b.playCount else a.playCount <= b.playCount)
    else
      var c := collate(TextOf(FieldOf(opt), a), TextOf(FieldOf(opt), b));
      if IsDescending(opt) then c != OrderedAscending else c != OrderedDescending
  }

  /** Each descending option uses its ascending twin's predicate with the operands swapped. */
  lemma DescendingSwapsOperands(opt: SortOption, collate: (string, string) -> ComparisonResult, a: Song, b: Song)
    requires IsCollation(collate)
    requires IsDescending(opt)
    ensures var twin := match opt
              case PlayCountDescending => PlayCountAscending
              case TitleDescending => TitleAscending
              case ArtistDescending => ArtistAscending
              case _ => AlbumAscending;
            Before(opt, collate)(a, b) == Before(twin, collate)(b, a)
  {
  }

  /** "Strictly before" under the collation: `localizedStandardCompare(x, y) == .orderedAscending`. */
  predicate Precedes(collate: (string, string) -> ComparisonResult, x: string, y: string) {
    collate(x, y) == OrderedAscending
  }

  lemma PrecedesIsStrictWeak(collate: (string, string) -> ComparisonResult)
    requires IsCollation(collate)
    ensures forall x :: !Precedes(collate, x, x)
    ensures forall x, y, z :: Precedes(collate, x, y) && Precedes(collate, y, z) ==> Precedes(collate, x, z)
    ensures forall x, y, z :: Precedes(collate, x, z) ==> Precedes(collate, x, y) || Precedes(collate, y, z)
  {
  }

  /** The text predicates are `Precedes` on the field, the operands swapped when descending. */
  lemma BeforeOnText(opt: SortOption, collate: (string, string) -> ComparisonResult, a: Song, b: Song)
    requires IsCollation(collate) && FieldOf(opt) != PlayCount
    ensures var f := FieldOf(opt);
            Before(opt, collate)(a, b) ==
              if IsDescending(opt) then Precedes(collate, TextOf(f, b), TextOf(f, a))
              else Precedes(collate, TextOf(f, a), TextOf(f, b))
  {
  }

  lemma BeforeIsStrictWeak(opt: SortOption, collate: (string, string) -> ComparisonResult)
    requires IsCollation(collate)
    ensures StrictWeakOrder(Before(opt, collate))
  {
    var lt := Before(opt, collate);
    if FieldOf(opt) != PlayCount {
      var f := FieldOf(opt);
      PrecedesIsStrictWeak(collate);
      forall a ensures !lt(a, a) {
        BeforeOnText(opt, collate, a, a);
      }
      forall a, b, c | lt(a, b) && lt(b, c) ensures lt(a, c) {
        BeforeOnText(opt, collate, a, b);
        BeforeOnText(opt, collate, b, c);
        BeforeOnText(opt, collate, a, c);
      }
      forall a, b, c | lt(a, c) ensures lt(a, b) || lt(b, c) {
        BeforeOnText(opt, collate, a, b);
        BeforeOnText(opt, collate, b, c);
        BeforeOnText(opt, collate, a, c);
      }
    }
  }

  /** Outside the strict predicate, two songs may be placed in either order. */
  lemma NotBeforeMeansMayPrecede(opt: SortOption, collate: (string, string) -> ComparisonResult, a: Song, b: Song)
    requires IsCollation(collate)
    ensures !Before(opt, collate)(b, a) <==> MayPrecede(opt, collate, a, b)
  {
  }

  /** `sorted(_:)`: a stable sort of the songs by the option's predicate. */
  function Sorted(opt: SortOption, songs: seq<Song>, collate: (string, string) -> ComparisonResult): (r: seq<Song>)
    ensures |r| == |songs|
    ensures multiset(r) == multiset(songs)
  {
    Sort(songs, Before(opt, collate))
  }

  /** The output is ordered by the option's field and direction. */
  lemma SortedIsOrdered(opt: SortOption, songs: seq<Song>, collate: (string, string) -> ComparisonResult)
    requires IsCollation(collate)
    ensures forall i, j :: 0 <= i < j < |Sorted(opt, songs, collate)| ==>
              MayPrecede(opt, collate, Sorted(opt, songs, collate)[i], Sorted(opt, songs, collate)[j])
  {
    var r := Sorted(opt, songs, collate);
    BeforeIsStrictWeak(opt, collate);
    SortSorted(songs, Before(opt, collate));
    forall i, j | 0 <= i < j < |r| ensures MayPrecede(opt, collate, r[i], r[j]) {
      NotBeforeMeansMayPrecede(opt, collate, r[i], r[j]);
    }
  }

  /**
   * Stability: songs whose keys compare equal to any `x` keep their input
   * order.
   */
  lemma SortedIsStable(opt: SortOption, songs: seq<Song>, collate: (string, string) -> ComparisonResult, x: Song)
    requires IsCollation(collate)
    ensures Ties(Sorted(opt, songs, collate), Before(opt, collate), x) == Ties(songs, Before(opt, collate), x)
  {
    BeforeIsStrictWeak(opt, collate);
    SortStable(songs, Before(opt, collate), x);
  }

  /** Empty and one-song lists come back unchanged. */
  lemma SortedOfShort(opt: SortOption, songs: seq<Song>, collate: (string, string) -> ComparisonResult)
    requires |songs| <= 1
    ensures Sorted(opt, songs, collate) == songs
  {
  }

  /**
   * Descending is not the ascending result reversed: two songs with equal
   * play counts keep their input order under both directions.
   */
  lemma DescendingIsNotReversedAscending(collate: (string, string) -> ComparisonResult)
    ensures var a := Song(1, "A", "X", "P", 5, true, "music");
            var b := Song(2, "B", "Y", "Q", 5, true, "music");
            && Sorted(PlayCountAscending, [a, b], collate) == [a, b]
            && Sorted(PlayCountDescending, [a, b], collate) == [a, b]
  {
    var a := Song(1, "A", "X", "P", 5, true, "music");
    var b := Song(2, "B", "Y", "Q", 5, true, "music");
    assert [a, b][..1] == [a];
    SortOfShort([a], Before(PlayCountAscending, collate));
    SortOfShort([a], Before(PlayCountDescending, collate));
  }
}
