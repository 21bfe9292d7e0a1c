/** A group of tracks sharing a title and artist but counted separately (`Suggestion`). */
module Suggestions {
  import opened Songs
  import opened Text
  import opened Wrappers

  /** The group's `UUID`, drawn by the caller; only its identity matters. */
  type Uuid = nat

  datatype Suggestion = Suggestion(
    id: Uuid,
    sharedTitle: string,
    sharedArtist: string,
    songs: seq<Song>)

  /** A suggestion satisfying the initializer's precondition: two songs or more. */
  type ValidSuggestion = g: Suggestion | 2 <= |g.songs|
    witness Suggestion(0, "", "", [Song(0, "", "", "", 0, false, ""), Song(1, "", "", "", 0, false, "")])

  /** `Suggestion(id:sharedTitle:sharedArtist:songs:)`; fewer than two songs is a precondition failure. */
  function MakeSuggestion(id: Uuid, sharedTitle: string, sharedArtist: string, songs: seq<Song>): (g: ValidSuggestion)
    requires 2 <= |songs|
    ensures g.id == id && g.sharedTitle == sharedTitle && g.sharedArtist == sharedArtist
    ensures g.songs == songs
  {
    Suggestion(id, sharedTitle, sharedArtist, songs)
  }

  /**
   * Position of `songs.min(by: <)`: the scan keeps its current pick unless a
   * later song has strictly fewer plays, so the first minimum wins.
   */
  function LowestIndex(s: seq<Song>): (i: nat)
    requires 0 < |s|
    ensures i < |s|
    ensures forall j :: 0 <= j < |s| ==> s[i].playCount <= s[j].playCount
    ensures forall j :: 0 <= j < i ==> s[i].playCount < s[j].playCount
  {
    if |s| == 1 then 0
    else
      var m := LowestIndex(s[..|s| - 1]);
      if s[|s| - 1].playCount < s[m].playCount then |s| - 1 else m
  }

  /**
   * Position of `songs.max(by: <)`: the scan replaces its pick whenever a
   * later song is not strictly below it, so the last maximum wins.
   */
  function HighestIndex(s: seq<Song>): (i: nat)
    requires 0 < |s|
    ensures i < |s|
    ensures forall j :: 0 <= j < |s| ==> s[j].playCount <= s[i].playCount
    ensures forall j :: i < j < |s| ==> s[j].playCount < s[i].playCount
  {
    if |s| == 1 then 0
    else
      var m := HighestIndex(s[..|s| - 1]);
      if !(s[|s| - 1].playCount < s[m].playCount) then |s| - 1 else m
  }

  /** `lowestPlayCount`: a member with no more plays than any other. */
  function LowestPlayCount(g: ValidSuggestion): (r: Song)
    ensures r in g.songs
    ensures forall j :: 0 <= j < |g.songs| ==> r.playCount <= g.songs[j].playCount
  {
    g.songs[LowestIndex(g.songs)]
  }

  /** `highestPlayCount`: a member with no fewer plays than any other. */
  function HighestPlayCount(g: ValidSuggestion): (r: Song)
    ensures r in g.songs
    ensures forall j :: 0 <= j < |g.songs| ==> g.songs[j].playCount <= r.playCount
  {
    g.songs[HighestIndex(g.songs)]
  }

  /** All members have the same play count. */
  ghost predicate UniformPlays(s: seq<Song>) {
    forall i, j :: 0 <= i < |s| && 0 <= j < |s| ==> s[i].playCount == s[j].playCount
  }

  /**
   * `playCountDifference`: the widest spread between two members' play
   * counts; zero exactly when all members agree.
   */
  function PlayCountDifference(g: ValidSuggestion): (d: int)
    ensures 0 <= d
    ensures forall i, j :: 0 <= i < |g.songs| && 0 <= j < |g.songs| ==>
              g.songs[i].playCount - g.songs[j].playCount <= d
    ensures exists i, j :: 0 <= i < |g.songs| && 0 <= j < |g.songs| &&
              g.songs[i].playCount - g.songs[j].playCount == d
    ensures d == 0 <==> UniformPlays(g.songs)
  {
    var hi, lo := HighestIndex(g.songs), LowestIndex(g.songs);
    var d := g.songs[hi].playCount - g.songs[lo].playCount;
    assert d == 0 ==> UniformPlays(g.songs) by {
      if d == 0 {
        forall i, j | 0 <= i < |g.songs| && 0 <= j < |g.songs|
          ensures g.songs[i].playCount == g.songs[j].playCount
        {
        }
      }
    }
    assert UniformPlays(g.songs) ==> d == 0 by {
      if UniformPlays(g.songs) {
        assert g.songs[hi].playCount == g.songs[lo].playCount;
      }
    }
    d
  }

  /** `versionCount`: the member count followed by " versions". */
  function VersionCount(g: ValidSuggestion): (r: string)
    ensures |r| > 9 && r[|r| - 9..] == " versions"
    ensures ParseNat(r[..|r| - 9]) == Some(|g.songs|)
    ensures |r| == 10 || r[0] != '0'
  {
    var n := NatToString(|g.songs|);
    ParseNatToString(|g.songs|);
    var r := n + " versions";
    assert r[..|r| - 9] == n;
    r
  }

  /**
   * `canDismissIndividualSongs`: more than two members, so that removing any
   * one of them still leaves a valid group.
   */
  predicate CanDismissIndividualSongs(g: ValidSuggestion): (b: bool)
    ensures b <==> forall i :: 0 <= i < |g.songs| ==> 2 <= |g.songs[..i] + g.songs[i + 1..]|
  {
    assert |g.songs[..0] + g.songs[1..]| == |g.songs| - 1;
    |g.songs| > 2
  }

  /** `updateSongs(_:)`: replaces the members, keeping the group's identity and display fields. */
  function UpdateSongs(g: ValidSuggestion, newSongs: seq<Song>): (r: ValidSuggestion)
    requires 2 <= |newSongs|
    ensures r.id == g.id && r.sharedTitle == g.sharedTitle && r.sharedArtist == g.sharedArtist
    ensures r.songs == newSongs
  {
    g.(songs := newSongs)
  }

  /** Equality includes the id: groups of identical songs with different ids differ. */
  lemma DistinctIdsDistinctSuggestions(g: ValidSuggestion, h: ValidSuggestion)
    requires g.id != h.id
    ensures g != h
  {
  }

  lemma DifferenceExamples(a: Song, b: Song, c: Song, d: Song)
    requires a.playCount == 5 && b.playCount == 15 && c.playCount == 25 && d.playCount == 35
    ensures PlayCountDifference(Suggestion(0, "Test Song", "Test Artist", [a, b, c, d])) == 30
    ensures PlayCountDifference(Suggestion(0, "Test Song", "Test Artist", [c, c])) == 0
  {
    var g: ValidSuggestion := Suggestion(0, "Test Song", "Test Artist", [a, b, c, d]);
    var lo := LowestPlayCount(g);
    assert lo.playCount <= g.songs[0].playCount;
    assert HighestPlayCount(g).playCount == 35;
  }
}
