/**
 * The logic of `ComparisonView`: which of the two songs is selected for
 * queueing, how many copies Match Mode and Add Mode queue and when each is
 * disabled, the label naming the selected song, and the summary line.
 */
module Comparison {
  import opened Wrappers
  import opened Text
  import opened Songs

  /** The view's inputs and its one piece of state, `selectedSongForQueue`. */
  datatype ComparisonState = ComparisonState(song1: Song, song2: Song, selection: Option<Song>)

  /** The two songs are different tracks, and any selection is one of them. */
  ghost predicate Valid(v: ComparisonState) {
    && v.song1.id != v.song2.id
    && (v.selection.Some? ==> v.selection.value == v.song1 || v.selection.value == v.song2)
  }

  // ------------------------------------------------------------ selection

  /**
   * The `.task` default: no selection when the play counts are equal,
   * otherwise the song with fewer plays.
   */
  function DefaultSelection(song1: Song, song2: Song): (r: Option<Song>)
    ensures r.None? <==> song1.playCount == song2.playCount
    ensures r.Some? ==> (r.value == song1 && song1.playCount < song2.playCount)
                        || (r.value == song2 && song2.playCount < song1.playCount)
  {
    if song1.playCount == song2.playCount then None
    else Some(if song1.playCount <= song2.playCount then song1 else song2)
  }

  /** The view as it stands once its `.task` has run. */
  function Open(song1: Song, song2: Song): (v: ComparisonState)
    ensures v.song1 == song1 && v.song2 == song2
    ensures song1.id != song2.id ==> Valid(v)
  {
    ComparisonState(song1, song2, DefaultSelection(song1, song2))
  }

  /**
   * `selectedSong`: the selection, or else the song with fewer plays,
   * `song1` on a tie.
   */
  function SelectedSong(v: ComparisonState): (r: Song)
    ensures v.selection.Some? ==> r == v.selection.value
    ensures v.selection.None? ==> r == v.song1 || r == v.song2
    ensures v.selection.None? ==> r.playCount <= v.song1.playCount && r.playCount <= v.song2.playCount
    ensures v.selection.None? && v.song1.playCount == v.song2.playCount ==> r == v.song1
  {
    match v.selection
    case Some(s) => s
    case None => if v.song1.playCount <= v.song2.playCount then v.song1 else v.song2
  }

  /** `otherSong`: the song that is not the selected one, told apart by id. */
  function OtherSong(v: ComparisonState): (r: Song)
    ensures r == v.song1 || r == v.song2
    ensures Valid(v) ==> r.id != SelectedSong(v).id
    ensures Valid(v) ==> (SelectedSong(v) == v.song1 <==> r == v.song2)
  {
    if SelectedSong(v).id == v.song1.id then v.song2 else v.song1
  }

  /** `selectSong(_:)`: a tap selects that song. */
  function SelectSong(v: ComparisonState, song: Song): (r: ComparisonState)
    ensures r.song1 == v.song1 && r.song2 == v.song2
    ensures SelectedSong(r) == song
    ensures Valid(v) && (song == v.song1 || song == v.song2) ==> Valid(r)
  {
    v.(selection := Some(song))
  }

  /** After tapping one song of a valid view, the other one is the other song. */
  lemma SelectingPicksTheOther(v: ComparisonState)
    requires Valid(v)
    ensures OtherSong(SelectSong(v, v.song1)) == v.song2
    ensures OtherSong(SelectSong(v, v.song2)) == v.song1
  {
  }

  // --------------------------------------------------------------- queueing

  /** What a button hands to the queue service: a song and a number of copies. */
  datatype QueueRequest = QueueRequest(song: Song, count: nat)

  /** `matchPlaysNeeded`: the other song's plays minus the selected song's, possibly negative. */
  function MatchPlaysNeeded(v: ComparisonState): (n: int)
    ensures SelectedSong(v).playCount + n == OtherSong(v).playCount
  {
    OtherSong(v).playCount - SelectedSong(v).playCount
  }

  /**
   * `isMatchModeDisabled`: nothing is selected, or the selected song already
   * has at least as many plays as the other.
   */
  predicate IsMatchModeDisabled(v: ComparisonState): (b: bool)
    ensures b <==> v.selection.None? || OtherSong(v).playCount <= SelectedSong(v).playCount
    ensures Valid(v) ==> (b <==> || v.selection.None?
                                 || (v.selection.value == v.song1 && v.song2.playCount <= v.song1.playCount)
                                 || (v.selection.value == v.song2 && v.song1.playCount <= v.song2.playCount))
  {
    v.selection.None? || MatchPlaysNeeded(v) <= 0
  }

  /**
   * The Match Mode button: when enabled it queues enough copies of the
   * selected song to bring it level with the other.
   */
  function MatchModeRequest(v: ComparisonState): (r: Option<QueueRequest>)
    ensures r.None? <==> v.selection.None? || SelectedSong(v).playCount >= OtherSong(v).playCount
    ensures r.Some? ==> r.value.song == SelectedSong(v) && 0 < r.value.count
    ensures r.Some? ==> r.value.song.playCount + r.value.count == OtherSong(v).playCount
  {
    if IsMatchModeDisabled(v) then None else Some(QueueRequest(SelectedSong(v), MatchPlaysNeeded(v)))
  }

  /** `addModeTargetPlays`: as many copies as the song not selected has plays. */
  function AddModeTargetPlays(v: ComparisonState): (n: nat)
    ensures n == OtherSong(v).playCount
    ensures Valid(v) && v.selection.Some? ==>
              n == if v.selection.value == v.song1 then v.song2.playCount else v.song1.playCount
  {
    OtherSong(v).playCount
  }

  /** `isAddModeDisabled`: nothing is selected, or the other song has no plays to add. */
  predicate IsAddModeDisabled(v: ComparisonState): (b: bool)
    ensures b <==> v.selection.None? || OtherSong(v).playCount == 0
    ensures Valid(v) ==> (b <==> || v.selection.None?
                                 || (v.selection.value == v.song1 && v.song2.playCount == 0)
                                 || (v.selection.value == v.song2 && v.song1.playCount == 0))
  {
    v.selection.None? || AddModeTargetPlays(v) == 0
  }

  /**
   * The Add Mode button: when enabled it queues the other song's play count
   * in copies of the selected song, for a total of both counts.
   */
  function AddModeRequest(v: ComparisonState): (r: Option<QueueRequest>)
    ensures r.None? <==> v.selection.None? || OtherSong(v).playCount == 0
    ensures r.Some? ==> r.value.song == SelectedSong(v) && r.value.count == OtherSong(v).playCount
    ensures r.Some? ==> r.value.song.playCount + r.value.count
                        == SelectedSong(v).playCount + OtherSong(v).playCount
  {
    if IsAddModeDisabled(v) then None else Some(QueueRequest(SelectedSong(v), AddModeTargetPlays(v)))
  }

  /**
   * Under the default selection with unequal counts, Match Mode is enabled
   * and queues the difference on the less-played song.
   */
  lemma MatchAfterDefaultSelection(song1: Song, song2: Song)
    requires song1.id != song2.id && song1.playCount != song2.playCount
    ensures var v := Open(song1, song2);
            && !IsMatchModeDisabled(v)
            && MatchModeRequest(v).Some?
            && MatchModeRequest(v).value.song.playCount < OtherSong(v).playCount
            && MatchModeRequest(v).value.count
               == (if song1.playCount < song2.playCount then song2.playCount - song1.playCount
                   else song1.playCount - song2.playCount)
  {
  }

  /** With equal counts nothing is selected and both buttons start disabled. */
  lemma EqualCountsStartDisabled(song1: Song, song2: Song)
    requires song1.playCount == song2.playCount
    ensures IsMatchModeDisabled(Open(song1, song2)) && IsAddModeDisabled(Open(song1, song2))
    ensures MatchModeRequest(Open(song1, song2)).None? && AddModeRequest(Open(song1, song2)).None?
  {
  }

  // ------------------------------------------------------------------ text

  /** Both titles and both artists agree once lower-cased. */
  predicate SameNames(v: ComparisonState) {
    Lower(v.song1.title) == Lower(v.song2.title) && Lower(v.song1.artist) == Lower(v.song2.artist)
  }

  /**
   * `selectedSongLabel`: the selected title, followed by " (Song 1)" or
   * " (Song 2)" exactly when the two songs' names agree up to case.
   */
  function SelectedSongLabel(v: ComparisonState): (r: string)
    ensures var title := SelectedSong(v).title;
            && |title| <= |r| && r[..|title|] == title
            && (|r| == |title| <==> !SameNames(v))
            && (SameNames(v) ==> r[|title|..] == " (Song 1)" || r[|title|..] == " (Song 2)")
            && (SameNames(v) ==> (r[|title|..] == " (Song 1)" <==> SelectedSong(v).id == v.song1.id))
  {
    var title := SelectedSong(v).title;
    var suffix := if !SameNames(v) then ""
                  else if SelectedSong(v).id == v.song1.id then " (Song 1)"
                  else " (Song 2)";
    assert (title + suffix)[..|title|] == title && (title + suffix)[|title|..] == suffix;
    title + suffix
  }

  /** `difference`: song 1's plays minus song 2's. */
  function Difference(v: ComparisonState): (d: int)
    ensures d == 0 <==> v.song1.playCount == v.song2.playCount
    ensures v.song2.playCount + d == v.song1.playCount
  {
    v.song1.playCount - v.song2.playCount
  }

  const WinnerLead: string := "Song "
  const WinnerMiddle: string := " has been played "
  const WinnerTail: string := " more times"

  /**
   * `winnerText`: names song 1 when it has more plays and song 2 otherwise,
   * with the size of the gap.
   */
  function WinnerText(v: ComparisonState): (r: string)
    ensures |r| > 23 + 11
    ensures r[..5] == WinnerLead && r[6..23] == WinnerMiddle && r[|r| - 11..] == WinnerTail
    ensures r[5] == '1' <==> Difference(v) > 0
    ensures r[5] == '2' <==> Difference(v) <= 0
    ensures ParseNat(r[23..|r| - 11]) == Some(if Difference(v) > 0 then Difference(v) else -Difference(v))
    ensures |r| == 23 + 1 + 11 || r[23] != '0'
  {
    var d := Difference(v);
    var n: nat := if d > 0 then d else -d;
    var r := WinnerLead + (if d > 0 then "1" else "2") + WinnerMiddle + NatToString(n) + WinnerTail;
    ParseNatToString(n);
    assert r[23..|r| - 11] == NatToString(n);
    r
  }

  const SameCountText: string := "Both songs have the same play count!"

  /** The summary line under the chart: the winner text, unless the counts are equal. */
  function Summary(v: ComparisonState): (r: string)
    ensures r == SameCountText <==> Difference(v) == 0
    ensures Difference(v) != 0 ==> r == WinnerText(v)
  {
    if Difference(v) != 0 then WinnerText(v) else SameCountText
  }
}
