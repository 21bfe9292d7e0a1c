/**
 * `SuggestionsService`: groups the library into duplicate suggestions,
 * keeps the set of dismissal keys and its persisted copy, and derives the
 * active suggestions from the two on every read.
 */
module SuggestionsService {
  import opened Wrappers
  import opened Text
  import opened Sorting
  import opened Songs
  import opened Suggestions
  import opened Grouping

  // ------------------------------------------------------------------ keys

  /**
   * The bucket key: the normalized title and the normalized artist, joined
   * by a dash.
   */
  function GroupKey(title: string, artist: string): (k: string)
    ensures var t := Normalize(title);
            && |t| < |k| && k[..|t|] == t && k[|t|] == '-' && k[|t| + 1..] == Normalize(artist)
  {
    var t, a := Normalize(title), Normalize(artist);
    assert (t + "-" + a)[..|t|] == t && (t + "-" + a)[|t| + 1..] == a;
    t + "-" + a
  }

  /** No key holds an upper-case letter, whatever the case of the names. */
  lemma GroupKeyIsLowered(title: string, artist: string)
    ensures IsLowered(GroupKey(title, artist))
  {
    var k, t := GroupKey(title, artist), Normalize(title);
    forall i | 0 <= i < |k| ensures !IsAsciiUpper(k[i]) {
      if i < |t| {
        assert k[i] == k[..|t|][i];
      } else if i > |t| {
        assert k[i] == k[|t| + 1..][i - |t| - 1];
      }
    }
  }

  /** Keys are built from normalized names, so normalizing first changes nothing. */
  lemma GroupKeyOfNormalized(title: string, artist: string)
    ensures GroupKey(Normalize(title), Normalize(artist)) == GroupKey(title, artist)
  {
    NormalizeIdempotent(title);
    NormalizeIdempotent(artist);
  }

  function SongGroupKey(s: Song): string {
    GroupKey(s.title, s.artist)
  }

  /** The key a suggestion is looked up under, built from its display fields. */
  function SuggestionKey(g: Suggestion): string {
    GroupKey(g.sharedTitle, g.sharedArtist)
  }

  /** Dismissal of a whole group: the group key and a dash, then a tag that is not a number. */
  function GroupDismissalKey(key: string): (r: string)
    ensures |key| + 1 < |r| && r[..|key| + 1] == key + "-"
    ensures ParseNat(r[|key| + 1..]) == None
  {
    var r := key + "-ENTIRE_GROUP";
    assert r[..|key| + 1] == key + "-" && r[|key| + 1] == 'E';
    r
  }

  /** Dismissal of one member: the group key and a dash, then the member's persistent id. */
  function SongDismissalKey(key: string, id: UInt64): (r: string)
    ensures |key| + 1 < |r| && r[..|key| + 1] == key + "-"
    ensures ParseNat(r[|key| + 1..]) == Some(id)
  {
    var r := key + "-" + NatToString(id);
    assert r[..|key| + 1] == key + "-" && r[|key| + 1..] == NatToString(id);
    ParseNatToString(id);
    r
  }

  /** Within one group, member keys name exactly one id each. */
  lemma SongDismissalKeyInjective(key: string, a: UInt64, b: UInt64)
    ensures SongDismissalKey(key, a) == SongDismissalKey(key, b) <==> a == b
  {
    if SongDismissalKey(key, a) == SongDismissalKey(key, b) {
      var n := |key| + 1;
      assert NatToString(a) == SongDismissalKey(key, a)[n..];
      assert NatToString(b) == SongDismissalKey(key, b)[n..];
      NatToStringInjective(a, b);
    }
  }

  /** Within one group, no member key is the group-dismissal key. */
  lemma SongKeyIsNotGroupKey(key: string, id: UInt64)
    ensures SongDismissalKey(key, id) != GroupDismissalKey(key)
  {
    var n := |key| + 1;
    assert SongDismissalKey(key, id)[n] == NatToString(id)[0];
    assert GroupDismissalKey(key)[n] == 'E';
  }

  // --------------------------------------------------------------- buckets

  /** The songs filed under `key`, in input order. */
  function SongBucket(songs: seq<Song>, key: string): seq<Song> {
    Bucket(songs, SongGroupKey, key)
  }

  /** `order` lists every key of `m` once: one iteration order of the dictionary. */
  ghost predicate EnumeratesKeys(order: seq<string>, m: map<string, seq<Song>>) {
    Distinct(order) && forall k :: k in order <==> k in m
  }

  /** The `guard songsInGroup.count >= 2` of `analyzeSongs`: the bucket yields a suggestion. */
  predicate IsGroupKey(songs: seq<Song>, key: string) {
    2 <= |SongBucket(songs, key)|
  }

  function GroupKeyTest(songs: seq<Song>): string -> bool {
    (key: string) => IsGroupKey(songs, key)
  }

  /**
   * `g` is the suggestion for its own bucket: the bucket has two songs or
   * more, the display fields come from its first song, and the members are
   * the bucket stably sorted by ascending play count.
   */
  ghost predicate IsGroupOf(g: Suggestion, songs: seq<Song>) {
    var b := SongBucket(songs, SuggestionKey(g));
    && 2 <= |b|
    && g.sharedTitle == b[0].title
    && g.sharedArtist == b[0].artist
    && multiset(g.songs) == multiset(b)
    && SortedBy(g.songs, FewerPlays)
    && (forall x :: Ties(g.songs, FewerPlays, x) == Ties(b, FewerPlays, x))
  }

  /** The suggestion `analyzeSongs` builds from one bucket of two songs or more. */
  function GroupFor(songs: seq<Song>, key: string, id: Uuid): (g: ValidSuggestion)
    requires IsGroupKey(songs, key)
    ensures SuggestionKey(g) == key && g.id == id
    ensures IsGroupOf(g, songs)
  {
    var b := SongBucket(songs, key);
    assert SongGroupKey(b[0]) == key;
    PlayCountOrdersAreStrictWeak();
    SortSorted(b, FewerPlays);
    assert forall x :: Ties(Sort(b, FewerPlays), FewerPlays, x) == Ties(b, FewerPlays, x) by {
      forall x ensures Ties(Sort(b, FewerPlays), FewerPlays, x) == Ties(b, FewerPlays, x) {
        SortStable(b, FewerPlays, x);
      }
    }
    MakeSuggestion(id, b[0].title, b[0].artist, Sort(b, FewerPlays))
  }

  /** One suggestion per kept key, the `i`-th drawing the `i`-th fresh id. */
  function GroupsFrom(songs: seq<Song>, keys: seq<string>, ids: seq<Uuid>): (r: seq<ValidSuggestion>)
    requires |keys| <= |ids|
    requires forall i :: 0 <= i < |keys| ==> IsGroupKey(songs, keys[i])
    ensures |r| == |keys|
    ensures forall i :: 0 <= i < |r| ==> SuggestionKey(r[i]) == keys[i] && r[i].id == ids[i]
    ensures forall i :: 0 <= i < |r| ==> IsGroupOf(r[i], songs)
  {
    seq(|keys|, i requires 0 <= i < |keys| => GroupFor(songs, keys[i], ids[i]))
  }

  /** No two suggestions share a key. */
  ghost predicate DistinctKeys(r: seq<Suggestion>) {
    forall i, j :: 0 <= i < j < |r| ==> SuggestionKey(r[i]) != SuggestionKey(r[j])
  }

  /** The keys that survive `guard songsInGroup.count >= 2`, in iteration order. */
  function AnalyzedKeys(songs: seq<Song>, order: seq<string>): (keys: seq<string>)
    ensures |keys| <= |order|
    ensures forall i :: 0 <= i < |keys| ==> IsGroupKey(songs, keys[i]) && keys[i] in order
  {
    var keys := Filter(order, GroupKeyTest(songs));
    assert forall i :: 0 <= i < |keys| ==> keys[i] in keys;
    keys
  }

  /** Every multi-song bucket of an enumerated dictionary keeps its key, once. */
  lemma AnalyzedKeysComplete(songs: seq<Song>, order: seq<string>)
    requires EnumeratesKeys(order, BuildBuckets(songs, SongGroupKey))
    ensures Distinct(AnalyzedKeys(songs, order))
    ensures forall k :: IsGroupKey(songs, k) ==> k in AnalyzedKeys(songs, order)
  {
    FilterDistinct(order, GroupKeyTest(songs));
    forall k | IsGroupKey(songs, k) ensures k in AnalyzedKeys(songs, order) {
      assert k in BuildBuckets(songs, SongGroupKey);
    }
  }

  /**
   * `analyzeSongs(_:)`: one suggestion per bucket of two songs or more, in
   * the dictionary's iteration order `order`, which Swift leaves
   * unspecified; `ids` are the fresh UUIDs drawn along the way.
   */
  function Analyze(songs: seq<Song>, order: seq<string>, ids: seq<Uuid>): (r: seq<ValidSuggestion>)
    requires EnumeratesKeys(order, BuildBuckets(songs, SongGroupKey)) && |ids| == |order|
    ensures |r| <= |order|
    ensures forall i :: 0 <= i < |r| ==> IsGroupOf(r[i], songs) && r[i].id == ids[i]
  {
    GroupsFrom(songs, AnalyzedKeys(songs, order), ids)
  }

  /** Exactly the buckets of two songs or more get a suggestion, and no bucket gets two. */
  lemma AnalyzeOneGroupPerBucket(songs: seq<Song>, order: seq<string>, ids: seq<Uuid>)
    requires EnumeratesKeys(order, BuildBuckets(songs, SongGroupKey)) && |ids| == |order|
    ensures forall k :: IsGroupKey(songs, k) <==>
              exists i :: 0 <= i < |Analyze(songs, order, ids)| && SuggestionKey(Analyze(songs, order, ids)[i]) == k
    ensures DistinctKeys(Analyze(songs, order, ids))
  {
    var keys := AnalyzedKeys(songs, order);
    var r := Analyze(songs, order, ids);
    AnalyzedKeysComplete(songs, order);
    forall k | IsGroupKey(songs, k) ensures exists i :: 0 <= i < |r| && SuggestionKey(r[i]) == k {
      var i :| 0 <= i < |keys| && keys[i] == k;
      assert SuggestionKey(r[i]) == k;
    }
  }

  lemma AnalyzeEmpty(order: seq<string>, ids: seq<Uuid>)
    requires EnumeratesKeys(order, BuildBuckets([], SongGroupKey)) && |ids| == |order|
    ensures Analyze([], order, ids) == []
  {
  }

  // ------------------------------------------------------------ dismissals

  /** The test `songs.filter` applies: the member key is not dismissed. */
  function NotDismissed(key: string, dismissed: set<string>): Song -> bool {
    (s: Song) => SongDismissalKey(key, s.id) !in dismissed
  }

  /** The members of a group whose member key is not dismissed, in order. */
  function Kept(songs: seq<Song>, key: string, dismissed: set<string>): (r: seq<Song>)
    ensures |r| <= |songs|
    ensures forall s :: s in r <==> s in songs && SongDismissalKey(key, s.id) !in dismissed
    ensures SortedBy(songs, FewerPlays) ==> SortedBy(r, FewerPlays)
  {
    var r := Filter(songs, NotDismissed(key, dismissed));
    assert SortedBy(songs, FewerPlays) ==> SortedBy(r, FewerPlays) by {
      if SortedBy(songs, FewerPlays) {
        FilterKeepsOrder(songs, NotDismissed(key, dismissed), FewerPlays);
      }
    }
    r
  }

  /** A kept member keeps all its copies; a dismissed one loses them all. */
  lemma KeptCounts(songs: seq<Song>, key: string, dismissed: set<string>)
    ensures forall s :: multiset(Kept(songs, key, dismissed))[s]
                        == if SongDismissalKey(key, s.id) in dismissed then 0 else multiset(songs)[s]
  {
    FilterCounts(songs, NotDismissed(key, dismissed));
  }

  /** Dismissing members of a group keeps the order of the rest. */
  lemma KeptAppend(xs: seq<Song>, ys: seq<Song>, key: string, dismissed: set<string>)
    ensures Kept(xs + ys, key, dismissed) == Kept(xs, key, dismissed) + Kept(ys, key, dismissed)
  {
    FilterAppend(xs, ys, NotDismissed(key, dismissed));
  }

  /**
   * One step of `activeSuggestions`' `compactMap`: drop a dismissed group,
   * filter dismissed members, and drop the group if fewer than two remain.
   */
  function Prune(g: ValidSuggestion, dismissed: set<string>): (r: Option<ValidSuggestion>)
    ensures r.Some? <==> GroupDismissalKey(SuggestionKey(g)) !in dismissed
                         && 2 <= |Kept(g.songs, SuggestionKey(g), dismissed)|
    ensures r.Some? ==> r.value.id == g.id && r.value.sharedTitle == g.sharedTitle
                        && r.value.sharedArtist == g.sharedArtist
    ensures r.Some? ==> r.value.songs == Kept(g.songs, SuggestionKey(g), dismissed)
    ensures r.Some? && SortedBy(g.songs, FewerPlays) ==> SortedBy(r.value.songs, FewerPlays)
  {
    var key := SuggestionKey(g);
    if GroupDismissalKey(key) in dismissed then None
    else
      var kept := Kept(g.songs, key, dismissed);
      if |kept| < 2 then None else Some(UpdateSongs(g, kept))
  }

  function PruneWith(dismissed: set<string>): ValidSuggestion -> Option<ValidSuggestion> {
    (g: ValidSuggestion) => Prune(g, dismissed)
  }

  /** The groups that survive pruning, in their stored order. */
  function Survivors(all: seq<ValidSuggestion>, dismissed: set<string>): (r: seq<ValidSuggestion>)
    ensures |r| <= |all|
    ensures forall x :: x in r <==> exists g :: g in all && Prune(g, dismissed) == Some(x)
  {
    FilterMap(all, PruneWith(dismissed))
  }

  /**
   * The surviving groups keep their stored order: a group appended to the
   * list appears at the end of the survivors exactly when it survives pruning.
   */
  lemma SurvivorsAppend(all: seq<ValidSuggestion>, g: ValidSuggestion, dismissed: set<string>)
    ensures Survivors(all + [g], dismissed)
            == Survivors(all, dismissed) + match Prune(g, dismissed) case Some(x) => [x] case None => []
  {
    FilterMapAppend(all, [g], PruneWith(dismissed));
    FilterMapSingle(g, PruneWith(dismissed));
  }

  /** The sort predicate `{ $0.playCountDifference > $1.playCountDifference }`. */
  predicate WiderGap(a: ValidSuggestion, b: ValidSuggestion) {
    PlayCountDifference(a) > PlayCountDifference(b)
  }

  lemma WiderGapIsStrictWeak()
    ensures StrictWeakOrder(WiderGap)
  {
  }

  /**
   * `activeSuggestions`: exactly the groups that survive the dismissal
   * filter, widest play-count gap first.
   */
  function Active(all: seq<ValidSuggestion>, dismissed: set<string>): (r: seq<ValidSuggestion>)
    ensures |r| <= |all|
    ensures forall x :: x in r <==> exists g :: g in all && Prune(g, dismissed) == Some(x)
    ensures forall i, j :: 0 <= i < j < |r| ==> PlayCountDifference(r[i]) >= PlayCountDifference(r[j])
    ensures multiset(r) == multiset(Survivors(all, dismissed))
  {
    var s := Survivors(all, dismissed);
    SortKeepsMembers(s, WiderGap);
    WiderGapIsStrictWeak();
    SortSorted(s, WiderGap);
    Sort(s, WiderGap)
  }

  /** Nothing visible carries a dismissed group key or a dismissed member key. */
  lemma ActiveRespectsDismissals(all: seq<ValidSuggestion>, dismissed: set<string>, x: ValidSuggestion)
    requires x in Active(all, dismissed)
    ensures GroupDismissalKey(SuggestionKey(x)) !in dismissed
    ensures forall s :: s in x.songs ==> SongDismissalKey(SuggestionKey(x), s.id) !in dismissed
    ensures exists g :: g in all && g.id == x.id && SuggestionKey(g) == SuggestionKey(x)
                        && x.songs == Kept(g.songs, SuggestionKey(g), dismissed)
  {
  }

  /** A dismissed group key hides every group filed under it. */
  lemma GroupDismissalHides(all: seq<ValidSuggestion>, dismissed: set<string>, key: string)
    requires GroupDismissalKey(key) in dismissed
    ensures forall x :: x in Active(all, dismissed) ==> SuggestionKey(x) != key
  {
  }

  lemma KeptNone(songs: seq<Song>, key: string)
    ensures Kept(songs, key, {}) == songs
  {
    FilterAll(songs, NotDismissed(key, {}));
  }

  /** With no dismissals every group is visible and whole, and so is the stored list. */
  lemma SurvivorsWithoutDismissals(all: seq<ValidSuggestion>)
    ensures Survivors(all, {}) == all
  {
    forall g | g in all ensures Prune(g, {}) == Some(g) {
      KeptNone(g.songs, SuggestionKey(g));
    }
    FilterMapIdentity(all, PruneWith({}));
  }

  lemma ActiveWithoutDismissals(all: seq<ValidSuggestion>)
    ensures forall x :: x in Active(all, {}) <==> x in all
  {
    SurvivorsWithoutDismissals(all);
  }

  // ------------------------------------------------- dismissing one member

  ghost predicate DistinctIds(s: seq<Song>) {
    forall i, j :: 0 <= i < j < |s| ==> s[i].id != s[j].id
  }

  /** Adding the key of member `k` removes exactly that member from an untouched group. */
  lemma KeptDropsOne(songs: seq<Song>, key: string, dismissed: set<string>, k: nat)
    requires k < |songs| && DistinctIds(songs)
    requires Kept(songs, key, dismissed) == songs
    ensures Kept(songs, key, dismissed + {SongDismissalKey(key, songs[k].id)}) == RemoveAt(songs, k)
  {
    var d := dismissed + {SongDismissalKey(key, songs[k].id)};
    forall i | 0 <= i < |songs| ensures NotDismissed(key, d)(songs[i]) <==> i != k {
      if i != k {
        assert songs[i] in Kept(songs, key, dismissed);
        if i < k {
          SongDismissalKeyInjective(key, songs[i].id, songs[k].id);
        } else {
          SongDismissalKeyInjective(key, songs[k].id, songs[i].id);
        }
      }
    }
    FilterDropsOne(songs, NotDismissed(key, d), k);
  }

  /**
   * A group no key of which is dismissed stays visible after dismissing one
   * of its members exactly when it can dismiss individual songs; it then
   * shows the remaining members in order.
   */
  lemma DismissOneMember(g: ValidSuggestion, dismissed: set<string>, k: nat)
    requires k < |g.songs| && DistinctIds(g.songs)
    requires GroupDismissalKey(SuggestionKey(g)) !in dismissed
    requires Kept(g.songs, SuggestionKey(g), dismissed) == g.songs
    ensures var d := dismissed + {SongDismissalKey(SuggestionKey(g), g.songs[k].id)};
            Prune(g, d).Some? <==> CanDismissIndividualSongs(g)
    ensures var d := dismissed + {SongDismissalKey(SuggestionKey(g), g.songs[k].id)};
            Prune(g, d).Some? ==> Prune(g, d).value.songs == RemoveAt(g.songs, k)
  {
    var key := SuggestionKey(g);
    KeptDropsOne(g.songs, key, dismissed, k);
    SongKeyIsNotGroupKey(key, g.songs[k].id);
  }

  /** Dismissing two members of a three-song group removes it from view. */
  lemma DismissTwoOfThree(g: ValidSuggestion, dismissed: set<string>, k1: nat, k2: nat)
    requires |g.songs| == 3 && k1 < 3 && k2 < 3 && k1 != k2
    ensures Prune(g, dismissed + {SongDismissalKey(SuggestionKey(g), g.songs[k1].id),
                                  SongDismissalKey(SuggestionKey(g), g.songs[k2].id)}).None?
  {
    var key := SuggestionKey(g);
    var d := dismissed + {SongDismissalKey(key, g.songs[k1].id), SongDismissalKey(key, g.songs[k2].id)};
    var keep := NotDismissed(key, d);
    assert !keep(g.songs[k1]) && !keep(g.songs[k2]);
    FilterAtMostOne(g.songs, keep);
  }

  // ----------------------------------------------------- the service state

  /** The value stored under the dismissal key in user defaults. */
  datatype Persisted = Missing | Strings(keys: set<string>) | OtherValue

  /** `loadDismissedKeys`: a stored string array becomes the set, anything else the empty set. */
  function Load(p: Persisted): (r: set<string>)
    ensures p.Strings? ==> r == p.keys
    ensures !p.Strings? ==> r == {}
  {
    match p
    case Strings(ks) => ks
    case _ => {}
  }

  /** `saveDismissedKeys`. */
  function Save(keys: set<string>): (p: Persisted)
    ensures Load(p) == keys
  {
    Strings(keys)
  }

  datatype Service = Service(
    allSuggestions: seq<ValidSuggestion>,
    dismissedKeys: set<string>,
    store: Persisted)

  /** The in-memory set and the persisted record agree. */
  ghost predicate InSync(svc: Service) {
    Load(svc.store) == svc.dismissedKeys
  }

  /** `init()`: no suggestions yet, dismissals read from the store. */
  function Init(store: Persisted): (svc: Service)
    ensures svc.allSuggestions == [] && svc.store == store
    ensures store.Strings? ==> svc.dismissedKeys == store.keys
    ensures !store.Strings? ==> svc.dismissedKeys == {}
    ensures InSync(svc)
  {
    Service([], Load(store), store)
  }

  /** `analyzeSongs(_:)` on the service: replaces the suggestions wholesale. */
  function AnalyzeSongs(svc: Service, songs: seq<Song>, order: seq<string>, ids: seq<Uuid>): (r: Service)
    requires EnumeratesKeys(order, BuildBuckets(songs, SongGroupKey)) && |ids| == |order|
    ensures r.dismissedKeys == svc.dismissedKeys && r.store == svc.store
    ensures forall i :: 0 <= i < |r.allSuggestions| ==> IsGroupOf(r.allSuggestions[i], songs)
    ensures forall k :: IsGroupKey(songs, k) <==>
              exists i :: 0 <= i < |r.allSuggestions| && SuggestionKey(r.allSuggestions[i]) == k
    ensures DistinctKeys(r.allSuggestions)
    ensures InSync(svc) ==> InSync(r)
  {
    AnalyzeOneGroupPerBucket(songs, order, ids);
    svc.(allSuggestions := Analyze(songs, order, ids))
  }

  /** `activeSuggestions` on the service. */
  function ActiveSuggestions(svc: Service): (r: seq<ValidSuggestion>)
    ensures forall x :: x in r <==>
              exists g :: g in svc.allSuggestions && Prune(g, svc.dismissedKeys) == Some(x)
    ensures forall i, j :: 0 <= i < j < |r| ==> PlayCountDifference(r[i]) >= PlayCountDifference(r[j])
    ensures multiset(r) == multiset(Survivors(svc.allSuggestions, svc.dismissedKeys))
  {
    Active(svc.allSuggestions, svc.dismissedKeys)
  }

  /** `dismissSong(title:artist:songId:)`: adds one member key and persists the set. */
  function DismissSong(svc: Service, title: string, artist: string, songId: UInt64): (r: Service)
    ensures r.dismissedKeys == svc.dismissedKeys + {SongDismissalKey(GroupKey(title, artist), songId)}
    ensures r.store == Strings(r.dismissedKeys)
    ensures r.allSuggestions == svc.allSuggestions
    ensures InSync(r)
  {
    var keys := svc.dismissedKeys + {SongDismissalKey(GroupKey(title, artist), songId)};
    svc.(dismissedKeys := keys, store := Save(keys))
  }

  /** `dismissEntireGroup(title:artist:)`: adds the group key and persists the set. */
  function DismissEntireGroup(svc: Service, title: string, artist: string): (r: Service)
    ensures r.dismissedKeys == svc.dismissedKeys + {GroupDismissalKey(GroupKey(title, artist))}
    ensures r.store == Strings(r.dismissedKeys)
    ensures r.allSuggestions == svc.allSuggestions
    ensures InSync(r)
  {
    var keys := svc.dismissedKeys + {GroupDismissalKey(GroupKey(title, artist))};
    svc.(dismissedKeys := keys, store := Save(keys))
  }

  /** `resetDismissals()`: empties the set and removes the stored record. */
  function ResetDismissals(svc: Service): (r: Service)
    ensures r.dismissedKeys == {} && r.store == Missing
    ensures r.allSuggestions == svc.allSuggestions
    ensures InSync(r)
  {
    svc.(dismissedKeys := {}, store := Missing)
  }

  lemma DismissIdempotent(svc: Service, title: string, artist: string, songId: UInt64)
    ensures DismissSong(DismissSong(svc, title, artist, songId), title, artist, songId)
            == DismissSong(svc, title, artist, songId)
    ensures DismissEntireGroup(DismissEntireGroup(svc, title, artist), title, artist)
            == DismissEntireGroup(svc, title, artist)
  {
  }

  /** After a reset every analyzed group is visible again with all its songs. */
  lemma ResetRestoresAll(svc: Service)
    ensures forall x :: x in ActiveSuggestions(ResetDismissals(svc)) <==> x in svc.allSuggestions
    ensures |ActiveSuggestions(ResetDismissals(svc))| == |svc.allSuggestions|
    ensures multiset(ActiveSuggestions(ResetDismissals(svc))) == multiset(svc.allSuggestions)
  {
    SurvivorsWithoutDismissals(svc.allSuggestions);
    ActiveWithoutDismissals(svc.allSuggestions);
  }

  /**
   * Dismissing by any spelling that normalizes to a group's key hides that
   * group, whatever else was dismissed.
   */
  lemma DismissEntireGroupHides(svc: Service, title: string, artist: string, g: ValidSuggestion)
    requires GroupKey(title, artist) == SuggestionKey(g)
    ensures forall x :: x in ActiveSuggestions(DismissEntireGroup(svc, title, artist)) ==>
              SuggestionKey(x) != SuggestionKey(g)
  {
  }

  /** Padding on either side of a title does not split a group. */
  lemma PaddedTitlesShareKey()
    ensures GroupKey("Hello ", "Adele") == GroupKey(" Hello", "Adele")
  {
    assert Normalize("Hello ") == Normalize(" Hello") by {
      assert "" + "Hello" + " " == "Hello ";
      assert " " + "Hello" + "" == " Hello";
      NormalizeIgnoresCaseAndPadding("", "Hello", "Hello", " ");
      NormalizeIgnoresCaseAndPadding(" ", "Hello", "Hello", "");
    }
  }

  /**
   * The key does not keep title and artist apart: a dash may sit in either,
   * so "a-b" by "c" and "a" by "b-c" share one bucket.
   */
  lemma DashesCanMergeKeys()
    ensures GroupKey("a-b", "c") == GroupKey("a", "b-c")
  {
    assert "a-b" + "-" + "c" == "a" + "-" + "b-c";
    PlainIsNormal("a-b");
    PlainIsNormal("c");
    PlainIsNormal("a");
    PlainIsNormal("b-c");
  }

  /** A member key of one group can spell another group's key. */
  lemma SongKeyCanSpellGroupKey()
    ensures SongDismissalKey(GroupKey("a", "b"), 1) == GroupKey("a", "b-1")
  {
    assert NatToString(1) == "1";
    assert "a-b" + "-" + "1" == "a" + "-" + "b-1";
    PlainIsNormal("a");
    PlainIsNormal("b");
    PlainIsNormal("b-1");
  }

  /** Letter case in title or artist does not split a group. */
  lemma CasedNamesShareKey()
    ensures GroupKey("Hello", "Adele") == GroupKey("hello", "ADELE")
  {
    assert Lower("hello") == Lower("Hello");
    assert Lower("ADELE") == Lower("Adele");
    NormalizeIgnoresCaseAndPadding("", "hello", "Hello", "");
    NormalizeIgnoresCaseAndPadding("", "ADELE", "Adele", "");
    assert "" + "hello" + "" == "hello";
    assert "" + "ADELE" + "" == "ADELE";
  }
}
