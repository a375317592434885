/** The list logic of the playback view models: finding the current song
    (`List.indexOf`), the wrap-around index arithmetic of skipNext/skipPrevious in both
    revisions, the dedup merge of network and local songs (`distinctBy { title to artist }`)
    and the "add a song id to a playlist unless present" rule. */
module SongLists {
  import opened Base
  import opened Models
  import opened Arithmetic

  predicate NoDuplicates<T(==)>(s: seq<T>)
  {
    forall i, j :: 0 <= i < j < |s| ==> s[i] != s[j]
  }

  /** a is s with some elements left out, order kept. */
  predicate IsSubsequence<T(==)>(a: seq<T>, b: seq<T>)
    decreases |b|
  {
    a == [] || (b != [] && ((a[0] == b[0] && IsSubsequence(a[1..], b[1..])) || IsSubsequence(a, b[1..])))
  }

  /** List.indexOf: the first position of x, or -1 when x is null or absent. */
  function IndexOf<T(==)>(s: seq<T>, x: Option<T>): (i: int)
    ensures -1 <= i < |s|
    ensures i == -1 <==> (x.None? || x.value !in s)
    ensures 0 <= i ==> x == Some(s[i]) && forall j :: 0 <= j < i ==> s[j] != s[i]
    decreases |s|
  {
    if x.None? || s == [] then -1
    else if s[0] == x.value then 0
    else
      var k := IndexOf(s[1..], x);
      if k == -1 then -1 else k + 1
  }

  /** In a list without repeated entries a song is found where it is. */
  lemma IndexOfDistinct<T>(s: seq<T>, i: int)
    requires NoDuplicates(s) && 0 <= i < |s|
    ensures IndexOf(s, Some(s[i])) == i
  {
  }

  // ---------------------------------------------------------------------------
  // Wrap-around (ui/viewmodel/PlayerViewModel.kt)

  /** skipNext: a current song that is not found (-1) selects the first song; otherwise
      the following one, wrapping from the last to the first. */
  function NextIndex(n: nat, i: int): (k: nat)
    requires 0 < n && -1 <= i < n
    ensures k < n
    ensures i == -1 ==> k == 0
    ensures 0 <= i ==> k == (i + 1) % n
  {
    if i == -1 then 0 else if i >= n - 1 then 0 else i + 1
  }

  /** skipPrevious: a current song that is not found selects the first song; otherwise the
      preceding one, wrapping from the first to the last. */
  function PrevIndex(n: nat, i: int): (k: nat)
    requires 0 < n && -1 <= i < n
    ensures k < n
    ensures i == -1 ==> k == 0
    ensures 0 <= i ==> k == (i - 1 + n) % n
  {
    if i == -1 then 0 else if i <= 0 then n - 1 else i - 1
  }

  /** The song skipNext plays, or None when the list is empty (then it does nothing). */
  function NextSong(list: seq<Song>, current: Option<Song>): (r: Option<Song>)
    ensures r.None? <==> list == []
    ensures r.Some? ==> r.value in list
    ensures list != [] && (current.None? || current.value !in list) ==> r == Some(list[0])
  {
    if list == [] then None else Some(list[NextIndex(|list|, IndexOf(list, current))])
  }

  /** The song skipPrevious plays, or None when the list is empty. */
  function PrevSong(list: seq<Song>, current: Option<Song>): (r: Option<Song>)
    ensures r.None? <==> list == []
    ensures r.Some? ==> r.value in list
    ensures list != [] && (current.None? || current.value !in list) ==> r == Some(list[0])
  {
    if list == [] then None else Some(list[PrevIndex(|list|, IndexOf(list, current))])
  }

  /** The song after k skipNext calls. */
  function NextSongTimes(list: seq<Song>, current: Option<Song>, k: nat): Option<Song>
    decreases k
  {
    if k == 0 then current else NextSong(list, NextSongTimes(list, current, k - 1))
  }

  /** The index after k skipNext calls from index i. */
  function NextIndexTimes(n: nat, i: nat, k: nat): (j: nat)
    requires i < n
    ensures j < n
    decreases k
  {
    if k == 0 then i else NextIndex(n, NextIndexTimes(n, i, k - 1))
  }

  /** k skips from index i land on index (i + k) mod n. */
  lemma {:induction false} NextIndexTimesWraps(n: nat, i: nat, k: nat)
    requires i < n
    ensures NextIndexTimes(n, i, k) == (i + k) % n
    decreases k
  {
    if k == 0 {
      DivUnique(i, n, 0, i);
    } else {
      NextIndexTimesWraps(n, i, k - 1);
      ModSucc(i + k - 1, n);
    }
  }

  /** In a list without repeated entries, k skips from the song at index i play the song at
      the k-th following index. */
  lemma {:induction false} NextSongTimesFollowsIndex(list: seq<Song>, i: nat, k: nat)
    requires NoDuplicates(list) && i < |list|
    ensures NextSongTimes(list, Some(list[i]), k) == Some(list[NextIndexTimes(|list|, i, k)])
    decreases k
  {
    if k > 0 {
      NextSongTimesFollowsIndex(list, i, k - 1);
      IndexOfDistinct(list, NextIndexTimes(|list|, i, k - 1));
    }
  }

  /** From the song at index i, k skips land on the song at index (i + k) mod n. */
  lemma NextSongTimesWraps(list: seq<Song>, i: nat, k: nat)
    requires NoDuplicates(list) && i < |list|
    ensures NextSongTimes(list, Some(list[i]), k) == Some(list[(i + k) % |list|])
  {
    NextSongTimesFollowsIndex(list, i, k);
    NextIndexTimesWraps(|list|, i, k);
  }

  /** Calling skipNext once per song in the list comes back to the song it started from. */
  lemma FullCycleReturns(list: seq<Song>, i: nat)
    requires NoDuplicates(list) && i < |list|
    ensures NextSongTimes(list, Some(list[i]), |list|) == Some(list[i])
  {
    var n := |list|;
    DivUnique(i + n, n, 1, i);
    var j := (i + n) % n;
    assert j == i;
    NextSongTimesWraps(list, i, n);
  }

  /** skipPrevious and skipNext undo each other, in either order. */
  lemma PrevNextInverse(list: seq<Song>, i: nat)
    requires NoDuplicates(list) && i < |list|
    ensures NextSong(list, PrevSong(list, Some(list[i]))) == Some(list[i])
    ensures PrevSong(list, NextSong(list, Some(list[i]))) == Some(list[i])
  {
    var n := |list|;
    IndexOfDistinct(list, i);
    var p := if i == 0 then n - 1 else i - 1;
    var q := if i == n - 1 then 0 else i + 1;
    IndexOfDistinct(list, p);
    IndexOfDistinct(list, q);
  }

  // ---------------------------------------------------------------------------
  // Wrap-around of the older revision (ui/player/PlayerViewModel.kt)

  /** The older skipNext: the last index goes to 0, anything else (-1 included) goes up by one. */
  function LegacyNextIndex(n: nat, i: int): (k: int)
    requires 0 < n && -1 <= i < n
    ensures 0 <= k < n
    ensures k == NextIndex(n, i)
  {
    if i == n - 1 then 0 else i + 1
  }

  /** The older skipPrevious: 0 goes to the last index, anything else down by one. */
  function LegacyPrevIndex(n: nat, i: int): (k: int)
    requires 0 < n && -1 <= i < n
    ensures 0 <= i ==> k == PrevIndex(n, i)
    ensures i == -1 ==> k == -2
  {
    if i == 0 then n - 1 else i - 1
  }

  /** The older skipPrevious indexes the list out of range whenever the current song is
      not in it (an IndexOutOfBoundsException in Kotlin). */
  lemma LegacyPrevIndexOutOfRange(list: seq<Song>, current: Option<Song>)
    requires list != [] && (current.None? || current.value !in list)
    ensures !(0 <= LegacyPrevIndex(|list|, IndexOf(list, current)) < |list|)
  {
  }

  // ---------------------------------------------------------------------------
  // Merging the network and local lists

  function KeysOf(s: seq<Song>): set<(string, string)>
  {
    set x | x in s :: TitleArtist(x)
  }

  predicate KeysDistinct(s: seq<Song>)
  {
    forall i, j :: 0 <= i < j < |s| ==> TitleArtist(s[i]) != TitleArtist(s[j])
  }

  /** s[j] is the first song of s with its (title, artist). */
  predicate IsFirstOfKey(s: seq<Song>, j: int)
    requires 0 <= j < |s|
  {
    forall i :: 0 <= i < j ==> TitleArtist(s[i]) != TitleArtist(s[j])
  }

  /** distinctBy { title to artist }, with the keys in `seen` already taken. */
  function KeepFirst(s: seq<Song>, seen: set<(string, string)>): (r: seq<Song>)
    decreases |s|
  {
    if s == [] then []
    else if TitleArtist(s[0]) in seen then KeepFirst(s[1..], seen)
    else [s[0]] + KeepFirst(s[1..], seen + {TitleArtist(s[0])})
  }

  /** What distinctBy keeps: songs of s, in their order, whose keys are new and pairwise
      different, the first song of every new key among them, and nothing else, in the
      order of s. */
  lemma KeepFirstSpec(s: seq<Song>, seen: set<(string, string)>)
    ensures var r := KeepFirst(s, seen);
      && (forall x :: x in r ==> x in s && TitleArtist(x) !in seen)
      && KeysDistinct(r)
      && IsSubsequence(r, s)
      && (forall j :: 0 <= j < |s| && TitleArtist(s[j]) !in seen && IsFirstOfKey(s, j) ==> s[j] in r)
      && r == Firsts(s, seen)
  {
    KeepFirstKeeps(s, seen);
    KeepFirstIsFirsts(s, seen);
  }

  lemma {:induction false} KeepFirstKeeps(s: seq<Song>, seen: set<(string, string)>)
    ensures var r := KeepFirst(s, seen);
      && (forall x :: x in r ==> x in s && TitleArtist(x) !in seen)
      && KeysDistinct(r)
      && IsSubsequence(r, s)
      && (forall j :: 0 <= j < |s| && TitleArtist(s[j]) !in seen && IsFirstOfKey(s, j) ==> s[j] in r)
    decreases |s|
  {
    if s != [] {
      var k0 := TitleArtist(s[0]);
      assert forall j :: 1 <= j < |s| && IsFirstOfKey(s, j) ==>
        IsFirstOfKey(s[1..], j - 1) && TitleArtist(s[j]) != k0 && s[1..][j - 1] == s[j];
      if k0 in seen {
        KeepFirstKeeps(s[1..], seen);
      } else {
        KeepFirstKeeps(s[1..], seen + {k0});
        var rest := KeepFirst(s[1..], seen + {k0});
        var r := [s[0]] + rest;
        assert r[0] == s[0] && r[1..] == rest;
      }
    }
  }

  /** The songs of s from position j on that distinctBy keeps, chosen by position: those
      whose (title, artist) is not in `seen` and occurs at no earlier position of s. */
  function FirstsFrom(s: seq<Song>, seen: set<(string, string)>, j: nat): seq<Song>
    requires j <= |s|
    decreases |s| - j
  {
    if j == |s| then []
    else (if TitleArtist(s[j]) !in seen && IsFirstOfKey(s, j) then [s[j]] else []) + FirstsFrom(s, seen, j + 1)
  }

  /** The first song of every new (title, artist), in the order of s. */
  function Firsts(s: seq<Song>, seen: set<(string, string)>): seq<Song>
  {
    FirstsFrom(s, seen, 0)
  }

  lemma {:induction false} KeysOfSnoc(a: seq<Song>, x: Song)
    ensures KeysOf(a + [x]) == KeysOf(a) + {TitleArtist(x)}
  {
    assert forall y :: y in a + [x] <==> y in a || y == x;
  }

  /** A key occurs before position j exactly when s[j] is not the first of its key. */
  lemma KeyBefore(s: seq<Song>, j: nat)
    requires j < |s|
    ensures TitleArtist(s[j]) in KeysOf(s[..j]) <==> !IsFirstOfKey(s, j)
  {
    var k := TitleArtist(s[j]);
    if k in KeysOf(s[..j]) {
      var y :| y in s[..j] && TitleArtist(y) == k;
      var i :| 0 <= i < j && s[..j][i] == y;
      assert s[i] == y;
    }
    if !IsFirstOfKey(s, j) {
      var i :| 0 <= i < j && TitleArtist(s[i]) == k;
      assert s[..j][i] == s[i];
    }
  }

  /** Deduplicating the rest of s against `seen` and the keys already passed keeps exactly
      the positional firsts. */
  lemma {:induction false} KeepFirstIsFirstsFrom(s: seq<Song>, seen: set<(string, string)>, j: nat)
    requires j <= |s|
    ensures KeepFirst(s[j..], seen + KeysOf(s[..j])) == FirstsFrom(s, seen, j)
    decreases |s| - j
  {
    if j == |s| {
      assert s[j..] == [];
    } else {
      var x := s[j];
      var k := TitleArtist(x);
      var known := seen + KeysOf(s[..j]);
      assert s[j..][0] == x && s[j..][1..] == s[j + 1..];
      assert s[..j + 1] == s[..j] + [x];
      KeysOfSnoc(s[..j], x);
      KeyBefore(s, j);
      KeepFirstIsFirstsFrom(s, seen, j + 1);
      if k in known {
        assert known == seen + KeysOf(s[..j + 1]);
      } else {
        assert known + {k} == seen + KeysOf(s[..j + 1]);
      }
    }
  }

  lemma KeepFirstIsFirsts(s: seq<Song>, seen: set<(string, string)>)
    ensures KeepFirst(s, seen) == Firsts(s, seen)
  {
    KeepFirstIsFirstsFrom(s, seen, 0);
    assert s[0..] == s && s[..0] == [];
    assert seen + KeysOf([]) == seen;
  }

  /** The song list loadAllSongs shows after a successful network fetch: network songs
      first, then local ones, keeping the first song of each (title, artist). No two
      entries share a title and artist, so no two entries are equal. */
  function MergeSongs(network: seq<Song>, local: seq<Song>): (r: seq<Song>)
    ensures KeysDistinct(r) && NoDuplicates(r)
    ensures IsSubsequence(r, network + local)
    ensures forall x :: x in r ==> x in network + local
    ensures forall j :: 0 <= j < |network + local| && IsFirstOfKey(network + local, j) ==> (network + local)[j] in r
    ensures r == Firsts(network + local, {})
  {
    KeepFirstSpec(network + local, {});
    KeepFirst(network + local, {})
  }

  lemma {:induction false} KeysOfCons(x: Song, s: seq<Song>)
    ensures KeysOf([x] + s) == {TitleArtist(x)} + KeysOf(s)
  {
    assert forall y :: y in [x] + s <==> y == x || y in s;
  }

  /** Deduplicating a concatenation deduplicates the second part against the keys of the first. */
  lemma {:induction false} KeepFirstAppend(a: seq<Song>, b: seq<Song>, seen: set<(string, string)>)
    requires KeysDistinct(a) && KeysOf(a) !! seen
    ensures KeepFirst(a + b, seen) == a + KeepFirst(b, seen + KeysOf(a))
    decreases |a|
  {
    if a == [] {
      assert a + b == b;
      assert KeysOf(a) == {};
      assert seen + KeysOf(a) == seen;
    } else {
      var k0 := TitleArtist(a[0]);
      ConsParts(a);
      assert k0 !in seen;
      var ab := a + b;
      assert ab[0] == a[0] && ab[1..] == a[1..] + b;
      assert KeepFirst(ab, seen) == [a[0]] + KeepFirst(a[1..] + b, seen + {k0});
      KeepFirstAppend(a[1..], b, seen + {k0});
      assert seen + {k0} + KeysOf(a[1..]) == seen + KeysOf(a);
      assert [a[0]] + a[1..] == a;
    }
  }

  /** The facts about a list's head and tail that KeepFirstAppend needs. */
  lemma ConsParts(a: seq<Song>)
    requires a != [] && KeysDistinct(a)
    ensures KeysDistinct(a[1..])
    ensures TitleArtist(a[0]) !in KeysOf(a[1..])
    ensures KeysOf(a) == {TitleArtist(a[0])} + KeysOf(a[1..])
  {
    KeysOfCons(a[0], a[1..]);
    assert [a[0]] + a[1..] == a;
  }

  /** When the network list has no repeated (title, artist), the merged list is the whole
      network list followed by the local songs whose title and artist are new. */
  lemma MergeKeepsNetworkFirst(network: seq<Song>, local: seq<Song>)
    requires KeysDistinct(network)
    ensures MergeSongs(network, local) == network + KeepFirst(local, KeysOf(network))
  {
    KeepFirstAppend(network, local, {});
    assert {} + KeysOf(network) == KeysOf(network);
  }

  // ---------------------------------------------------------------------------
  // Adding a song to a playlist

  /** The playlist addSongToPlaylist sends to the server, or the error it reports when the
      id is already there. */
  function AddSongId(p: Playlist, id: int): (r: Result<Playlist>)
    ensures r.Failure? <==> id in p.songIds
    ensures r.Failure? ==> r.message == "La canción ya está en esta playlist."
    ensures r.Ok? ==>
      && r.value.id == p.id && r.value.name == p.name
      && |r.value.songIds| == |p.songIds| + 1
      && r.value.songIds[..|p.songIds|] == p.songIds
      && r.value.songIds[|p.songIds|] == id
    ensures r.Ok? && NoDuplicates(p.songIds) ==> NoDuplicates(r.value.songIds)
  {
    if id in p.songIds then Failure("La canción ya está en esta playlist.")
    else Ok(p.(songIds := p.songIds + [id]))
  }
}
