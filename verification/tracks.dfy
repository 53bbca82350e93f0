/**
 * The ambient track catalogue, derived once at startup from the bundled `.mp3`
 * modules: every module path becomes a track named after its file (last `/`
 * segment, a trailing `.mp3` in any letter case removed), and the list is sorted
 * by name. The default ambient selection is the first name, or "" when there are
 * no tracks.
 */
module TrackCatalogue {
  import opened Wrappers

  datatype Track = Track(name: string, url: string)

  /** `path.split("/").pop()`: the text after the last '/' (the whole path if none). */
  function LastSegment(path: string): string
  {
    if path == [] then []
    else if path[|path| - 1] == '/' then []
    else LastSegment(path[..|path| - 1]) + [path[|path| - 1]]
  }

  /**
   * The last segment is a suffix of the path holding no '/', and it is the whole
   * path or follows a '/'.
   */
  lemma {:induction false} LastSegmentShape(path: string)
    ensures var seg := LastSegment(path);
      |seg| <= |path| && seg == path[|path| - |seg|..] &&
      (forall i :: 0 <= i < |seg| ==> seg[i] != '/') &&
      (|seg| < |path| ==> path[|path| - |seg| - 1] == '/')
    decreases |path|
  {
    if path != [] && path[|path| - 1] != '/' {
      var init := path[..|path| - 1];
      LastSegmentShape(init);
      var seg := LastSegment(init);
      assert path[|path| - |seg| - 1..] == init[|init| - |seg|..] + [path[|path| - 1]];
    }
  }

  /** Case-insensitive match of a letter against its lower-case form. */
  predicate SameLetter(c: char, lower: char)
  {
    c == lower || ('a' <= lower <= 'z' && c as int == lower as int - 32)
  }

  /** `/\.mp3$/i` at the end of `s`. */
  predicate EndsWithMp3(s: string)
  {
    |s| >= 4 &&
    s[|s| - 4] == '.' && SameLetter(s[|s| - 3], 'm') && SameLetter(s[|s| - 2], 'p') && s[|s| - 1] == '3'
  }

  /** `.replace(/\.mp3$/i, "")`: removes one trailing `.mp3`, any letter case. */
  function StripMp3(s: string): string
  {
    if EndsWithMp3(s) then s[..|s| - 4] else s
  }

  /** The display name of one module path. */
  function NameOf(path: string): string
  {
    StripMp3(LastSegment(path))
  }

  /**
   * For a file `base + ext` in directory `dir`, with `ext` any spelling of `.mp3`,
   * the name is exactly `base`: the directory and the extension are both gone.
   */
  lemma {:induction false} NameOfFile(dir: string, base: string, ext: string)
    requires forall i :: 0 <= i < |base| ==> base[i] != '/'
    requires |ext| == 4 && EndsWithMp3(ext)
    ensures NameOf(dir + "/" + base + ext) == base
  {
    var file := base + ext;
    assert dir + "/" + base + ext == dir + "/" + file;
    SuffixSegment(dir, file);
    assert file[|file| - 4..] == ext;
    assert EndsWithMp3(file);
    assert file[..|file| - 4] == base;
  }

  /** The last segment of `dir + "/" + file` is `file` when `file` holds no '/'. */
  lemma {:induction false} SuffixSegment(dir: string, file: string)
    requires forall i :: 0 <= i < |file| ==> file[i] != '/'
    ensures LastSegment(dir + "/" + file) == file
    decreases |file|
  {
    var path := dir + "/" + file;
    if file == [] {
      assert path[|path| - 1] == '/';
    } else {
      var init := file[..|file| - 1];
      assert path[..|path| - 1] == dir + "/" + init;
      SuffixSegment(dir, init);
      assert init + [file[|file| - 1]] == file;
    }
  }

  /** The unsorted catalogue: one track per `(path, url)` entry, in entry order. */
  function Derive(entries: seq<(string, string)>): seq<Track>
  {
    if entries == [] then [] else [Track(NameOf(entries[0].0), entries[0].1)] + Derive(entries[1..])
  }

  /** Track `i` of the unsorted catalogue is named after module path `i` and plays its url. */
  lemma {:induction false} DeriveEach(entries: seq<(string, string)>)
    ensures |Derive(entries)| == |entries|
    ensures forall i :: 0 <= i < |entries| ==> Derive(entries)[i] == Track(NameOf(entries[i].0), entries[i].1)
    decreases |entries|
  {
    if entries != [] {
      DeriveEach(entries[1..]);
      forall i | 1 <= i < |entries|
        ensures Derive(entries)[i] == Track(NameOf(entries[i].0), entries[i].1)
      {
        assert entries[1..][i - 1] == entries[i];
      }
    }
  }

  /**
   * The name ordering `localeCompare` provides, taken as a parameter: any total
   * preorder on names (locale rules are outside the model).
   */
  ghost predicate TotalPreorder(leq: (string, string) -> bool)
  {
    Total(leq) && Transitive(leq)
  }

  ghost predicate Total(leq: (string, string) -> bool)
  {
    forall a, b :: leq(a, b) || leq(b, a)
  }

  ghost predicate Transitive(leq: (string, string) -> bool)
  {
    forall a, b, c :: leq(a, b) && leq(b, c) ==> leq(a, c)
  }

  ghost predicate SortedByName(ts: seq<Track>, leq: (string, string) -> bool)
  {
    forall i, j :: 0 <= i < j < |ts| ==> leq(ts[i].name, ts[j].name)
  }

  /**
   * Inserts `t` before the first name it does not follow. For any ordering the
   * result is a permutation of `ts` plus `t`; see `InsertSorted` for order.
   */
  function Insert(t: Track, ts: seq<Track>, leq: (string, string) -> bool): (r: seq<Track>)
    ensures multiset(r) == multiset(ts) + multiset{t}
  {
    if ts == [] then [t]
    else if leq(t.name, ts[0].name) then [t] + ts
    else
      assert ts == [ts[0]] + ts[1..];
      [ts[0]] + Insert(t, ts[1..], leq)
  }

  /** Inserting into a name-sorted list, under a total preorder, keeps it sorted. */
  lemma {:induction false} InsertSorted(t: Track, ts: seq<Track>, leq: (string, string) -> bool)
    requires TotalPreorder(leq) && SortedByName(ts, leq)
    ensures SortedByName(Insert(t, ts, leq), leq)
    decreases |ts|
  {
    if ts == [] {
    } else if leq(t.name, ts[0].name) {
      InsertFront(t, ts, leq);
    } else {
      assert SortedByName(ts[1..], leq) by {
        forall i, j | 0 <= i < j < |ts[1..]|
          ensures leq(ts[1..][i].name, ts[1..][j].name)
        {
          assert ts[1..][i] == ts[i + 1] && ts[1..][j] == ts[j + 1];
        }
      }
      InsertSorted(t, ts[1..], leq);
      InsertBehind(t, ts, Insert(t, ts[1..], leq), leq);
    }
  }

  /** A name at most the head of a sorted list may go in front of it. */
  lemma InsertFront(t: Track, ts: seq<Track>, leq: (string, string) -> bool)
    requires Transitive(leq) && SortedByName(ts, leq)
    requires |ts| > 0 && leq(t.name, ts[0].name)
    ensures SortedByName([t] + ts, leq)
  {
    var r := [t] + ts;
    forall i, j | 0 <= i < j < |r|
      ensures leq(r[i].name, r[j].name)
    {
      if i == 0 && j > 1 {
        assert leq(ts[0].name, ts[j - 1].name);
      }
    }
  }

  /**
   * A head that `t` does not precede stays in front of the sorted insertion of
   * `t` into the tail.
   */
  lemma InsertBehind(t: Track, ts: seq<Track>, rest: seq<Track>, leq: (string, string) -> bool)
    requires Total(leq) && SortedByName(ts, leq)
    requires |ts| > 0 && !leq(t.name, ts[0].name)
    requires SortedByName(rest, leq) && multiset(rest) == multiset(ts[1..]) + multiset{t}
    ensures SortedByName([ts[0]] + rest, leq)
  {
    assert leq(ts[0].name, t.name);
    forall k | 0 <= k < |rest|
      ensures leq(ts[0].name, rest[k].name)
    {
      assert rest[k] in multiset(rest);
      if rest[k] != t {
        assert rest[k] in multiset(ts[1..]);
        var j :| 0 <= j < |ts[1..]| && ts[1..][j] == rest[k];
        assert ts[j + 1] == rest[k];
      }
    }
    var r := [ts[0]] + rest;
    forall i, j | 0 <= i < j < |r|
      ensures leq(r[i].name, r[j].name)
    {
      if i > 0 {
        assert r[i] == rest[i - 1] && r[j] == rest[j - 1];
      } else {
        assert r[j] == rest[j - 1];
      }
    }
  }

  /** The `.sort` step: an insertion sort by name, a permutation of its input. */
  function SortByName(ts: seq<Track>, leq: (string, string) -> bool): (r: seq<Track>)
    ensures multiset(r) == multiset(ts)
    ensures |r| == |ts|
  {
    if ts == [] then []
    else
      assert ts == [ts[0]] + ts[1..];
      var r := Insert(ts[0], SortByName(ts[1..], leq), leq);
      assert |r| == |multiset(r)|;
      r
  }

  /** Under a total preorder the sort's result is sorted by name. */
  lemma {:induction false} SortSorted(ts: seq<Track>, leq: (string, string) -> bool)
    requires TotalPreorder(leq)
    ensures SortedByName(SortByName(ts, leq), leq)
    decreases |ts|
  {
    if ts != [] {
      SortSorted(ts[1..], leq);
      InsertSorted(ts[0], SortByName(ts[1..], leq), leq);
    }
  }

  /**
   * `ambientTracks`: the derived tracks sorted by name, one per module path and a
   * permutation of the derived list.
   */
  function Catalogue(entries: seq<(string, string)>, leq: (string, string) -> bool): (ts: seq<Track>)
    ensures |ts| == |entries|
    ensures multiset(ts) == multiset(Derive(entries))
  {
    DeriveEach(entries);
    SortByName(Derive(entries), leq)
  }

  /** Under a total preorder (what `localeCompare` provides) the catalogue is sorted by name. */
  lemma CatalogueSorted(entries: seq<(string, string)>, leq: (string, string) -> bool)
    requires TotalPreorder(leq)
    ensures SortedByName(Catalogue(entries, leq), leq)
  {
    SortSorted(Derive(entries), leq);
  }

  /** Every catalogue entry comes from a module path, and every module path has an entry. */
  lemma CatalogueEntries(entries: seq<(string, string)>, leq: (string, string) -> bool)
    ensures forall t :: t in Catalogue(entries, leq) <==>
      exists i :: 0 <= i < |entries| && t == Track(NameOf(entries[i].0), entries[i].1)
  {
    SameMembers(Catalogue(entries, leq), Derive(entries));
    DeriveMembers(entries);
  }

  /** The unsorted catalogue holds exactly one track per entry. */
  lemma DeriveMembers(entries: seq<(string, string)>)
    ensures forall t :: t in Derive(entries) <==>
      exists i :: 0 <= i < |entries| && t == Track(NameOf(entries[i].0), entries[i].1)
  {
    var derived := Derive(entries);
    DeriveEach(entries);
    forall t
      ensures t in derived <==> exists i :: 0 <= i < |entries| && t == Track(NameOf(entries[i].0), entries[i].1)
    {
      if t in derived {
        var i :| 0 <= i < |derived| && derived[i] == t;
        assert derived[i] == Track(NameOf(entries[i].0), entries[i].1);
      }
      if exists i :: 0 <= i < |entries| && t == Track(NameOf(entries[i].0), entries[i].1) {
        var i :| 0 <= i < |entries| && t == Track(NameOf(entries[i].0), entries[i].1);
        assert derived[i] == t;
      }
    }
  }

  /** Two lists that are permutations of each other hold the same tracks. */
  lemma SameMembers(a: seq<Track>, b: seq<Track>)
    requires multiset(a) == multiset(b)
    ensures forall t :: t in a <==> t in b
  {
    forall t
      ensures t in a <==> t in b
    {
      assert t in a <==> t in multiset(a);
      assert t in b <==> t in multiset(b);
    }
  }

  /** Position of the first track named `name`, or `|ts|` when there is none. */
  function FirstIndexOf(ts: seq<Track>, name: string): (i: nat)
    ensures i <= |ts|
    ensures forall j :: 0 <= j < i ==> ts[j].name != name
    ensures i < |ts| ==> ts[i].name == name
  {
    if ts == [] then 0
    else if ts[0].name == name then 0
    else 1 + FirstIndexOf(ts[1..], name)
  }

  /** `ambientTracks.find(track => track.name === name)`: the first track with that name. */
  function FindTrack(ts: seq<Track>, name: string): (r: Option<Track>)
    ensures r.Some? <==> exists i :: 0 <= i < |ts| && ts[i].name == name
    ensures r.Some? ==> r.value.name == name && r.value in ts
    ensures r.Some? ==> r.value == ts[FirstIndexOf(ts, name)]
  {
    var i := FirstIndexOf(ts, name);
    if i < |ts| then Some(ts[i]) else None
  }

  /** `ambientTracks[0]?.name ?? ""`: the initial ambient selection. */
  function InitialAmbientType(ts: seq<Track>): string
  {
    if |ts| == 0 then "" else ts[0].name
  }

  /**
   * The initial selection is "" for an empty catalogue; otherwise it is the least
   * name of the sorted catalogue and it always resolves to a track.
   */
  lemma InitialSelection(entries: seq<(string, string)>, leq: (string, string) -> bool)
    requires TotalPreorder(leq)
    ensures var ts := Catalogue(entries, leq);
      (|entries| == 0 ==> InitialAmbientType(ts) == "") &&
      (|entries| > 0 ==>
        FindTrack(ts, InitialAmbientType(ts)).Some? &&
        (forall t :: t in ts ==> leq(InitialAmbientType(ts), t.name)))
  {
    var ts := Catalogue(entries, leq);
    if |entries| > 0 {
      CatalogueSorted(entries, leq);
      var least := ts[0].name;
      // Totality applied to `least` and itself makes the order reflexive there.
      assert leq(least, least);
      HeadIsLeast(ts, leq);
      assert InitialAmbientType(ts) == least;
      assert FindTrack(ts, least).Some? by {
        assert 0 < |ts| && ts[0].name == least;
      }
    }
  }

  /** In a name-sorted list the first name is at most every name in the list. */
  lemma HeadIsLeast(ts: seq<Track>, leq: (string, string) -> bool)
    requires |ts| > 0 && SortedByName(ts, leq) && leq(ts[0].name, ts[0].name)
    ensures forall t :: t in ts ==> leq(ts[0].name, t.name)
  {
    forall t | t in ts
      ensures leq(ts[0].name, t.name)
    {
      var j :| 0 <= j < |ts| && ts[j] == t;
      if j > 0 {
        assert leq(ts[0].name, ts[j].name);
      }
    }
  }
}
