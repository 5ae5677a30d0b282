/**
 * The project gallery index (src/projectImages.ts): image files found by four
 * glob imports are filed by project folder, each folder's list is sorted, the
 * result is cached, and a project title (English or Arabic) selects a folder.
 *
 * The bundler's glob maps and their asynchronous loaders are replaced by the
 * list of (path, url) pairs they resolve to (`GlobEntry`), and the regular
 * expressions by `Capture`.
 */
module ProjectImages {
  import opened Wrappers
  import opened StringOrder

  /** One file matched by a glob import: its path and the URL its loader resolves to. */
  datatype GlobEntry = GlobEntry(path: string, url: string)

  /** The two shapes of regular expression `buildGallery` hands to `resolveGlob`. */
  datatype Pattern =
    | FolderUnder(marker: string)  // marker, then ([^/]+), then "/", digits, ".jpg" at the end
    | FileNumber                   // "/", then (\d+), then ".jpg" at the end

  const ResidentialPattern: Pattern := FolderUnder("Residential Projects/")
  const MedicalPattern: Pattern := FolderUnder("Medical Projects/")
  const GasStation01Key: string := "Gas Station 01"
  const GasStation02Key: string := "Gas Station 02"

  /** Project folder name to its image URLs, a `Record<string, string[]>`. */
  type Gallery = map<string, seq<string>>

  /** `gallery[key] || []`. */
  function Lookup(g: Gallery, key: string): seq<string>
  {
    if key in g then g[key] else []
  }

  // ---------------------------------------------------------------------------
  // The path parser standing in for the regular expressions
  // ---------------------------------------------------------------------------

  /** `\d` without the `u` flag: an ASCII digit. */
  predicate IsDigit(c: char)
  {
    '0' <= c <= '9'
  }

  /** A match of `\d+`. */
  predicate IsNumber(s: string)
  {
    |s| > 0 && forall i :: 0 <= i < |s| ==> IsDigit(s[i])
  }

  /** A match of `[^/]+`. */
  predicate IsSegment(s: string)
  {
    |s| > 0 && forall i :: 0 <= i < |s| ==> s[i] != '/'
  }

  predicate EndsWith(s: string, suffix: string)
  {
    |suffix| <= |s| && s[|s| - |suffix|..] == suffix
  }

  /** A folder marker the parser can handle: it names a directory, so it ends in '/'. */
  predicate MarkerIsDirectory(marker: string)
  {
    marker != [] && marker[|marker| - 1] == '/'
  }

  /** The index of the last '/' among the first `n` characters of `s`, or -1 when there is none. */
  function LastSlashBefore(s: string, n: nat): (r: int)
    requires n <= |s|
    ensures -1 <= r < n
    ensures 0 <= r ==> s[r] == '/'
    ensures forall j :: r < j < n ==> s[j] != '/'
  {
    if n == 0 then -1
    else if s[n - 1] == '/' then n - 1
    else LastSlashBefore(s, n - 1)
  }

  /** The index of the last '/' in `s`, or -1 when there is none. */
  function LastSlash(s: string): (r: int)
    ensures -1 <= r < |s|
    ensures 0 <= r ==> s[r] == '/'
    ensures forall j :: r < j < |s| ==> s[j] != '/'
  {
    LastSlashBefore(s, |s|)
  }

  /** `path` without its ".jpg" extension, when it ends in one. */
  function StripJpg(path: string): Option<string>
  {
    if EndsWith(path, ".jpg") then Some(path[..|path| - 4]) else None
  }

  /**
   * The folder group of a directory part: the segment after its last '/',
   * when it is non-empty and what precedes it ends with the marker.
   */
  function FolderOf(marker: string, dir: string): Option<string>
  {
    var j := LastSlash(dir);
    var folder := dir[j + 1..];
    if folder != [] && EndsWith(dir[..j + 1], marker) then Some(folder) else None
  }

  /** Group 1 of the pattern's match in a path stripped of ".jpg": the file name must be digits. */
  function CaptureStem(p: Pattern, stem: string): Option<string>
  {
    var k := LastSlash(stem);
    if k < 0 || !IsNumber(stem[k + 1..]) then None
    else
      match p
      case FileNumber => Some(stem[k + 1..])
      case FolderUnder(marker) => FolderOf(marker, stem[..k])
  }

  /**
   * Group 1 of the pattern's match in `path`, or None when the path does not
   * match. Both patterns are anchored at the end by `$`, and neither group can
   * contain '/', so the group is found by splitting at the last slashes.
   */
  function Capture(p: Pattern, path: string): Option<string>
  {
    match StripJpg(path)
    case None => None
    case Some(stem) => CaptureStem(p, stem)
  }

  /** In `a + b` where `a` ends in '/' and `b` has no '/', the last slash closes `a`. */
  lemma LastSlashAt(a: string, b: string)
    requires a != [] && a[|a| - 1] == '/'
    requires forall i :: 0 <= i < |b| ==> b[i] != '/'
    ensures LastSlash(a + b) == |a| - 1
  {
    var s := a + b;
    assert s[|a| - 1] == '/';
    assert forall j :: |a| - 1 < j < |s| ==> s[j] == b[j - |a|];
  }

  lemma StripJpgOf(stem: string)
    ensures StripJpg(stem + ".jpg") == Some(stem)
  {
    var path := stem + ".jpg";
    assert path[|path| - 4..] == ".jpg";
    assert path[..|path| - 4] == stem;
  }

  lemma StripJpgSound(path: string)
    requires StripJpg(path).Some?
    ensures path == StripJpg(path).value + ".jpg"
  {
    assert path == path[..|path| - 4] + path[|path| - 4..];
  }

  /** A stem made of a directory part, '/', and digits splits into exactly those. */
  lemma CaptureStemOf(p: Pattern, dir: string, num: string)
    requires IsNumber(num)
    ensures CaptureStem(p, dir + "/" + num) ==
      match p
      case FileNumber => Some(num)
      case FolderUnder(marker) => FolderOf(marker, dir)
  {
    var stem := dir + "/" + num;
    LastSlashAt(dir + "/", num);
    assert stem[|dir| + 1..] == num;
    assert stem[..|dir|] == dir;
  }

  /** Whatever `CaptureStem` accepts splits at its last slash into a directory part and digits. */
  lemma CaptureStemSound(p: Pattern, stem: string) returns (dir: string, num: string)
    requires CaptureStem(p, stem).Some?
    ensures IsNumber(num) && stem == dir + "/" + num
    ensures p.FolderUnder? ==> CaptureStem(p, stem) == FolderOf(p.marker, dir)
  {
    var k := LastSlash(stem);
    dir, num := stem[..k], stem[k + 1..];
    assert stem == dir + [stem[k]] + num;
  }

  /** The folder group of `head + marker + folder` is `folder`. */
  lemma FolderOfComplete(marker: string, head: string, folder: string)
    requires MarkerIsDirectory(marker) && IsSegment(folder)
    ensures FolderOf(marker, head + marker + folder) == Some(folder)
  {
    var before := head + marker;
    var dir := before + folder;
    LastSlashAt(before, folder);
    var j := |before| - 1;
    assert dir[j + 1..] == folder;
    assert dir[..j + 1] == before;
    assert before[|before| - |marker|..] == marker;
  }

  /** When no '/' follows index `j`, the non-empty rest of the string after `j` is a segment. */
  lemma SegmentAfter(s: string, j: int)
    requires -1 <= j && j + 1 < |s|
    requires forall k :: j < k < |s| ==> s[k] != '/'
    ensures IsSegment(s[j + 1..])
  {
    var tail := s[j + 1..];
    forall i | 0 <= i < |tail| ensures tail[i] != '/' {
      assert tail[i] == s[j + 1 + i];
    }
  }

  /** What follows the last '/' of a string, when non-empty, is a segment. */
  lemma AfterLastSlash(s: string)
    requires LastSlash(s) + 1 < |s|
    ensures IsSegment(s[LastSlash(s) + 1..])
  {
    SegmentAfter(s, LastSlash(s));
  }

  /**
   * A string whose first `n` characters end with `marker` splits into what
   * precedes the marker, the marker, and the rest.
   */
  lemma SplitAroundMarker(s: string, n: nat, marker: string)
    requires n <= |s| && EndsWith(s[..n], marker)
    ensures s == s[..n - |marker|] + marker + s[n..]
  {
    var m := n - |marker|;
    assert s[..n][m..] == s[m..n];
    assert s == s[..m] + s[m..n] + s[n..];
  }

  /** An accepted folder follows the marker directly. */
  lemma FolderFollowsMarker(marker: string, dir: string) returns (head: string)
    requires FolderOf(marker, dir).Some?
    ensures dir == head + marker + FolderOf(marker, dir).value
  {
    var j := LastSlash(dir);
    SplitAroundMarker(dir, j + 1, marker);
    head := dir[..j + 1 - |marker|];
  }

  /** Whatever `FolderOf` accepts is a segment that follows the marker. */
  lemma FolderOfSound(marker: string, dir: string) returns (head: string)
    requires FolderOf(marker, dir).Some?
    ensures IsSegment(FolderOf(marker, dir).value)
    ensures dir == head + marker + FolderOf(marker, dir).value
  {
    AfterLastSlash(dir);
    head := FolderFollowsMarker(marker, dir);
  }

  /** The folder pattern captures exactly the folder of any path it is meant to match. */
  lemma CaptureFolderComplete(marker: string, head: string, folder: string, num: string)
    requires MarkerIsDirectory(marker)
    requires IsSegment(folder) && IsNumber(num)
    ensures Capture(FolderUnder(marker), head + marker + folder + "/" + num + ".jpg") == Some(folder)
  {
    var dir := head + marker + folder;
    StripJpgOf(dir + "/" + num);
    CaptureStemOf(FolderUnder(marker), dir, num);
    FolderOfComplete(marker, head, folder);
  }

  /** Whatever the folder pattern captures comes from a path of the intended shape. */
  lemma CaptureFolderSound(marker: string, path: string)
    requires Capture(FolderUnder(marker), path).Some?
    ensures var folder := Capture(FolderUnder(marker), path).value;
      IsSegment(folder) &&
      exists head, num :: IsNumber(num) && path == head + marker + folder + "/" + num + ".jpg"
  {
    StripJpgSound(path);
    var stem := StripJpg(path).value;
    var dir, num := CaptureStemSound(FolderUnder(marker), stem);
    var head := FolderOfSound(marker, dir);
    var folder := FolderOf(marker, dir).value;
    assert path == head + marker + folder + "/" + num + ".jpg";
  }

  /**
   * The file-number pattern captures the digits of the file name, and nothing
   * else. `buildGallery` passes this pattern only with a fixed key, so its
   * capture never decides where a URL is filed (`FixedKeyTakesAll`).
   */
  lemma CaptureNumberComplete(head: string, num: string)
    requires IsNumber(num)
    ensures Capture(FileNumber, head + "/" + num + ".jpg") == Some(num)
  {
    StripJpgOf(head + "/" + num);
    CaptureStemOf(FileNumber, head, num);
  }

  // ---------------------------------------------------------------------------
  // resolveGlob: filing entries by key
  // ---------------------------------------------------------------------------

  /**
   * The key `resolveGlob` files an entry under: a truthy `fixedKey` whatever the
   * path (an empty string is falsy in JavaScript), otherwise group 1 of the
   * pattern, and no key at all when the path does not match.
   */
  function KeyOf(e: GlobEntry, p: Pattern, fixedKey: Option<string>): Option<string>
  {
    if fixedKey.Some? && fixedKey.value != "" then fixedKey else Capture(p, e.path)
  }

  /** `if (!gallery[key]) gallery[key] = []; gallery[key].push(url)`. */
  function Append(g: Gallery, key: string, url: string): Gallery
  {
    g[key := Lookup(g, key) + [url]]
  }

  /** The gallery after `resolveGlob`'s loop has filed `entries` into `g`, in order. */
  function Resolve(g: Gallery, entries: seq<GlobEntry>, p: Pattern, fixedKey: Option<string>): Gallery
    decreases |entries|
  {
    if entries == [] then g
    else
      var before := Resolve(g, entries[..|entries| - 1], p, fixedKey);
      var e := entries[|entries| - 1];
      match KeyOf(e, p, fixedKey)
      case None => before
      case Some(key) => Append(before, key, e.url)
  }

  /** The URLs of the entries filed under `key`, in the order the entries come. */
  function FiledUnder(entries: seq<GlobEntry>, p: Pattern, fixedKey: Option<string>, key: string): seq<string>
    decreases |entries|
  {
    if entries == [] then []
    else
      var e := entries[|entries| - 1];
      FiledUnder(entries[..|entries| - 1], p, fixedKey, key)
        + (if KeyOf(e, p, fixedKey) == Some(key) then [e.url] else [])
  }

  /** The URLs of all entries, in order. */
  function Urls(entries: seq<GlobEntry>): (r: seq<string>)
    ensures |r| == |entries|
    ensures forall i :: 0 <= i < |entries| ==> r[i] == entries[i].url
  {
    if entries == [] then [] else Urls(entries[..|entries| - 1]) + [entries[|entries| - 1].url]
  }

  /**
   * After `resolveGlob`, each key's list is what it held before followed by the
   * URLs filed under it, so earlier entries are never lost; a key is present
   * exactly when it was before or something was filed under it.
   */
  lemma {:induction false} ResolveContents(g: Gallery, entries: seq<GlobEntry>, p: Pattern, fixedKey: Option<string>, key: string)
    ensures Lookup(Resolve(g, entries, p, fixedKey), key) == Lookup(g, key) + FiledUnder(entries, p, fixedKey, key)
    ensures key in Resolve(g, entries, p, fixedKey) <==> key in g || FiledUnder(entries, p, fixedKey, key) != []
    decreases |entries|
  {
    if entries != [] {
      var init := entries[..|entries| - 1];
      var e := entries[|entries| - 1];
      var before := Resolve(g, init, p, fixedKey);
      ResolveContents(g, init, p, fixedKey, key);
      assert FiledUnder(entries, p, fixedKey, key)
        == FiledUnder(init, p, fixedKey, key) + (if KeyOf(e, p, fixedKey) == Some(key) then [e.url] else []);
      match KeyOf(e, p, fixedKey)
      case None =>
        assert Resolve(g, entries, p, fixedKey) == before;
      case Some(k) =>
        assert Resolve(g, entries, p, fixedKey) == Append(before, k, e.url);
        if k == key {
          assert Lookup(Append(before, k, e.url), key) == Lookup(before, key) + [e.url];
        } else {
          assert Lookup(Append(before, k, e.url), key) == Lookup(before, key);
        }
    }
  }

  /** With a truthy fixed key every URL goes under that key, whatever its path. */
  lemma {:induction false} FixedKeyTakesAll(entries: seq<GlobEntry>, p: Pattern, fixedKey: string, key: string)
    requires fixedKey != ""
    ensures FiledUnder(entries, p, Some(fixedKey), key) == if key == fixedKey then Urls(entries) else []
    decreases |entries|
  {
    if entries != [] {
      FixedKeyTakesAll(entries[..|entries| - 1], p, fixedKey, key);
    }
  }

  /**
   * Without a fixed key, an entry whose path the pattern does not match is
   * dropped and leaves the gallery as it was; one that matches is appended to
   * its folder's list, which is created only if absent.
   */
  lemma FilingOneEntry(g: Gallery, entries: seq<GlobEntry>, e: GlobEntry, p: Pattern)
    ensures var before := Resolve(g, entries, p, None);
      var after := Resolve(g, entries + [e], p, None);
      match Capture(p, e.path)
      case None => after == before
      case Some(folder) =>
        after.Keys == before.Keys + {folder}
        && after[folder] == Lookup(before, folder) + [e.url]
        && forall k :: k in before && k != folder ==> after[k] == before[k]
  {
    assert (entries + [e])[..|entries + [e]| - 1] == entries;
  }

  // ---------------------------------------------------------------------------
  // buildGallery: four globs, then sort each list
  // ---------------------------------------------------------------------------

  /** The four glob imports, each given as the entries its loaders resolve to. */
  datatype GlobSources = GlobSources(
    residential: seq<GlobEntry>,
    medical: seq<GlobEntry>,
    gasStation01: seq<GlobEntry>,
    gasStation02: seq<GlobEntry>)

  /** One call of `resolveGlob`. */
  datatype Job = Job(entries: seq<GlobEntry>, pattern: Pattern, fixedKey: Option<string>)

  /** The four calls `buildGallery` starts, in the order it lists them. */
  function Jobs(src: GlobSources): seq<Job>
  {
    [ Job(src.residential, ResidentialPattern, None),
      Job(src.medical, MedicalPattern, None),
      Job(src.gasStation01, FileNumber, Some(GasStation01Key)),
      Job(src.gasStation02, FileNumber, Some(GasStation02Key)) ]
  }

  /** The gallery after the filing loops of `jobs` have run, in that order. */
  function ResolveJobs(g: Gallery, jobs: seq<Job>): Gallery
    decreases |jobs|
  {
    if jobs == [] then g
    else
      var j := jobs[|jobs| - 1];
      Resolve(ResolveJobs(g, jobs[..|jobs| - 1]), j.entries, j.pattern, j.fixedKey)
  }

  lemma ResolveJobsSnoc(g: Gallery, jobs: seq<Job>, j: Job)
    ensures ResolveJobs(g, jobs + [j]) == Resolve(ResolveJobs(g, jobs), j.entries, j.pattern, j.fixedKey)
  {
    assert (jobs + [j])[..|jobs + [j]| - 1] == jobs;
  }

  /** The URLs the jobs file under `key`, job after job. */
  function JobsFiledUnder(jobs: seq<Job>, key: string): seq<string>
    decreases |jobs|
  {
    if jobs == [] then []
    else
      var j := jobs[|jobs| - 1];
      JobsFiledUnder(jobs[..|jobs| - 1], key) + FiledUnder(j.entries, j.pattern, j.fixedKey, key)
  }

  /** Every list of the gallery sorted in place. */
  function SortAll(g: Gallery): Gallery
  {
    map k | k in g :: SortStrings(g[k])
  }

  /** What `buildGallery` returns when it builds. */
  function BuiltGallery(src: GlobSources): Gallery
  {
    SortAll(ResolveJobs(map[], Jobs(src)))
  }

  lemma {:induction false} ResolveJobsContents(g: Gallery, jobs: seq<Job>, key: string)
    ensures Lookup(ResolveJobs(g, jobs), key) == Lookup(g, key) + JobsFiledUnder(jobs, key)
    decreases |jobs|
  {
    if jobs != [] {
      var j := jobs[|jobs| - 1];
      ResolveJobsContents(g, jobs[..|jobs| - 1], key);
      ResolveContents(ResolveJobs(g, jobs[..|jobs| - 1]), j.entries, j.pattern, j.fixedKey, key);
    }
  }

  lemma {:induction false} JobsFiledUnderAppend(a: seq<Job>, b: seq<Job>, key: string)
    ensures JobsFiledUnder(a + b, key) == JobsFiledUnder(a, key) + JobsFiledUnder(b, key)
    decreases |b|
  {
    if b == [] {
      assert a + b == a;
    } else {
      var init, last := b[..|b| - 1], b[|b| - 1];
      assert (a + b)[..|a + b| - 1] == a + init;
      assert (a + b)[|a + b| - 1] == last;
      JobsFiledUnderAppend(a, init, key);
      var filed := FiledUnder(last.entries, last.pattern, last.fixedKey, key);
      assert JobsFiledUnder(a + b, key) == JobsFiledUnder(a, key) + JobsFiledUnder(init, key) + filed;
    }
  }

  /** Taking the job at index `i` out of a list removes exactly that job from its multiset. */
  lemma MultisetWithout<T>(xs: seq<T>, i: int)
    requires 0 <= i < |xs|
    ensures multiset(xs[..i] + xs[i + 1..]) == multiset(xs) - multiset{xs[i]}
  {
    assert xs == xs[..i] + [xs[i]] + xs[i + 1..];
    assert multiset(xs) == multiset(xs[..i]) + multiset{xs[i]} + multiset(xs[i + 1..]);
  }

  /** What the jobs file is what the others file plus what the job at index `i` files. */
  lemma FiledWithout(jobs: seq<Job>, i: int, key: string)
    requires 0 <= i < |jobs|
    ensures multiset(JobsFiledUnder(jobs, key)) ==
      multiset(JobsFiledUnder(jobs[..i] + jobs[i + 1..], key)) + multiset(JobsFiledUnder([jobs[i]], key))
  {
    var before, after := jobs[..i], jobs[i + 1..];
    assert jobs == before + [jobs[i]] + after;
    JobsFiledUnderAppend(before + [jobs[i]], after, key);
    JobsFiledUnderAppend(before, [jobs[i]], key);
    JobsFiledUnderAppend(before, after, key);
  }

  /** Running the same jobs in another order files the same URLs under each key, up to order. */
  lemma {:induction false} JobsFiledUnderPermutation(jobs: seq<Job>, other: seq<Job>, key: string)
    requires multiset(jobs) == multiset(other)
    ensures multiset(JobsFiledUnder(jobs, key)) == multiset(JobsFiledUnder(other, key))
    decreases |jobs|
  {
    if jobs == [] {
      assert |multiset(other)| == 0;
    } else {
      var last := jobs[|jobs| - 1];
      var init := jobs[..|jobs| - 1];
      assert jobs == init + [last];
      JobsFiledUnderAppend(init, [last], key);
      assert last in multiset(other);
      var i :| 0 <= i < |other| && other[i] == last;
      MultisetWithout(jobs, |jobs| - 1);
      MultisetWithout(other, i);
      assert jobs[..|jobs| - 1] + jobs[|jobs|..] == init;
      JobsFiledUnderPermutation(init, other[..i] + other[i + 1..], key);
      FiledWithout(other, i, key);
    }
  }

  lemma {:induction false} LookupSortAll(g: Gallery, key: string)
    ensures Lookup(SortAll(g), key) == SortStrings(Lookup(g, key))
  {
  }

  /** After the sort, a key's list is the sorted list of what was filed under it. */
  lemma {:induction false} SortedJobsContents(jobs: seq<Job>, key: string)
    ensures Lookup(SortAll(ResolveJobs(map[], jobs)), key) == SortStrings(JobsFiledUnder(jobs, key))
  {
    var empty: Gallery := map[];
    var g := ResolveJobs(empty, jobs);
    ResolveJobsContents(empty, jobs, key);
    assert Lookup(empty, key) == [];
    assert Lookup(g, key) == JobsFiledUnder(jobs, key);
    LookupSortAll(g, key);
  }

  /**
   * Each list of the built gallery is sorted and holds exactly the URLs filed
   * under its key by the four globs.
   */
  lemma BuiltGalleryContents(src: GlobSources, key: string)
    ensures Lookup(BuiltGallery(src), key) == SortStrings(JobsFiledUnder(Jobs(src), key))
    ensures Sorted(Lookup(BuiltGallery(src), key))
    ensures multiset(Lookup(BuiltGallery(src), key)) == multiset(JobsFiledUnder(Jobs(src), key))
  {
    var jobs := Jobs(src);
    SortedJobsContents(jobs, key);
    SortStringsSorted(JobsFiledUnder(jobs, key));
  }

  /**
   * The four loads run concurrently and may finish in any order; after the
   * sort the gallery is the same whatever that order was.
   */
  lemma GalleryIgnoresCompletionOrder(src: GlobSources, order: seq<Job>, key: string)
    requires multiset(order) == multiset(Jobs(src))
    ensures Lookup(SortAll(ResolveJobs(map[], order)), key) == Lookup(BuiltGallery(src), key)
  {
    var jobs := Jobs(src);
    SortedJobsContents(order, key);
    SortedJobsContents(jobs, key);
    JobsFiledUnderPermutation(order, jobs, key);
    SortIgnoresArrivalOrder(JobsFiledUnder(order, key), JobsFiledUnder(jobs, key));
  }

  /** Every list of the built gallery is already sorted: sorting it again changes nothing. */
  lemma BuiltGalleryIdempotentSort(src: GlobSources)
    ensures SortAll(BuiltGallery(src)) == BuiltGallery(src)
  {
    var g := BuiltGallery(src);
    forall k | k in g ensures SortStrings(g[k]) == g[k] {
      SortStringsSorted(ResolveJobs(map[], Jobs(src))[k]);
      SortKeepsSorted(g[k]);
    }
  }

  lemma MapsEqual(a: Gallery, b: Gallery)
    requires forall k :: k in a <==> k in b
    requires forall k :: k in a ==> a[k] == b[k]
    ensures a == b
  {
  }

  /** Part way through the sort loop: the lists of the keys in `done` sorted, the others as filed. */
  ghost function SortKeys(g: Gallery, done: set<string>): Gallery
  {
    map k | k in g :: if k in done then SortStrings(g[k]) else g[k]
  }

  /** Part way through the sort loop: the cache holds the sorted lists of the keys in `done`. */
  ghost function SortedPart(g: Gallery, done: set<string>): Gallery
  {
    map k | k in g && k in done :: SortStrings(g[k])
  }

  /** Sorting one more key's list, even one already sorted, moves the loop one key on. */
  lemma SortKeysStep(g: Gallery, done: set<string>, key: string)
    requires key in g
    ensures SortKeys(g, done)[key := SortStrings(SortKeys(g, done)[key])] == SortKeys(g, done + {key})
    ensures SortedPart(g, done)[key := SortStrings(g[key])] == SortedPart(g, done + {key})
    ensures SortKeys(g, done + {key})[key] == SortStrings(g[key])
  {
    if key in done {
      SortStringsSorted(g[key]);
      SortKeepsSorted(SortStrings(g[key]));
    }
    MapsEqual(SortKeys(g, done)[key := SortStrings(SortKeys(g, done)[key])], SortKeys(g, done + {key}));
    MapsEqual(SortedPart(g, done)[key := SortStrings(g[key])], SortedPart(g, done + {key}));
  }

  /** Once every key is done, both the gallery and the cache are the fully sorted gallery. */
  lemma SortKeysDone(g: Gallery, done: set<string>)
    requires g.Keys <= done
    ensures SortKeys(g, done) == SortAll(g) && SortedPart(g, done) == SortAll(g)
  {
    MapsEqual(SortKeys(g, done), SortAll(g));
    MapsEqual(SortedPart(g, done), SortAll(g));
  }

  /** A dictionary being filled in place: the lists and the order keys were added in. */
  class GalleryTable {
    var lists: Gallery
    var order: seq<string>  // Object.keys(gallery)

    ghost predicate Valid()
      reads this
    {
      && (forall k :: k in lists <==> k in order)
      && (forall i, j :: 0 <= i < j < |order| ==> order[i] != order[j])
    }

    constructor ()
      ensures Valid() && lists == map[] && order == []
    {
      lists := map[];
      order := [];
    }

    /** `if (!gallery[key]) gallery[key] = []; gallery[key].push(url)`. */
    method Push(key: string, url: string)
      requires Valid()
      modifies this
      ensures Valid()
      ensures lists == Append(old(lists), key, url)
      ensures order == if key in old(lists) then old(order) else old(order) + [key]
    {
      if key !in lists {
        lists := lists[key := []];
        order := order + [key];
      }
      lists := lists[key := lists[key] + [url]];
    }

    /** The filing loop of `resolveGlob`. */
    method ResolveGlob(entries: seq<GlobEntry>, p: Pattern, fixedKey: Option<string>)
      requires Valid()
      modifies this
      ensures Valid()
      ensures lists == Resolve(old(lists), entries, p, fixedKey)
    {
      for i := 0 to |entries|
        invariant Valid()
        invariant lists == Resolve(old(lists), entries[..i], p, fixedKey)
      {
        var e := entries[i];
        assert entries[..i + 1][..i] == entries[..i];
        if fixedKey.Some? && fixedKey.value != "" {
          Push(fixedKey.value, e.url);
        } else {
          var m := Capture(p, e.path);
          if m.Some? {
            Push(m.value, e.url);
          }
        }
      }
      assert entries[..|entries|] == entries;
    }

    /** `gallery[key].sort()`. */
    method SortList(key: string)
      requires Valid() && key in lists
      modifies this
      ensures Valid() && order == old(order)
      ensures lists == old(lists)[key := SortStrings(old(lists)[key])]
    {
      lists := lists[key := SortStrings(lists[key])];
    }
  }

  /** The module-level `galleryCache`, with the glob imports it is built from. */
  class GalleryStore {
    const sources: GlobSources
    var cache: Gallery

    /** The cache is empty or holds the gallery built from the sources. */
    ghost predicate Valid()
      reads this
    {
      cache == map[] || cache == BuiltGallery(sources)
    }

    constructor (sources: GlobSources)
      ensures Valid() && this.sources == sources && cache == map[]
    {
      this.sources := sources;
      cache := map[];
    }

    /**
     * `buildGallery`: a non-empty cache is returned as it is; otherwise the
     * four globs are filed, each list is sorted and copied into the cache.
     */
    method BuildGallery() returns (g: Gallery)
      requires Valid()
      modifies this
      ensures Valid()
      ensures g == BuiltGallery(sources) && cache == BuiltGallery(sources)
      ensures old(cache) != map[] ==> g == old(cache) && cache == old(cache)
    {
      if |cache| > 0 {
        return cache;
      }
      var table := FileAll();
      SortEachList(table);
      g := table.lists;
    }

    /**
     * The loop closing `buildGallery`: each key's list is sorted in place and
     * stored in the (so far empty) cache.
     */
    method SortEachList(table: GalleryTable)
      requires table.Valid() && cache == map[]
      modifies this, table
      ensures table.Valid()
      ensures table.lists == SortAll(old(table.lists)) && cache == table.lists
    {
      ghost var raw := table.lists;
      ghost var done: set<string> := {};
      var i := 0;
      while i < |table.order|
        invariant table.Valid() && 0 <= i <= |table.order|
        invariant table.lists == SortKeys(raw, done) && cache == SortedPart(raw, done)
        invariant forall j :: 0 <= j < i ==> table.order[j] in done
      {
        var key := table.order[i];
        SortKeysStep(raw, done, key);
        table.SortList(key);
        cache := cache[key := table.lists[key]];
        done := done + {key};
        i := i + 1;
      }
      forall k | k in raw ensures k in done {
        assert k in table.lists;
        var j :| 0 <= j < |table.order| && table.order[j] == k;
      }
      SortKeysDone(raw, done);
    }

    /** The four `resolveGlob` calls of `buildGallery`, filing into a fresh gallery. */
    method FileAll() returns (table: GalleryTable)
      ensures fresh(table) && table.Valid()
      ensures table.lists == ResolveJobs(map[], Jobs(sources))
    {
      table := new GalleryTable();
      ghost var jobs: seq<Job> := [];
      table.ResolveGlob(sources.residential, ResidentialPattern, None);
      ResolveJobsSnoc(map[], jobs, Job(sources.residential, ResidentialPattern, None));
      jobs := jobs + [Job(sources.residential, ResidentialPattern, None)];
      table.ResolveGlob(sources.medical, MedicalPattern, None);
      ResolveJobsSnoc(map[], jobs, Job(sources.medical, MedicalPattern, None));
      jobs := jobs + [Job(sources.medical, MedicalPattern, None)];
      table.ResolveGlob(sources.gasStation01, FileNumber, Some(GasStation01Key));
      ResolveJobsSnoc(map[], jobs, Job(sources.gasStation01, FileNumber, Some(GasStation01Key)));
      jobs := jobs + [Job(sources.gasStation01, FileNumber, Some(GasStation01Key))];
      table.ResolveGlob(sources.gasStation02, FileNumber, Some(GasStation02Key));
      ResolveJobsSnoc(map[], jobs, Job(sources.gasStation02, FileNumber, Some(GasStation02Key)));
      jobs := jobs + [Job(sources.gasStation02, FileNumber, Some(GasStation02Key))];
      assert jobs == Jobs(sources);
    }

    /**
     * `getGalleryImages`: a title with no folder yields `[]` and leaves the
     * cache alone; otherwise the gallery is built (or taken from the cache)
     * and the folder's list, or `[]`, is returned.
     */
    method GetGalleryImages(title: string) returns (images: seq<string>)
      requires Valid()
      modifies this
      ensures Valid()
      ensures images == GalleryImages(sources, title)
      ensures FolderFor(title).None? ==> cache == old(cache)
    {
      var folder := FolderFor(title);
      if folder.None? {
        return [];
      }
      var g := BuildGallery();
      images := Lookup(g, folder.value);
    }
  }

  // ---------------------------------------------------------------------------
  // getGalleryImages: project titles to folders
  // ---------------------------------------------------------------------------

  /** The `titleToFolder` table: each project's English and Arabic title. */
  const TitleToFolder: map<string, string> := map[
    "AMARA VILLA" := "Amara Villa",
    "فيلا أمارا" := "Amara Villa",
    "AURA" := "Aura",
    "أورا" := "Aura",
    "AZORA" := "Azora ( Residential )",
    "أزورا" := "Azora ( Residential )",
    "ELEVE" := "Eleve",
    "إليف" := "Eleve",
    "GHOSOUN RESORT" := "Ghosoun Resort",
    "منتجع غصون" := "Ghosoun Resort",
    "LIORA RESIDENTIAL" := "Liora Residential",
    "ليورا السكني" := "Liora Residential",
    "ORLANA VILLA" := "Orlana Villa",
    "فيلا أورلانا" := "Orlana Villa",
    "SQUARE 01" := "Square 01",
    "سكوير ٠١" := "Square 01",
    "CURE MEDICAL BUILDING" := "Cure Medical Building",
    "مبنى كيور الطبي" := "Cure Medical Building",
    "GAS STATION 01" := "Gas Station 01",
    "محطة وقود ٠١" := "Gas Station 01",
    "GAS STATION 02" := "Gas Station 02",
    "محطة وقود ٠٢" := "Gas Station 02"
  ]

  /** `titleToFolder[title]` when it is truthy. */
  function FolderFor(title: string): Option<string>
  {
    if title in TitleToFolder && TitleToFolder[title] != "" then Some(TitleToFolder[title]) else None
  }

  /** What `getGalleryImages(title)` resolves to, for a given set of glob imports. */
  function GalleryImages(src: GlobSources, title: string): seq<string>
  {
    match FolderFor(title)
    case None => []
    case Some(folder) => Lookup(BuiltGallery(src), folder)
  }

  /** The project titles the English and Arabic content show in the projects section. */
  const EnglishGalleryTitles: seq<string> := [
    "AMARA VILLA", "AURA", "AZORA", "ELEVE", "GHOSOUN RESORT", "LIORA RESIDENTIAL", "ORLANA VILLA", "SQUARE 01"
  ]
  const ArabicGalleryTitles: seq<string> := [
    "فيلا أمارا", "أورا", "أزورا", "إليف", "منتجع غصون", "ليورا السكني", "فيلا أورلانا", "سكوير ٠١"
  ]

  /**
   * The English and the Arabic content list the same projects in the same
   * order: the two titles at each position lead to the same folder.
   */
  lemma TitlesShareFolder()
    ensures |EnglishGalleryTitles| == |ArabicGalleryTitles|
    ensures forall i :: 0 <= i < |EnglishGalleryTitles| ==>
      FolderFor(EnglishGalleryTitles[i]).Some? && FolderFor(EnglishGalleryTitles[i]) == FolderFor(ArabicGalleryTitles[i])
  {
  }

  /** Every project title the site shows has a gallery folder. */
  lemma ShownTitlesHaveFolders()
    ensures forall t :: t in EnglishGalleryTitles ==> FolderFor(t).Some?
    ensures forall t :: t in ArabicGalleryTitles ==> FolderFor(t).Some?
  {
    TitlesShareFolder();
    forall t | t in ArabicGalleryTitles ensures FolderFor(t).Some? {
      var i :| 0 <= i < |ArabicGalleryTitles| && ArabicGalleryTitles[i] == t;
      assert FolderFor(EnglishGalleryTitles[i]).Some?;
    }
  }

  /** A title outside the table yields no images, whatever the globs hold. */
  lemma UnknownTitleHasNoImages(src: GlobSources, title: string)
    requires title !in TitleToFolder
    ensures GalleryImages(src, title) == []
  {
  }

  /**
   * A known title yields its folder's sorted images, which are empty exactly
   * when nothing was filed under the folder.
   */
  lemma KnownTitleImages(src: GlobSources, title: string)
    requires FolderFor(title).Some?
    ensures var urls := JobsFiledUnder(Jobs(src), FolderFor(title).value);
      Sorted(GalleryImages(src, title))
      && multiset(GalleryImages(src, title)) == multiset(urls)
      && (GalleryImages(src, title) == [] <==> urls == [])
  {
    BuiltGalleryContents(src, FolderFor(title).value);
  }
}
