/** The backup directory (internal/store/backup.go): clean-up, publishing and rotation, with a crash
    possible between any two file operations. */
module Backup {
  import opened Records

  // ---- Names ----

  predicate HasPrefix(s: string, p: string) { p <= s }

  predicate HasSuffix(s: string, x: string) { |x| <= |s| && s[|s| - |x|..] == x }

  const PREFIX := "lazarus-"
  const MANIFEST_SUFFIX := ".manifest.json"

  /** isBackupTempName. */
  predicate IsTempSuffixed(name: string) {
    || HasSuffix(name, ".tmp") || HasSuffix(name, ".tmp-wal") || HasSuffix(name, ".tmp-shm")
    || HasSuffix(name, ".tmp-journal")
  }

  predicate IsTempName(name: string) { HasPrefix(name, PREFIX) && IsTempSuffixed(name) }

  predicate IsDatabaseName(name: string) { HasPrefix(name, PREFIX) && HasSuffix(name, ".db") }

  predicate IsManifestName(name: string) { HasPrefix(name, PREFIX) && HasSuffix(name, ".db.manifest.json") }

  function ManifestOf(name: string): string { name + MANIFEST_SUFFIX }

  function DatabaseOf(manifest: string): string
    requires |manifest| >= |MANIFEST_SUFFIX|
  {
    manifest[..|manifest| - |MANIFEST_SUFFIX|]
  }

  lemma LastChar(s: string, x: string)
    requires HasSuffix(s, x) && x != ""
    ensures s != "" && s[|s| - 1] == x[|x| - 1]
  {
  }

  /** The three kinds of names exclude each other. */
  lemma NamesDisjoint(name: string)
    ensures !(IsTempName(name) && IsDatabaseName(name))
    ensures !(IsTempName(name) && IsManifestName(name))
    ensures !(IsDatabaseName(name) && IsManifestName(name))
  {
    if HasSuffix(name, ".tmp") { LastChar(name, ".tmp"); }
    if HasSuffix(name, ".tmp-wal") { LastChar(name, ".tmp-wal"); }
    if HasSuffix(name, ".tmp-shm") { LastChar(name, ".tmp-shm"); }
    if HasSuffix(name, ".tmp-journal") { LastChar(name, ".tmp-journal"); }
    if HasSuffix(name, ".db") { LastChar(name, ".db"); }
    if HasSuffix(name, ".db.manifest.json") { LastChar(name, ".db.manifest.json"); }
  }

  lemma SuffixExtends(name: string, x: string, y: string)
    requires HasSuffix(name, x)
    ensures HasSuffix(name + y, x + y)
  {
    var m := name + y;
    assert m[|m| - |x + y|..] == name[|name| - |x|..] + y;
  }

  lemma PrefixExtends(name: string, p: string, y: string)
    requires HasPrefix(name, p)
    ensures HasPrefix(name + y, p)
  {
    assert (name + y)[..|p|] == name[..|p|];
  }

  /** Database and manifest names pair up. */
  lemma ManifestPairs(name: string)
    requires IsDatabaseName(name)
    ensures IsManifestName(ManifestOf(name)) && DatabaseOf(ManifestOf(name)) == name
  {
    assert ".db.manifest.json" == ".db" + MANIFEST_SUFFIX;
    hide HasSuffix, HasPrefix;
    SuffixExtends(name, ".db", MANIFEST_SUFFIX);
    PrefixExtends(name, PREFIX, MANIFEST_SUFFIX);
    assert ManifestOf(name)[..|name|] == name;
  }

  lemma DatabasePairs(manifest: string)
    requires IsManifestName(manifest)
    ensures |manifest| >= |MANIFEST_SUFFIX|
    ensures IsDatabaseName(DatabaseOf(manifest)) && ManifestOf(DatabaseOf(manifest)) == manifest
  {
    var n := |manifest|;
    var d := DatabaseOf(manifest);
    var tail := manifest[n - 17..];
    assert tail == ".db.manifest.json";
    assert tail[..3] == ".db" && tail[3..] == MANIFEST_SUFFIX;
    assert d[|d| - 3..] == tail[..3];
    assert manifest[n - 14..] == tail[3..];
    assert manifest == d + manifest[n - 14..];
    assert manifest[n - 17] == '.';
    assert |d| >= |PREFIX|;
    assert d[..|PREFIX|] == manifest[..|PREFIX|];
  }

  /** The order of file names. */
  predicate Less(a: string, b: string) {
    if b == "" then false
    else if a == "" then true
    else if a[0] != b[0] then a[0] < b[0]
    else Less(a[1..], b[1..])
  }

  lemma {:induction false} LessIrreflexive(a: string)
    ensures !Less(a, a)
  {
    if a != "" { LessIrreflexive(a[1..]); }
  }

  lemma {:induction false} LessTotal(a: string, b: string)
    ensures a == b || Less(a, b) || Less(b, a)
  {
    if a != "" && b != "" && a[0] == b[0] {
      LessTotal(a[1..], b[1..]);
      if a[1..] == b[1..] {
        assert a == [a[0]] + a[1..] && b == [b[0]] + b[1..];
      }
    }
  }

  lemma {:induction false} LessTransitive(a: string, b: string, c: string)
    requires Less(a, b) && Less(b, c)
    ensures Less(a, c)
  {
    if a != "" && a[0] == b[0] && b[0] == c[0] {
      LessTransitive(a[1..], b[1..], c[1..]);
    }
  }

  /** What that order is: the shorter of two names that agree comes first; otherwise the first character in
      which they differ decides. */
  ghost predicate Precedes(a: string, b: string) {
    || (|a| < |b| && b[..|a|] == a)
    || exists i :: 0 <= i < |a| && i < |b| && a[..i] == b[..i] && a[i] < b[i]
  }

  lemma {:induction false} LessMeans(a: string, b: string)
    ensures Less(a, b) <==> Precedes(a, b)
  {
    if a == "" || b == "" {
    } else {
      LessMeans(a[1..], b[1..]);
      PrecedesStep(a, b);
    }
  }

  lemma PrecedesStep(a: string, b: string)
    requires a != "" && b != ""
    ensures Precedes(a, b) <==> a[0] < b[0] || (a[0] == b[0] && Precedes(a[1..], b[1..]))
  {
    hide Precedes;
    if a[0] == b[0] {
      if Precedes(a[1..], b[1..]) {
        assert a == [a[0]] + a[1..] && b == [b[0]] + b[1..];
        PrecedesBehind([a[0]], a[1..], b[1..]);
      }
      if Precedes(a, b) {
        PrecedesTail(a, b);
      }
    } else {
      FirstDecides(a, b);
    }
  }

  lemma FirstDecides(a: string, b: string)
    requires a != "" && b != "" && a[0] != b[0]
    ensures Precedes(a, b) <==> a[0] < b[0]
  {
    assert a[..0] == b[..0];
    assert |a| < |b| ==> b[..|a|][0] == b[0];
    assert forall i :: 0 < i < |a| && i < |b| ==> a[..i][0] == a[0] && b[..i][0] == b[0];
  }

  lemma PrecedesTail(a: string, b: string)
    requires a != "" && b != "" && a[0] == b[0] && Precedes(a, b)
    ensures Precedes(a[1..], b[1..])
  {
    var a', b' := a[1..], b[1..];
    if |a| < |b| && b[..|a|] == a {
      assert b'[..|a'|] == b[..|a|][1..];
    } else {
      var i :| 0 <= i < |a| && i < |b| && a[..i] == b[..i] && a[i] < b[i];
      assert a'[..i - 1] == a[..i][1..] && b'[..i - 1] == b[..i][1..];
      assert a'[i - 1] < b'[i - 1];
    }
  }

  // ---- Directories ----

  /** What a file holds, as far as the protocol cares: a database image, or the manifest of one. */
  datatype Content = Image(data: string) | ManifestText(filename: string, digest: string) | OtherContent

  datatype Entry = Folder | File(modified: int, content: Content)

  type Directory = map<string, Entry>

  predicate IsFile(d: Directory, name: string) { name in d && d[name].File? }

  /** A complete pair, as clean-up and rotation see it. */
  predicate Pair(d: Directory, name: string) {
    IsDatabaseName(name) && IsFile(d, name) && ManifestOf(name) in d
  }

  predicate IsArtifactChar(c: char) {
    'a' <= c <= 'z' || 'A' <= c <= 'Z' || '0' <= c <= '9' || c in "._-"
  }

  /** The names BackupArtifact looks up at all. */
  predicate IsArtifactName(name: string) {
    1 <= |name| <= 200 && forall i :: 0 <= i < |name| ==> IsArtifactChar(name[i])
  }

  /** The name a backup gets from the clock: the time of day and its nanoseconds, as texts. */
  function BackupName(stamp: string, nanos: string): string { PREFIX + stamp + "-" + nanos + ".db" }

  /** Such a name is a database name that can be looked up. */
  lemma BackupNameIsArtifact(stamp: string, nanos: string)
    requires |stamp| == 26 && |nanos| <= 20
    requires forall i :: 0 <= i < |stamp| ==> IsArtifactChar(stamp[i])
    requires forall i :: 0 <= i < |nanos| ==> IsArtifactChar(nanos[i])
    ensures IsDatabaseName(BackupName(stamp, nanos)) && IsArtifactName(BackupName(stamp, nanos))
  {
    var name := BackupName(stamp, nanos);
    assert name[|name| - 3..] == ".db" && name[..|PREFIX|] == PREFIX;
    assert forall i :: 0 <= i < |PREFIX| ==> IsArtifactChar(PREFIX[i]);
    assert forall i :: 0 <= i < |".db"| ==> IsArtifactChar(".db"[i]);
    hide IsArtifactChar;
  }

  /** A published pair, as BackupArtifact validates it. An image is a database that verifies. */
  predicate Published(d: Directory, name: string) {
    && IsArtifactName(name) && Pair(d, name) && IsFile(d, ManifestOf(name)) && d[name].content.Image?
    && d[ManifestOf(name)].content == ManifestText(name, d[name].content.data)
  }

  function Pairs(d: Directory): set<string> { set name | name in d && Pair(d, name) }

  predicate SamePair(d: Directory, d': Directory, name: string)
    requires Pair(d, name)
  {
    Pair(d', name) && d'[name] == d[name] && d'[ManifestOf(name)] == d[ManifestOf(name)]
  }

  /** Some entries are gone and nothing else happened. */
  predicate Without(d: Directory, d': Directory) {
    d'.Keys <= d.Keys && forall name :: name in d' ==> d'[name] == d[name]
  }

  predicate IsDebrisTemp(d: Directory, name: string) { IsFile(d, name) && IsTempName(name) }

  predicate IsOrphanDatabase(d: Directory, name: string) {
    IsFile(d, name) && IsDatabaseName(name) && ManifestOf(name) !in d
  }

  predicate IsOrphanManifest(d: Directory, name: string) {
    IsFile(d, name) && IsManifestName(name) && |name| >= |MANIFEST_SUFFIX| && DatabaseOf(name) !in d
  }

  function SweepTemps(d: Directory): Directory { map name | name in d && !IsDebrisTemp(d, name) :: d[name] }

  function SweepDatabases(d: Directory): Directory { map name | name in d && !IsOrphanDatabase(d, name) :: d[name] }

  function SweepManifests(d: Directory): Directory { map name | name in d && !IsOrphanManifest(d, name) :: d[name] }

  /** cleanupBackupTemps, when it finishes. */
  function CleanedUp(d: Directory): Directory { SweepManifests(SweepDatabases(SweepTemps(d))) }

  predicate Clean(d: Directory) {
    forall name :: name in d ==> !IsDebrisTemp(d, name) && !IsOrphanDatabase(d, name) && !IsOrphanManifest(d, name)
  }

  /** Between the start and the end of a sweep: only debris has gone. */
  predicate Between(d: Directory, mid: Directory, end: Directory) { Without(d, mid) && Without(mid, end) }

  lemma SweepsKeepPair(d: Directory, name: string)
    requires Pair(d, name)
    ensures SamePair(d, SweepTemps(d), name)
    ensures SamePair(d, SweepDatabases(d), name)
    ensures SamePair(d, SweepManifests(d), name)
  {
    hide HasPrefix, HasSuffix, IsTempSuffixed;
    ManifestPairs(name);
    NamesDisjoint(name);
    NamesDisjoint(ManifestOf(name));
    hide IsTempName, IsDatabaseName, IsManifestName, ManifestOf, DatabaseOf;
  }

  lemma BetweenKeepsPair(d: Directory, mid: Directory, end: Directory, name: string)
    requires Between(d, mid, end) && Pair(d, name) && SamePair(d, end, name)
    ensures SamePair(d, mid, name)
  {
    hide IsDatabaseName, ManifestOf;
  }

  /** Clean-up removes no complete pair and leaves no temporary file and no half of a pair. */
  lemma CleanUpSafety(d: Directory)
    ensures Clean(CleanedUp(d))
    ensures Without(d, CleanedUp(d))
    ensures forall name :: name in d && Pair(d, name) ==> SamePair(d, CleanedUp(d), name)
  {
    var a := SweepTemps(d);
    var b := SweepDatabases(a);
    var c := SweepManifests(b);
    forall name | name in d && Pair(d, name)
      ensures SamePair(d, c, name)
    {
      SweepsKeepPair(d, name);
      SweepsKeepPair(a, name);
      SweepsKeepPair(b, name);
    }
    forall name | name in c
      ensures !IsDebrisTemp(c, name) && !IsOrphanDatabase(c, name) && !IsOrphanManifest(c, name)
    {
      CleanEntry(d, name);
    }
  }

  lemma CleanEntry(d: Directory, name: string)
    requires name in CleanedUp(d)
    ensures var c := CleanedUp(d);
            !IsDebrisTemp(c, name) && !IsOrphanDatabase(c, name) && !IsOrphanManifest(c, name)
  {
    hide HasPrefix, HasSuffix, IsTempSuffixed, IsTempName;
    var a := SweepTemps(d);
    var b := SweepDatabases(a);
    var c := CleanedUp(d);
    if IsFile(c, name) && IsDatabaseName(name) {
      ManifestPairs(name);
      NamesDisjoint(name);
      NamesDisjoint(ManifestOf(name));
      hide IsDatabaseName, IsManifestName, ManifestOf, DatabaseOf;
      assert ManifestOf(name) in a;
      assert ManifestOf(name) in b;
      assert ManifestOf(name) in c;
    } else if IsFile(c, name) && IsManifestName(name) {
      DatabasePairs(name);
      NamesDisjoint(DatabaseOf(name));
      NamesDisjoint(name);
      hide IsDatabaseName, IsManifestName, ManifestOf, DatabaseOf;
      assert DatabaseOf(name) in b;
      assert DatabaseOf(name) in c;
    }
  }

  // ---- Rotation ----

  /** The backups rotation counts: every database file. */
  function Databases(d: Directory): set<string> { set name | name in d && IsFile(d, name) && IsDatabaseName(name) }

  function Greater(names: set<string>, name: string): set<string> { set m | m in names && Less(name, m) }

  /** How many backups have a greater name. */
  function Rank(names: set<string>, name: string): nat { |Greater(names, name)| }

  predicate Young(e: Entry, minAge: int, now: int) { e.File? && minAge > 0 && now - e.modified < minAge }

  /** What rotation removes: beyond the `keep` greatest names and not younger than the minimum age. */
  predicate Expired(d: Directory, keep: nat, minAge: int, now: int, name: string) {
    name in Databases(d) && Rank(Databases(d), name) >= keep && !Young(d[name], minAge, now)
  }

  predicate RemovedByRotation(d: Directory, keep: nat, minAge: int, now: int, entry: string) {
    exists name :: name in Databases(d) && Expired(d, keep, minAge, now, name)
        && (entry == name || entry == ManifestOf(name))
  }

  /** rotateBackupsWithAge, when it finishes. */
  function Rotated(d: Directory, keep: nat, minAge: int, now: int): Directory {
    map entry | entry in d && !RemovedByRotation(d, keep, minAge, now, entry) :: d[entry]
  }

  lemma ManifestOfInjective(a: string, b: string)
    ensures ManifestOf(a) == ManifestOf(b) ==> a == b
  {
    assert ManifestOf(a)[..|a|] == a && ManifestOf(b)[..|b|] == b;
  }

  lemma RotationSparesPair(d: Directory, keep: nat, minAge: int, now: int, name: string)
    requires Pair(d, name) && !Expired(d, keep, minAge, now, name)
    ensures !RemovedByRotation(d, keep, minAge, now, name) && !RemovedByRotation(d, keep, minAge, now, ManifestOf(name))
    ensures SamePair(d, Rotated(d, keep, minAge, now), name)
  {
    hide HasPrefix, HasSuffix, Rank;
    ManifestPairs(name);
    NamesDisjoint(name);
    NamesDisjoint(ManifestOf(name));
    forall other | other in Databases(d) && Expired(d, keep, minAge, now, other)
      ensures name != other && name != ManifestOf(other) && ManifestOf(name) != other
              && ManifestOf(name) != ManifestOf(other)
    {
      ManifestPairs(other);
      NamesDisjoint(other);
      ManifestOfInjective(name, other);
    }
  }

  /** The databases whose names come after this one's. */
  ghost function Newer(d: Directory, name: string): set<string> {
    set other | other in d && d[other].File? && IsDatabaseName(other) && Precedes(name, other)
  }

  /** Rotation leaves exactly the pairs that fewer than `keep` newer databases follow, and those younger than
      the minimum age. */
  lemma RotationIsExact(d: Directory, keep: nat, minAge: int, now: int, name: string)
    requires Pair(d, name)
    ensures Pair(Rotated(d, keep, minAge, now), name) <==>
              |Newer(d, name)| < keep || (minAge > 0 && now - d[name].modified < minAge)
    ensures Pair(Rotated(d, keep, minAge, now), name) ==> SamePair(d, Rotated(d, keep, minAge, now), name)
  {
    NewerIsRank(d, name);
    hide HasPrefix, HasSuffix, Rank, IsDatabaseName, ManifestOf, Newer;
    if Expired(d, keep, minAge, now, name) {
      assert RemovedByRotation(d, keep, minAge, now, name);
    } else {
      RotationSparesPair(d, keep, minAge, now, name);
    }
  }

  lemma NewerIsRank(d: Directory, name: string)
    ensures |Newer(d, name)| == Rank(Databases(d), name)
  {
    hide IsDatabaseName;
    forall other
      ensures Less(name, other) <==> Precedes(name, other)
    {
      LessMeans(name, other);
    }
    hide Less, Precedes;
    assert Newer(d, name) == Greater(Databases(d), name);
  }

  // ---- Order and rank ----

  /** Names from the greatest down, each once. */
  predicate Descending(s: seq<string>) {
    forall i, j :: 0 <= i < j < |s| ==> Less(s[j], s[i])
  }

  lemma {:induction false} DescendingCount(s: seq<string>)
    requires Descending(s)
    ensures |set x | x in s| == |s|
  {
    if s == [] {
    } else {
      var n := |s| - 1;
      DescendingCount(s[..n]);
      assert s == s[..n] + [s[n]];
      if s[n] in s[..n] {
        var i :| 0 <= i < n && s[..n][i] == s[n];
        LessIrreflexive(s[n]);
      }
      assert (set x | x in s) == (set x | x in s[..n]) + {s[n]};
    }
  }

  /** In descending order, the position of a name is its rank. */
  lemma RankIsPosition(names: set<string>, s: seq<string>, i: int)
    requires Descending(s) && (forall x :: x in s <==> x in names) && 0 <= i < |s|
    ensures Rank(names, s[i]) == i
  {
    DescendingCount(s[..i]);
    forall m | m in names
      ensures Less(s[i], m) <==> m in s[..i]
    {
      var j :| 0 <= j < |s| && s[j] == m;
      if j < i {
        assert s[..i][j] == m;
      } else if Less(s[i], m) {
        LessIrreflexive(s[i]);
        if j > i {
          LessTransitive(s[i], s[j], s[i]);
        }
      }
      if m in s[..i] {
        var k :| 0 <= k < i && s[..i][k] == m;
        assert Less(s[i], s[k]);
      }
    }
    assert Greater(names, s[i]) == set x | x in s[..i];
  }

  /** sort.Slice by name, the greatest first. */
  method SortDescending(names: seq<string>) returns (sorted: seq<string>)
    requires forall i, j :: 0 <= i < j < |names| ==> names[i] != names[j]
    ensures Descending(sorted) && forall x :: x in sorted <==> x in names
  {
    sorted := [];
    for i := 0 to |names|
      invariant Descending(sorted)
      invariant forall x :: x in sorted <==> x in names[..i]
    {
      assert names[i] !in names[..i];
      assert names[..i + 1] == names[..i] + [names[i]];
      sorted := Insert(sorted, names[i]);
    }
    assert names[..|names|] == names;
  }

  method Insert(sorted: seq<string>, name: string) returns (r: seq<string>)
    requires Descending(sorted) && name !in sorted
    ensures Descending(r) && forall x :: x in r <==> x in sorted || x == name
  {
    var k := 0;
    while k < |sorted| && Less(name, sorted[k])
      invariant 0 <= k <= |sorted|
      invariant forall j :: 0 <= j < k ==> Less(name, sorted[j])
    {
      k := k + 1;
    }
    r := sorted[..k] + [name] + sorted[k..];
    if k < |sorted| {
      LessTotal(name, sorted[k]);
      forall j | k <= j < |sorted|
        ensures Less(sorted[j], name)
      {
        if j > k {
          LessTransitive(sorted[j], sorted[k], name);
        }
      }
    }
  }

  // ---- The directory in use ----

  /** How a call ended: refused, answered by an earlier backup, interrupted before or after the new pair was
      complete, or finished. */
  datatype Ending = Refused | Answered | Interrupted(published: bool) | Finished

  /** One backup call and the number of file operations before it is stopped. `earlier` is the file name of
      the backup that the journal already holds for the same request id and actor, if it holds one. */
  datatype Request = Request(
    base: string, data: string, earlier: Option<string>, keep: int, minAge: int, now: int, budget: nat)

  /** The number of backups to keep: 7 when none is given, at most 1000. */
  function Keep(requested: int): nat {
    if requested <= 0 then 7 else if requested > 1000 then 1000 else requested
  }

  /** backupForRequest: the journalled backup is published and answers the request. */
  predicate Answers(d: Directory, earlier: Option<string>) {
    earlier.Some? && Published(d, earlier.value)
  }

  /** Clean-up changes nothing about which backups are published. */
  lemma PublishedSurvivesCleanUp(d: Directory, name: string)
    ensures Published(CleanedUp(d), name) <==> Published(d, name)
  {
    CleanUpSafety(d);
    hide CleanedUp, IsDatabaseName, ManifestOf, Clean;
  }

  /** The directory a rotation starts from: cleaned up, the new pair complete. */
  function Complete(d: Directory, base: string, data: string, now: int): Directory {
    WithPair(CleanedUp(d), base, data, now)
  }

  class BackupDirectory {
    var entries: Directory
    /** File operations left before the process stops; every crash point is some budget. */
    var budget: nat

    constructor (entries: Directory, budget: nat)
      ensures this.entries == entries && this.budget == budget
    {
      this.entries, this.budget := entries, budget;
    }

    method Remove(name: string) returns (alive: bool)
      modifies this
      ensures alive <==> old(budget) > 0
      ensures entries == if alive then old(entries) - {name} else old(entries)
    {
      if budget == 0 {
        return false;
      }
      budget := budget - 1;
      entries := entries - {name};
      return true;
    }

    /** Writing a temporary file; stopped on the way, it leaves any part of it, and any side files. */
    method Write(name: string, entry: Entry) returns (alive: bool)
      modifies this
      ensures alive <==> old(budget) > 0
      ensures alive ==> entries == old(entries)[name := entry]
      ensures !alive ==> exists left :: Debris(left, name) && entries == old(entries) + left
    {
      if budget == 0 {
        var left: Directory := *;
        if !Debris(left, name) {
          left := map[];
        }
        entries := entries + left;
        return false;
      }
      budget := budget - 1;
      entries := entries[name := entry];
      return true;
    }

    method Rename(from: string, to: string) returns (alive: bool)
      requires from in entries
      modifies this
      ensures alive <==> old(budget) > 0
      ensures entries == if alive then (old(entries) - {from})[to := old(entries)[from]] else old(entries)
    {
      if budget == 0 {
        return false;
      }
      budget := budget - 1;
      entries := (entries - {from})[to := entries[from]];
      return true;
    }

    /** First sweep: temporary files. */
    method RemoveTemps() returns (alive: bool)
      modifies this
      ensures Between(old(entries), entries, SweepTemps(old(entries)))
      ensures alive ==> entries == SweepTemps(old(entries))
    {
      hide IsTempName;
      var listing := entries;
      var remaining := listing.Keys;
      while remaining != {}
        invariant remaining <= listing.Keys
        invariant Between(listing, entries, SweepTemps(listing))
        invariant forall name :: name in entries && name !in remaining ==> name in SweepTemps(listing)
        decreases |remaining|
      {
        var name :| name in remaining;
        remaining := remaining - {name};
        if listing[name].Folder? || !IsTempName(name) {
          continue;
        }
        alive := Remove(name);
        if !alive {
          return;
        }
      }
      assert entries == SweepTemps(listing);
      return true;
    }

    /** Second sweep: databases without a manifest. */
    method RemoveOrphanDatabases() returns (alive: bool)
      modifies this
      ensures Between(old(entries), entries, SweepDatabases(old(entries)))
      ensures alive ==> entries == SweepDatabases(old(entries))
    {
      hide IsDatabaseName, ManifestOf;
      var listing := entries;
      var remaining := listing.Keys;
      while remaining != {}
        invariant remaining <= listing.Keys
        invariant Between(listing, entries, SweepDatabases(listing))
        invariant forall name :: name in entries && name !in remaining ==> name in SweepDatabases(listing)
        decreases |remaining|
      {
        var name :| name in remaining;
        remaining := remaining - {name};
        if listing[name].Folder? || !IsDatabaseName(name) {
          continue;
        }
        ManifestIsNoDatabase(name);
        assert ManifestOf(name) in entries <==> ManifestOf(name) in listing;
        if ManifestOf(name) in entries {
          continue;
        }
        alive := Remove(name);
        if !alive {
          return;
        }
      }
      assert entries == SweepDatabases(listing);
      return true;
    }

    /** Third sweep: manifests without a database. */
    method RemoveOrphanManifests() returns (alive: bool)
      modifies this
      ensures Between(old(entries), entries, SweepManifests(old(entries)))
      ensures alive ==> entries == SweepManifests(old(entries))
    {
      hide IsManifestName, IsDatabaseName;
      var listing := entries;
      var remaining := listing.Keys;
      while remaining != {}
        invariant remaining <= listing.Keys
        invariant Between(listing, entries, SweepManifests(listing))
        invariant forall name :: name in entries && name !in remaining ==> name in SweepManifests(listing)
        decreases |remaining|
      {
        var name :| name in remaining;
        remaining := remaining - {name};
        if listing[name].Folder? || !IsManifestName(name) {
          continue;
        }
        DatabasePairs(name);
        DatabaseIsNoManifest(name);
        assert DatabaseOf(name) in entries <==> DatabaseOf(name) in listing;
        if DatabaseOf(name) in entries {
          continue;
        }
        alive := Remove(name);
        if !alive {
          return;
        }
      }
      assert entries == SweepManifests(listing);
      return true;
    }

    /** cleanupBackupTemps. However far it gets, no complete pair is touched; if it finishes, no debris is left. */
    method CleanUp() returns (alive: bool)
      modifies this
      ensures Between(old(entries), entries, CleanedUp(old(entries)))
      ensures alive ==> entries == CleanedUp(old(entries)) && Clean(entries)
      ensures forall name :: name in old(entries) && Pair(old(entries), name) ==> SamePair(old(entries), entries, name)
    {
      hide Pair, SamePair, IsDebrisTemp, IsOrphanDatabase, IsOrphanManifest;
      ghost var d := entries;
      CleanUpSafety(d);
      alive := RemoveTemps();
      if alive {
        alive := RemoveOrphanDatabases();
        if alive {
          alive := RemoveOrphanManifests();
        }
      }
      SweepsShrink(d);
      SweepsShrink(SweepTemps(d));
      SweepsShrink(SweepDatabases(SweepTemps(d)));
      forall name | name in d && Pair(d, name)
        ensures SamePair(d, entries, name)
      {
        BetweenKeepsPair(d, entries, CleanedUp(d), name);
      }
    }

    /** A file is first written under a temporary name, then renamed. */
    method WriteAndRename(base: string, temp: string, name: string, content: Content, now: int) returns (alive: bool)
      requires IsDatabaseName(base) && temp in {TempOf(base), ManifestTempOf(base)} && name in {base, ManifestOf(base)}
      modifies this
      ensures OnlyNewNames(old(entries), entries, base)
      ensures alive ==> entries == (old(entries) - {temp})[name := File(now, content)]
      ensures !alive ==> entries.Keys <= old(entries).Keys + Scratch(base)
    {
      hide TempOf, ManifestTempOf, ManifestOf, IsDatabaseName, OnlyNewNames;
      ghost var d := entries;
      NothingNew(d, base);
      alive := Write(temp, File(now, content));
      if !alive {
        ghost var left :| Debris(left, temp) && entries == d + left;
        DebrisLeft(d, base, temp, left);
        return;
      }
      NewNameWritten(d, d, base, temp, File(now, content));
      ghost var d1 := entries;
      alive := Rename(temp, name);
      if !alive { return; }
      NewNameRemoved(d, d1, base, temp);
      NewNameWritten(d, d1 - {temp}, base, name, File(now, content));
      assert d1 - {temp} == d - {temp};
    }

    /** Writing and publishing one backup: the image, then its manifest. */
    method Publish(base: string, data: string, now: int) returns (alive: bool)
      requires IsDatabaseName(base)
      modifies this
      ensures OnlyNewNames(old(entries), entries, base)
      ensures alive ==> entries == WithPair(old(entries), base, data, now)
      ensures !alive && ManifestOf(base) !in old(entries) ==> ManifestOf(base) !in entries
    {
      NamesApart(base);
      TempsAreTemps(base, base);
      hide TempOf, ManifestTempOf, ManifestOf, IsDatabaseName, OnlyNewNames, Scratch, HasPrefix, IsTempName;
      ghost var d := entries;
      NothingNew(d, base);
      alive := Remove(TempOf(base));
      if !alive { return; }
      NewNameRemoved(d, d, base, TempOf(base));
      ghost var d1 := entries;
      alive := WriteAndRename(base, TempOf(base), base, Image(data), now);
      NewNamesChain(d, d1, entries, base);
      if !alive { return; }
      ghost var d2 := entries;
      alive := WriteAndRename(base, ManifestTempOf(base), ManifestOf(base), ManifestText(base, data), now);
      NewNamesChain(d, d2, entries, base);
      if !alive { return; }
      TwoRenames(d, base, data, now);
    }

    /** rotateBackupsWithAge: list, sort, delete from position `keep` on, unless too young. */
    method Rotate(keep: nat, minAge: int, now: int) returns (alive: bool)
      modifies this
      ensures Between(old(entries), entries, Rotated(old(entries), keep, minAge, now))
      ensures alive ==> entries == Rotated(old(entries), keep, minAge, now)
    {
      hide IsDatabaseName, ManifestOf, Rank, Young, Databases, Expired, RemovedByRotation;
      var listing := entries;
      var items := ListDatabases();
      var sorted := SortDescending(items);
      ghost var names := Databases(listing);
      RotatedShrinks(listing, keep, minAge, now);
      var i := keep;
      while i < |sorted|
        invariant keep <= i && entries.Keys <= listing.Keys
        invariant Between(listing, entries, Rotated(listing, keep, minAge, now))
        invariant forall j :: keep <= j < i && j < |sorted| && Expired(listing, keep, minAge, now, sorted[j]) ==>
                    sorted[j] !in entries && ManifestOf(sorted[j]) !in entries
      {
        var name := sorted[i];
        assert name in items;
        assert name in names;
        RankIsPosition(names, sorted, i);
        i := i + 1;
        DatabasesAreEntries(listing, name);
        if Young(listing[name], minAge, now) {
          YoungStays(listing, keep, minAge, now, name);
          continue;
        }
        ExpiredGoes(listing, keep, minAge, now, name);
        alive := Remove(name);
        if !alive {
          return;
        }
        alive := Remove(ManifestOf(name));
        if !alive {
          return;
        }
      }
      forall name | name in names && Expired(listing, keep, minAge, now, name)
        ensures name !in entries && ManifestOf(name) !in entries
      {
        assert name in items;
        var j :| 0 <= j < |sorted| && sorted[j] == name;
        RankIsPosition(names, sorted, j);
        ExpiredIsOld(listing, keep, minAge, now, name);
      }
      RotationDone(listing, entries, keep, minAge, now);
      return true;
    }

    /** BackupWithRetention. A request whose earlier backup is still published creates nothing. Whatever stops
        the call, and wherever: until the new pair is complete no complete pair is lost; after that, only pairs
        that the rotation counts as expired, and it counts complete pairs only; at least `keep` pairs, or
        all there were, remain; a call that finishes leaves exactly the rotated directory; the backup just made is
        still there if its name comes last; and if every
        pair was valid and the new name is unused, every pair is valid: nothing incomplete is exposed. */
    method Backup(base: string, data: string, earlier: Option<string>, keep: int, minAge: int, now: int)
      returns (r: Ending)
      requires IsDatabaseName(base)
      modifies this
      ensures r.Refused? <==> minAge < 0
      ensures r.Refused? ==> entries == old(entries)
      ensures r.Answered? ==> Answers(old(entries), earlier) && entries == CleanedUp(old(entries))
      ensures r.Finished? || r == Interrupted(true) ==> !Answers(old(entries), earlier)
      ensures r.Interrupted? && !r.published ==>
                forall name :: Pair(old(entries), name) ==>
                    Pair(entries, name) && (name != base ==> SamePair(old(entries), entries, name))
      ensures forall name ::
                && Pair(old(entries), name)
                && !Expired(Complete(old(entries), base, data, now), Keep(keep), minAge, now, name) ==>
                Pair(entries, name) && (name != base ==> SamePair(old(entries), entries, name))
      ensures forall name :: name in Databases(Complete(old(entries), base, data, now)) ==>
              Pair(Complete(old(entries), base, data, now), name)
      ensures |Pairs(entries)| >= Min(Keep(keep), |Pairs(old(entries))|)
      ensures entries.Keys <= old(entries).Keys + NewNames(base)
      ensures AllPublished(old(entries)) && Unused(old(entries), base) ==> AllPublished(entries)
      ensures (r.Finished? || r == Interrupted(true)) && Last(old(entries), base) ==>
                && Pair(entries, base) && entries[base] == File(now, Image(data))
                && entries[ManifestOf(base)] == File(now, ManifestText(base, data))
      ensures r.Finished? ==>
                var kept := if keep <= 0 then 7 else if keep > 1000 then 1000 else keep;
                entries == Rotated(Complete(old(entries), base, data, now), kept, minAge, now)
    {
      hide Pair, SamePair, IsDatabaseName, OnlyNewNames, Expired, Between, Rotated, WithPair, CleanedUp, Clean,
           Databases, Published, AllPublished, Unused, NewNames, Without, Last;
      ghost var d := entries;
      ghost var c := CleanedUp(d);
      ghost var p := Complete(d, base, data, now);
      CleanUpSafety(d);
      CompleteCounts(d, base, data, now);
      NothingLost(d, base);
      if minAge < 0 {
        FloorOfKept(d, entries, base, Keep(keep));
        return Refused;
      }
      var alive := CleanUp();
      AllKept(d, entries, base);
      BetweenIsWithout(d, entries, c);
      WithoutKeepsValid(d, entries, base);
      if !alive {
        FloorOfKept(d, entries, base, Keep(keep));
        return Interrupted(false);
      }
      if earlier.Some? {
        PublishedSurvivesCleanUp(d, earlier.value);
        if Published(entries, earlier.value) {
          FloorOfKept(d, entries, base, Keep(keep));
          return Answered;
        }
      }
      alive := Publish(base, data, now);
      PublishKeepsAll(d, c, entries, base);
      OnlyNewKeys(d, c, entries, base);
      StoppedPublishIsValid(c, entries, base);
      CompleteIsValid(c, base, data, now);
      if !alive {
        FloorOfKept(d, entries, base, Keep(keep));
        return Interrupted(false);
      }
      alive := Rotate(Keep(keep), minAge, now);
      BetweenIsWithout(p, entries, Rotated(p, Keep(keep), minAge, now));
      if Last(d, base) {
        LastSurvives(d, entries, base, data, Keep(keep), minAge, now);
      }
      WithoutKeepsValid(p, entries, base);
      RotationKeeps(d, p, entries, base, Keep(keep), minAge, now);
      FloorOfRotation(d, p, entries, Keep(keep), minAge, now);
      return if alive then Finished else Interrupted(true);
    }

    /** Any sequence of calls, each of them stopped anywhere or nowhere, leaves at least as many complete
        pairs as the smallest number the calls were told to keep, or as there were. If all of them were valid
        at first and no name comes twice, all of them are valid ever after. */
    method Serve(requests: seq<Request>, ghost floor: nat)
      requires forall i :: 0 <= i < |requests| ==> IsDatabaseName(requests[i].base) && Keep(requests[i].keep) >= floor
      modifies this
      ensures |Pairs(entries)| >= Min(floor, |Pairs(old(entries))|)
      ensures AllPublished(old(entries)) && NewRequests(old(entries), requests, 0) ==>
                AllPublished(entries) && |Valid(entries)| >= Min(floor, |Valid(old(entries))|)
    {
      hide Pairs, IsDatabaseName, Keep, AllPublished, NewRequests, Valid;
      for i := 0 to |requests|
        invariant |Pairs(entries)| >= Min(floor, |Pairs(old(entries))|)
        invariant AllPublished(old(entries)) && NewRequests(old(entries), requests, 0) ==>
                    AllPublished(entries) && NewRequests(entries, requests, i)
      {
        var q := requests[i];
        budget := q.budget;
        ghost var d := entries;
        var ending := Backup(q.base, q.data, q.earlier, q.keep, q.minAge, q.now);
        if NewRequests(d, requests, i) {
          StillNew(d, entries, requests, i);
        }
      }
      ValidArePairs(entries);
      ValidArePairs(old(entries));
    }

    /** The names rotation counts, in directory order. */
    method ListDatabases() returns (items: seq<string>)
      ensures forall i, j :: 0 <= i < j < |items| ==> items[i] != items[j]
      ensures forall x :: x in items <==> x in Databases(entries)
    {
      hide IsDatabaseName;
      items := [];
      var remaining := entries.Keys;
      while remaining != {}
        invariant remaining <= entries.Keys
        invariant forall i, j :: 0 <= i < j < |items| ==> items[i] != items[j]
        invariant forall x :: x in items <==> x in Databases(entries) && x !in remaining
        decreases |remaining|
      {
        var name :| name in remaining;
        remaining := remaining - {name};
        if entries[name].Folder? || !IsDatabaseName(name) {
          continue;
        }
        items := items + [name];
      }
    }
  }

  lemma DatabasesAreEntries(d: Directory, name: string)
    ensures name in Databases(d) ==> name in d
  {
  }

  lemma ExpiredIsOld(d: Directory, keep: nat, minAge: int, now: int, name: string)
    ensures Expired(d, keep, minAge, now, name) ==> Rank(Databases(d), name) >= keep
  {
    hide Databases, Rank;
  }

  lemma YoungStays(d: Directory, keep: nat, minAge: int, now: int, name: string)
    requires name in d && Young(d[name], minAge, now)
    ensures !Expired(d, keep, minAge, now, name)
  {
    hide Databases, Rank, Young;
  }

  lemma ExpiredGoes(d: Directory, keep: nat, minAge: int, now: int, name: string)
    requires name in Databases(d) && Rank(Databases(d), name) >= keep && name in d && !Young(d[name], minAge, now)
    ensures Expired(d, keep, minAge, now, name)
    ensures RemovedByRotation(d, keep, minAge, now, name) && RemovedByRotation(d, keep, minAge, now, ManifestOf(name))
  {
    hide Databases, Rank, Young, ManifestOf;
  }

  lemma RotationDone(d: Directory, d': Directory, keep: nat, minAge: int, now: int)
    requires Between(d, d', Rotated(d, keep, minAge, now))
    requires forall name :: name in Databases(d) && Expired(d, keep, minAge, now, name) ==>
             name !in d' && ManifestOf(name) !in d'
    ensures d' == Rotated(d, keep, minAge, now)
  {
    hide Databases, Expired, ManifestOf;
    forall entry | entry in d'
      ensures entry in Rotated(d, keep, minAge, now)
    {
    }
  }

  lemma RotatedShrinks(d: Directory, keep: nat, minAge: int, now: int)
    ensures Without(d, Rotated(d, keep, minAge, now))
  {
    hide RemovedByRotation;
  }

  /** The four names of one backup are different. */
  lemma NamesApart(base: string)
    requires IsDatabaseName(base)
    ensures base != TempOf(base) && base != ManifestTempOf(base) && base != ManifestOf(base)
    ensures TempOf(base) != ManifestTempOf(base) && TempOf(base) != ManifestOf(base)
            && ManifestTempOf(base) != ManifestOf(base)
  {
    assert |TempOf(base)| == |base| + 4 && |ManifestOf(base)| == |base| + 14 && |ManifestTempOf(base)| == |base| + 18;
  }

  // ---- Publishing ----

  function TempOf(base: string): string { base + ".tmp" }

  function ManifestTempOf(base: string): string { ManifestOf(base) + ".tmp" }

  /** The files SQLite may keep beside a database it is writing. */
  function ScratchOf(temp: string): set<string> {
    {temp, temp + "-wal", temp + "-shm", temp + "-journal"}
  }

  function Scratch(base: string): set<string> { ScratchOf(TempOf(base)) + ScratchOf(ManifestTempOf(base)) }

  /** What a write that was stopped may leave. */
  predicate Debris(left: Directory, temp: string) {
    left.Keys <= ScratchOf(temp) && forall name :: name in left ==> left[name].File?
  }

  /** The directory after a pair was published. */
  function WithPair(d: Directory, base: string, data: string, now: int): Directory {
    (d - {TempOf(base), ManifestTempOf(base)})
      [base := File(now, Image(data))][ManifestOf(base) := File(now, ManifestText(base, data))]
  }

  /** Only the names of the new backup differ; of them, the two published names are never removed. */
  ghost predicate OnlyNewNames(d: Directory, d': Directory, base: string) {
    && (forall name :: name !in Scratch(base) && name != base && name != ManifestOf(base) ==>
          (name in d <==> name in d') && (name in d ==> d[name] == d'[name]))
    && (IsFile(d, base) ==> IsFile(d', base))
    && (ManifestOf(base) in d ==> ManifestOf(base) in d')
  }

  lemma NothingNew(d: Directory, base: string)
    ensures OnlyNewNames(d, d, base)
  {
  }

  lemma TwoRenames(d: Directory, base: string, data: string, now: int)
    requires IsDatabaseName(base)
    ensures var d1 := (d - {TempOf(base)} - {TempOf(base)})[base := File(now, Image(data))];
            (d1 - {ManifestTempOf(base)})[ManifestOf(base) := File(now, ManifestText(base, data))]
                == WithPair(d, base, data, now)
  {
    NamesApart(base);
    hide TempOf, ManifestTempOf, ManifestOf, IsDatabaseName;
  }

  lemma NewNamesChain(d: Directory, d1: Directory, d2: Directory, base: string)
    requires OnlyNewNames(d, d1, base) && OnlyNewNames(d1, d2, base)
    ensures OnlyNewNames(d, d2, base)
  {
    hide TempOf, ManifestTempOf, ManifestOf;
  }

  lemma NewNameRemoved(d: Directory, d': Directory, base: string, name: string)
    requires OnlyNewNames(d, d', base) && name in {TempOf(base), ManifestTempOf(base)} && IsDatabaseName(base)
    ensures OnlyNewNames(d, d' - {name}, base)
  {
    NamesApart(base);
    hide TempOf, ManifestTempOf, ManifestOf, IsDatabaseName;
  }

  lemma NewNameWritten(d: Directory, d': Directory, base: string, name: string, entry: Entry)
    requires OnlyNewNames(d, d', base) && name in {TempOf(base), ManifestTempOf(base), base, ManifestOf(base)}
             && entry.File?
    ensures OnlyNewNames(d, d'[name := entry], base)
  {
    hide TempOf, ManifestTempOf, ManifestOf;
  }

  lemma DebrisLeft(d: Directory, base: string, temp: string, left: Directory)
    requires temp in {TempOf(base), ManifestTempOf(base)} && Debris(left, temp)
    ensures OnlyNewNames(d, d + left, base)
  {
    hide TempOf, ManifestTempOf, ManifestOf, ScratchOf;
  }

  /** Whatever a stopped write leaves, clean-up takes for a temporary file. */
  lemma ScratchIsTemp(stem: string, n: string)
    requires HasPrefix(stem, PREFIX) && n in ScratchOf(stem + ".tmp")
    ensures IsTempName(n)
  {
    var t := stem + ".tmp";
    assert n[..|PREFIX|] == stem[..|PREFIX|];
    if n == t {
      assert n[|stem|..] == ".tmp";
    } else if n == t + "-wal" {
      assert n[|stem|..] == ".tmp-wal";
    } else if n == t + "-shm" {
      assert n[|stem|..] == ".tmp-shm";
    } else {
      assert n[|stem|..] == ".tmp-journal";
    }
  }

  lemma TempsAreTemps(base: string, name: string)
    requires HasPrefix(base, PREFIX)
    ensures forall n :: n in Scratch(base) ==> IsTempName(n)
    ensures TempOf(base) in Scratch(base) && ManifestTempOf(base) in Scratch(base)
    ensures IsDatabaseName(name) ==> name !in Scratch(base) && ManifestOf(name) !in Scratch(base)
  {
    forall n | n in Scratch(base)
      ensures IsTempName(n)
    {
      if n in ScratchOf(TempOf(base)) {
        ScratchIsTemp(base, n);
      } else {
        assert ManifestOf(base)[..|PREFIX|] == base[..|PREFIX|];
        ScratchIsTemp(ManifestOf(base), n);
      }
    }
    hide IsTempName, HasSuffix, ScratchOf;
    if IsDatabaseName(name) {
      ManifestPairs(name);
      NamesDisjoint(name);
      NamesDisjoint(ManifestOf(name));
    }
  }

  /** Publishing disturbs no other pair. */
  lemma PublishingKeepsPair(d: Directory, d': Directory, base: string, name: string)
    requires IsDatabaseName(base) && OnlyNewNames(d, d', base) && Pair(d, name)
    ensures Pair(d', name) && (name != base ==> SamePair(d, d', name))
  {
    hide HasSuffix, IsTempSuffixed;
    TempsAreTemps(base, name);
    ManifestPairs(name);
    NamesDisjoint(name);
    NamesDisjoint(base);
    NamesDisjoint(ManifestOf(name));
    ManifestPairs(base);
    NamesDisjoint(ManifestOf(base));
    ManifestOfInjective(name, base);
    hide IsTempName, IsDatabaseName, IsManifestName, ManifestOf, TempOf, ManifestTempOf;
  }

  lemma PublishedIsPublished(d: Directory, base: string, data: string, now: int)
    requires IsDatabaseName(base)
    ensures Pair(WithPair(d, base, data, now), base)
    ensures Published(WithPair(d, base, data, now), base) <==> IsArtifactName(base)
    ensures OnlyNewNames(d, WithPair(d, base, data, now), base)
  {
    hide HasSuffix, IsTempSuffixed, HasPrefix;
    ManifestPairs(base);
    NamesDisjoint(base);
    NamesDisjoint(ManifestOf(base));
    hide IsTempName, IsManifestName, TempOf, ManifestTempOf;
    assert base != ManifestOf(base);
  }

  /** After clean-up and publishing, every database counted by the rotation is a complete pair. */
  lemma RankedArePairs(d: Directory, base: string, data: string, now: int)
    requires Clean(d) && IsDatabaseName(base)
    ensures var p := WithPair(d, base, data, now);
            forall name :: name in Databases(p) ==> Pair(p, name)
  {
    var p := WithPair(d, base, data, now);
    forall name | name in Databases(p)
      ensures Pair(p, name)
    {
      PublishedIsPublished(d, base, data, now);
      if name != base {
        hide HasSuffix, IsTempSuffixed;
        TempsAreTemps(base, name);
        ManifestPairs(name);
        NamesDisjoint(name);
        ManifestPairs(base);
        NamesDisjoint(ManifestOf(base));
        NamesDisjoint(base);
        hide IsTempName, IsDatabaseName, IsManifestName, ManifestOf, TempOf, ManifestTempOf, HasPrefix;
        assert name in d && !IsOrphanDatabase(d, name);
      }
    }
  }

  // ---- Counting ----

  /** A set of names in descending order. */
  lemma {:induction false} InDescendingOrder(names: set<string>) returns (s: seq<string>)
    ensures Descending(s) && forall x :: x in s <==> x in names
    decreases |names|
  {
    s := [];
    if names != {} {
      var m := Greatest(names);
      var rest := InDescendingOrder(names - {m});
      s := [m] + rest;
      forall x | x in rest
        ensures Less(x, m)
      {
        LessTotal(x, m);
      }
    }
  }

  lemma {:induction false} Greatest(names: set<string>) returns (m: string)
    requires names != {}
    ensures m in names && forall x :: x in names ==> !Less(m, x)
    decreases |names|
  {
    m :| m in names;
    LessIrreflexive(m);
    if names - {m} != {} {
      var other := Greatest(names - {m});
      if Less(m, other) {
        forall x | x in names
          ensures !Less(other, x)
        {
          if x == m && Less(other, m) {
            LessTransitive(m, other, m);
          }
        }
        m := other;
      } else {
        LessTotal(m, other);
        forall x | x in names
          ensures !Less(m, x)
        {
          if Less(m, x) {
            LessTransitive(other, m, x);
          }
        }
      }
    }
  }

  function Min(a: nat, b: nat): nat { if a < b then a else b }

  lemma SubsetSize(a: set<string>, b: set<string>)
    requires a <= b
    ensures |a| <= |b|
  {
    assert b == a + (b - a);
  }

  /** The `keep` greatest of a set of names number `keep`, or all of them if they are fewer. */
  lemma GreatestCount(names: set<string>, keep: nat)
    ensures |set n | n in names && Rank(names, n) < keep| == Min(keep, |names|)
  {
    hide Rank;
    var s := InDescendingOrder(names);
    DescendingCount(s);
    assert (set x | x in s) == names;
    var k := Min(keep, |names|);
    DescendingCount(s[..k]);
    forall n | n in names
      ensures Rank(names, n) < keep <==> n in s[..k]
    {
      var i :| 0 <= i < |s| && s[i] == n;
      RankIsPosition(names, s, i);
      if i < k {
        assert s[..k][i] == n;
      }
      if n in s[..k] {
        var j :| 0 <= j < k && s[..k][j] == n;
        RankIsPosition(names, s, j);
      }
    }
    assert (set n | n in names && Rank(names, n) < keep) == set x | x in s[..k];
  }

  // ---- What a call keeps ----

  /** Every pair is still there, and untouched unless it is the new backup's own name. */
  ghost predicate KeepsAll(d: Directory, d': Directory, base: string) {
    forall name :: Pair(d, name) ==> Pair(d', name) && (name != base ==> SamePair(d, d', name))
  }

  lemma NothingLost(d: Directory, base: string)
    ensures KeepsAll(d, d, base)
  {
  }

  lemma AllKept(d: Directory, d': Directory, base: string)
    requires forall name :: name in d && Pair(d, name) ==> SamePair(d, d', name)
    ensures KeepsAll(d, d', base)
  {
    hide IsDatabaseName, ManifestOf;
  }

  lemma PublishKeepsAll(d: Directory, c: Directory, d': Directory, base: string)
    requires IsDatabaseName(base) && OnlyNewNames(c, d', base)
    requires forall name :: name in d && Pair(d, name) ==> SamePair(d, c, name)
    ensures KeepsAll(d, d', base)
  {
    hide OnlyNewNames, IsDatabaseName, ManifestOf;
    forall name | Pair(d, name)
      ensures Pair(d', name) && (name != base ==> SamePair(d, d', name))
    {
      PublishingKeepsPair(c, d', base, name);
    }
  }

  lemma CompleteCounts(d: Directory, base: string, data: string, now: int)
    requires IsDatabaseName(base)
    ensures forall name :: name in Databases(Complete(d, base, data, now)) ==> Pair(Complete(d, base, data, now), name)
    ensures OnlyNewNames(CleanedUp(d), Complete(d, base, data, now), base)
  {
    hide IsDatabaseName, OnlyNewNames, WithPair, CleanedUp, Clean, Pair, Databases;
    CleanUpSafety(d);
    RankedArePairs(CleanedUp(d), base, data, now);
    PublishedIsPublished(CleanedUp(d), base, data, now);
  }

  /** However far the rotation gets, what is not expired stays. */
  lemma RotationKeeps(d: Directory, p: Directory, d': Directory, base: string, keep: nat, minAge: int, now: int)
    requires KeepsAll(d, p, base) && Between(p, d', Rotated(p, keep, minAge, now))
    ensures forall name :: Pair(d, name) && !Expired(p, keep, minAge, now, name) ==>
              Pair(d', name) && (name != base ==> SamePair(d, d', name))
    ensures forall name :: Pair(p, name) && !Expired(p, keep, minAge, now, name) ==> Pair(d', name)
  {
    hide Expired, Between, Rotated, IsDatabaseName, ManifestOf;
    forall name | Pair(p, name) && !Expired(p, keep, minAge, now, name)
      ensures SamePair(p, d', name)
    {
      RotationSparesPair(p, keep, minAge, now, name);
      BetweenKeepsPair(p, d', Rotated(p, keep, minAge, now), name);
    }
  }

  lemma FloorOfKept(d: Directory, d': Directory, base: string, keep: nat)
    requires KeepsAll(d, d', base)
    ensures |Pairs(d')| >= Min(keep, |Pairs(d)|)
  {
    hide IsDatabaseName, ManifestOf;
    SubsetSize(Pairs(d), Pairs(d'));
  }

  lemma FloorOfRotation(d: Directory, p: Directory, d': Directory, keep: nat, minAge: int, now: int)
    requires forall name :: Pair(d, name) ==> Pair(p, name)
    requires forall name :: name in Databases(p) ==> Pair(p, name)
    requires forall name :: Pair(p, name) && !Expired(p, keep, minAge, now, name) ==> Pair(d', name)
    ensures |Pairs(d')| >= Min(keep, |Pairs(d)|)
  {
    hide IsDatabaseName, ManifestOf, Rank, Young;
    var names := Databases(p);
    var kept := set n | n in names && Rank(names, n) < keep;
    GreatestCount(names, keep);
    SubsetSize(kept, Pairs(d'));
    SubsetSize(Pairs(d), names);
  }

  lemma SweepsShrink(d: Directory)
    ensures Without(d, SweepTemps(d)) && Without(d, SweepDatabases(d)) && Without(d, SweepManifests(d))
  {
    hide IsDebrisTemp, IsOrphanDatabase, IsOrphanManifest;
  }

  lemma ManifestIsNoDatabase(name: string)
    ensures IsDatabaseName(name) ==> !IsDatabaseName(ManifestOf(name))
  {
    if IsDatabaseName(name) {
      ManifestPairs(name);
      NamesDisjoint(ManifestOf(name));
    }
  }

  lemma DatabaseIsNoManifest(name: string)
    requires IsManifestName(name)
    ensures |name| >= |MANIFEST_SUFFIX| && !IsManifestName(DatabaseOf(name))
  {
    DatabasePairs(name);
    NamesDisjoint(DatabaseOf(name));
  }

  // ---- What may be exposed ----

  /** Every complete pair is one that artifact validation accepts. */
  ghost predicate AllPublished(d: Directory) { forall name :: Pair(d, name) ==> Published(d, name) }

  function Valid(d: Directory): set<string> { set name | name in d && Published(d, name) }

  function NewNames(base: string): set<string> { Scratch(base) + {base, ManifestOf(base)} }

  predicate Unused(d: Directory, base: string) {
    IsArtifactName(base) && base !in d && ManifestOf(base) !in d
  }

  lemma ValidArePairs(d: Directory)
    ensures AllPublished(d) ==> Valid(d) == Pairs(d)
  {
    hide IsDatabaseName, ManifestOf, IsArtifactName;
  }

  lemma BetweenIsWithout(d: Directory, mid: Directory, end: Directory)
    requires Between(d, mid, end)
    ensures Without(d, mid)
  {
  }

  lemma WithoutKeepsValid(d: Directory, d': Directory, base: string)
    requires Without(d, d')
    ensures d'.Keys <= d.Keys
    ensures AllPublished(d) ==> AllPublished(d')
    ensures Unused(d, base) ==> Unused(d', base) && IsArtifactName(base) && ManifestOf(base) !in d'
  {
    hide IsDatabaseName, ManifestOf, IsArtifactName;
    if AllPublished(d) {
      forall name | Pair(d', name)
        ensures Published(d', name)
      {
        assert Pair(d, name);
        assert Published(d, name);
      }
    }
  }

  lemma OnlyNewKeys(d: Directory, c: Directory, d': Directory, base: string)
    requires OnlyNewNames(c, d', base) && c.Keys <= d.Keys
    ensures d'.Keys <= d.Keys + NewNames(base)
  {
    hide Scratch, ManifestOf;
  }

  /** A publish that was stopped before its last step exposes nothing. */
  lemma StoppedPublishIsValid(c: Directory, d': Directory, base: string)
    requires IsDatabaseName(base) && OnlyNewNames(c, d', base)
    ensures AllPublished(c) && ManifestOf(base) !in d' ==> AllPublished(d')
  {
    if AllPublished(c) && ManifestOf(base) !in d' {
      forall name | Pair(d', name)
        ensures Published(d', name)
      {
        OtherPairSame(c, d', base, name);
        hide IsArtifactName, IsDatabaseName, ManifestOf, OnlyNewNames;
      }
    }
  }

  /** A pair under another name is what it was. */
  lemma OtherPairSame(c: Directory, d': Directory, base: string, name: string)
    requires IsDatabaseName(base) && OnlyNewNames(c, d', base) && Pair(d', name) && name != base
    ensures Pair(c, name) && SamePair(c, d', name)
  {
    hide HasSuffix, IsTempSuffixed;
    TempsAreTemps(base, name);
    ManifestPairs(name);
    ManifestPairs(base);
    NamesDisjoint(name);
    NamesDisjoint(base);
    NamesDisjoint(ManifestOf(name));
    NamesDisjoint(ManifestOf(base));
    ManifestOfInjective(name, base);
    hide IsTempName, IsDatabaseName, IsManifestName, ManifestOf, Scratch, HasPrefix;
  }

  lemma CompleteIsValid(c: Directory, base: string, data: string, now: int)
    requires IsDatabaseName(base)
    ensures AllPublished(c) && IsArtifactName(base) ==> AllPublished(WithPair(c, base, data, now))
  {
    if AllPublished(c) && IsArtifactName(base) {
      var p := WithPair(c, base, data, now);
      PublishedIsPublished(c, base, data, now);
      forall name | Pair(p, name)
        ensures Published(p, name)
      {
        if name != base {
          OtherPairSame(c, p, base, name);
        }
        hide IsArtifactName, IsDatabaseName, ManifestOf, OnlyNewNames;
      }
    }
  }

  /** The requests still to come bring names that are unused, each its own. */
  ghost predicate NewRequests(d: Directory, requests: seq<Request>, from: nat) {
    && (forall i :: from <= i < |requests| ==> IsDatabaseName(requests[i].base) && Unused(d, requests[i].base))
    && (forall i, j :: from <= i < j < |requests| ==> requests[i].base != requests[j].base)
  }

  lemma StillNew(d: Directory, d': Directory, requests: seq<Request>, i: nat)
    requires i < |requests| && NewRequests(d, requests, i) && d'.Keys <= d.Keys + NewNames(requests[i].base)
    ensures Unused(d, requests[i].base) && NewRequests(d', requests, i + 1)
  {
    hide IsArtifactName, IsDatabaseName, ManifestOf, NewNames;
    forall j | i + 1 <= j < |requests|
      ensures IsDatabaseName(requests[j].base) && Unused(d', requests[j].base)
    {
      assert requests[i].base != requests[j].base && Unused(d, requests[j].base);
      OtherNamesApart(requests[i].base, requests[j].base);
    }
  }

  lemma OtherNamesApart(base: string, other: string)
    requires IsDatabaseName(base) && IsDatabaseName(other) && base != other
    ensures other !in NewNames(base) && ManifestOf(other) !in NewNames(base)
  {
    hide HasSuffix, IsTempSuffixed;
    TempsAreTemps(base, other);
    ManifestPairs(other);
    ManifestPairs(base);
    NamesDisjoint(other);
    NamesDisjoint(base);
    NamesDisjoint(ManifestOf(other));
    NamesDisjoint(ManifestOf(base));
    ManifestOfInjective(other, base);
    hide IsTempName, IsDatabaseName, IsManifestName, ManifestOf, Scratch, HasPrefix;
  }

  // ---- The backup just made ----

  /** Every other database in the directory comes before this one. */
  ghost predicate Last(d: Directory, base: string) {
    forall name :: name in d && IsDatabaseName(name) && name != base ==> Precedes(name, base)
  }

  /** However far the rotation gets, the new pair is there and whole if its name comes last. */
  lemma LastSurvives(d: Directory, d': Directory, base: string, data: string, keep: nat, minAge: int, now: int)
    requires IsDatabaseName(base) && keep >= 1 && Last(d, base)
    requires var p := Complete(d, base, data, now); Between(p, d', Rotated(p, keep, minAge, now))
    ensures Pair(d', base) && d'[base] == File(now, Image(data))
    ensures d'[ManifestOf(base)] == File(now, ManifestText(base, data))
  {
    var p := Complete(d, base, data, now);
    NothingNewer(d, base, data, now);
    CompleteHolds(d, base, data, now);
    hide IsDatabaseName, ManifestOf, Complete, Rotated, Last, Newer;
    RotationIsExact(p, keep, minAge, now, base);
    BetweenKeepsPair(p, d', Rotated(p, keep, minAge, now), base);
  }

  lemma CompleteHolds(d: Directory, base: string, data: string, now: int)
    requires IsDatabaseName(base)
    ensures var p := Complete(d, base, data, now);
            && Pair(p, base) && p[base] == File(now, Image(data))
            && p[ManifestOf(base)] == File(now, ManifestText(base, data))
  {
    NamesApart(base);
    PublishedIsPublished(CleanedUp(d), base, data, now);
    hide CleanedUp, IsDatabaseName, ManifestOf, Pair;
  }

  lemma NothingNewer(d: Directory, base: string, data: string, now: int)
    requires IsDatabaseName(base) && Last(d, base)
    ensures Newer(Complete(d, base, data, now), base) == {}
  {
    var p := Complete(d, base, data, now);
    forall other | other in p && IsDatabaseName(other)
      ensures !Precedes(base, other)
    {
      LessMeans(base, other);
      if other == base {
        LessIrreflexive(base);
      } else {
        CompleteNames(d, base, data, now, other);
        LessMeans(other, base);
        if Less(base, other) {
          LessTransitive(base, other, base);
          LessIrreflexive(base);
        }
      }
    }
    hide Precedes, Complete, Last;
  }

  lemma CompleteNames(d: Directory, base: string, data: string, now: int, other: string)
    requires IsDatabaseName(base) && IsDatabaseName(other) && other != base && other in Complete(d, base, data, now)
    ensures other in d
  {
    CleanUpSafety(d);
    ManifestPairs(base);
    NamesDisjoint(ManifestOf(base));
    hide CleanedUp, Clean, Pair, SamePair, HasSuffix, HasPrefix, IsTempSuffixed;
  }

  // ---- Names from the clock ----

  function Pow10(w: nat): nat { if w == 0 then 1 else 10 * Pow10(w - 1) }

  /** A number in w digits. */
  function Padded(n: nat, w: nat): (s: string)
    ensures |s| == w
  {
    if w == 0 then "" else Padded(n / 10, w - 1) + [Numeral(n)]
  }

  /** The time of a backup: year, month and day as one number, then hour, minute and second, then nanoseconds. */
  datatype Clock = Clock(date: nat, time: nat, nanos: nat)

  predicate ClockOk(c: Clock) { c.date < Pow10(8) && c.time < Pow10(6) && c.nanos < Pow10(9) }

  predicate Earlier(a: Clock, b: Clock) {
    || a.date < b.date || (a.date == b.date && a.time < b.time)
    || (a.date == b.date && a.time == b.time && a.nanos < b.nanos)
  }

  /** The stamp in a backup's name. */
  function Stamp(c: Clock): string {
    Padded(c.date, 8) + ("T" + (Padded(c.time, 6) + ("." + (Padded(c.nanos, 9) + "Z"))))
  }

  lemma PrecedesInFront(a: string, b: string, x: string, y: string)
    requires |a| == |b| && Precedes(a, b)
    ensures Precedes(a + x, b + y)
  {
    var i :| 0 <= i < |a| && i < |b| && a[..i] == b[..i] && a[i] < b[i];
    assert (a + x)[..i] == a[..i] && (b + y)[..i] == b[..i];
    assert (a + x)[i] < (b + y)[i];
  }

  lemma PrecedesBehind(p: string, a: string, b: string)
    requires Precedes(a, b)
    ensures Precedes(p + a, p + b)
  {
    if |a| < |b| && b[..|a|] == a {
      assert (p + b)[..|p + a|] == p + b[..|a|];
    } else {
      var i :| 0 <= i < |a| && i < |b| && a[..i] == b[..i] && a[i] < b[i];
      assert (p + a)[..|p| + i] == p + a[..i] && (p + b)[..|p| + i] == p + b[..i];
      assert (p + a)[|p| + i] < (p + b)[|p| + i];
    }
  }

  function Numeral(n: nat): char { "0123456789"[n % 10] }

  lemma NumeralOrder(n: nat, m: nat)
    requires n % 10 < m % 10
    ensures Numeral(n) < Numeral(m)
  {
  }

  lemma LastDigits(n: nat, m: nat, bound: nat)
    requires n < m < 10 * bound
    ensures m / 10 < bound && (n / 10 < m / 10 || (n / 10 == m / 10 && n % 10 < m % 10))
  {
  }

  lemma {:induction false} PaddedOrder(n: nat, m: nat, w: nat)
    requires n < m < Pow10(w)
    ensures Precedes(Padded(n, w), Padded(m, w))
  {
    hide Precedes, Numeral;
    if w == 0 {
    } else {
      LastDigits(n, m, Pow10(w - 1));
      if n / 10 < m / 10 {
        PaddedOrder(n / 10, m / 10, w - 1);
        PrecedesInFront(Padded(n / 10, w - 1), Padded(m / 10, w - 1), [Numeral(n)], [Numeral(m)]);
      } else {
        NumeralOrder(n, m);
        OneCharacter(Numeral(n), Numeral(m));
        PrecedesBehind(Padded(n / 10, w - 1), [Numeral(n)], [Numeral(m)]);
      }
    }
  }

  lemma OneCharacter(a: char, b: char)
    requires a < b
    ensures Precedes([a], [b])
  {
    assert [a][..0] == [b][..0] && [a][0] < [b][0];
  }

  lemma StampOrder(a: Clock, b: Clock)
    requires ClockOk(a) && ClockOk(b) && Earlier(a, b)
    ensures |Stamp(a)| == |Stamp(b)| == 26 && Precedes(Stamp(a), Stamp(b))
  {
    var nanosA, nanosB := Padded(a.nanos, 9) + "Z", Padded(b.nanos, 9) + "Z";
    var timeA, timeB := Padded(a.time, 6) + ("." + nanosA), Padded(b.time, 6) + ("." + nanosB);
    hide Precedes, Padded, Pow10;
    if a.date < b.date {
      PaddedOrder(a.date, b.date, 8);
      PrecedesInFront(Padded(a.date, 8), Padded(b.date, 8), "T" + timeA, "T" + timeB);
    } else {
      if a.time < b.time {
        PaddedOrder(a.time, b.time, 6);
        PrecedesInFront(Padded(a.time, 6), Padded(b.time, 6), "." + nanosA, "." + nanosB);
      } else {
        PaddedOrder(a.nanos, b.nanos, 9);
        PrecedesInFront(Padded(a.nanos, 9), Padded(b.nanos, 9), "Z", "Z");
        PrecedesBehind(".", nanosA, nanosB);
        PrecedesBehind(Padded(a.time, 6), "." + nanosA, "." + nanosB);
      }
      PrecedesBehind("T", timeA, timeB);
      PrecedesBehind(Padded(a.date, 8), "T" + timeA, "T" + timeB);
    }
  }

  /** A later clock gives a name that comes later, whatever the counters behind the stamps are. */
  lemma LaterNameComesLater(a: Clock, b: Clock, x: string, y: string)
    requires ClockOk(a) && ClockOk(b) && Earlier(a, b)
    ensures Precedes(BackupName(Stamp(a), x), BackupName(Stamp(b), y))
  {
    StampOrder(a, b);
    hide Precedes, Stamp;
    PrecedesInFront(Stamp(a), Stamp(b), "-" + x + ".db", "-" + y + ".db");
    PrecedesBehind(PREFIX, Stamp(a) + ("-" + x + ".db"), Stamp(b) + ("-" + y + ".db"));
    assert BackupName(Stamp(a), x) == PREFIX + (Stamp(a) + ("-" + x + ".db"));
    assert BackupName(Stamp(b), y) == PREFIX + (Stamp(b) + ("-" + y + ".db"));
  }

  // ---- What the names are ----

  /** The three kinds of names, spelled out. */
  lemma TempNamesAre(name: string)
    ensures IsTempName(name) <==>
              exists stem, suffix ::
                name == "lazarus-" + stem + suffix && suffix in {".tmp", ".tmp-wal", ".tmp-shm", ".tmp-journal"}
  {
    if IsTempName(name) {
      var suffix := if HasSuffix(name, ".tmp") then ".tmp" else if HasSuffix(name, ".tmp-wal") then ".tmp-wal"
                    else if HasSuffix(name, ".tmp-shm") then ".tmp-shm" else ".tmp-journal";
      var stem := NameSplits(name, suffix);
      assert name == "lazarus-" + stem + suffix;
    }
    if stem, suffix :|
         name == "lazarus-" + stem + suffix && suffix in {".tmp", ".tmp-wal", ".tmp-shm", ".tmp-journal"} {
      NameJoins(stem, suffix);
    }
  }

  lemma DatabaseNamesAre(name: string)
    ensures IsDatabaseName(name) <==> exists stem :: name == "lazarus-" + stem + ".db"
  {
    if IsDatabaseName(name) {
      var stem := NameSplits(name, ".db");
      assert name == "lazarus-" + stem + ".db";
    }
    if stem :| name == "lazarus-" + stem + ".db" {
      NameJoins(stem, ".db");
    }
  }

  lemma ManifestNamesAre(name: string)
    ensures IsManifestName(name) <==> exists stem :: name == "lazarus-" + stem + ".db.manifest.json"
    ensures ManifestOf(name) == name + ".manifest.json"
  {
    if IsManifestName(name) {
      var stem := NameSplits(name, ".db.manifest.json");
      assert name == "lazarus-" + stem + ".db.manifest.json";
    }
    if stem :| name == "lazarus-" + stem + ".db.manifest.json" {
      NameJoins(stem, ".db.manifest.json");
    }
  }

  /** A suffix that begins with a dot cannot reach into the prefix. */
  lemma NameSplits(name: string, suffix: string) returns (stem: string)
    requires HasPrefix(name, "lazarus-") && HasSuffix(name, suffix) && suffix != "" && suffix[0] == '.'
    ensures name == "lazarus-" + stem + suffix
  {
    var k := |name| - |suffix|;
    assert name[k] == '.';
    assert forall i :: 0 <= i < 8 ==> name[i] == "lazarus-"[i];
    assert k >= 8;
    stem := name[8..k];
  }

  lemma NameJoins(stem: string, suffix: string)
    ensures HasPrefix("lazarus-" + stem + suffix, "lazarus-") && HasSuffix("lazarus-" + stem + suffix, suffix)
  {
    var name := "lazarus-" + stem + suffix;
    assert name[..8] == "lazarus-" && name[|name| - |suffix|..] == suffix;
  }

  /** Artifact validation holds a backup to its manifest: another image, another digest or another name in
      the manifest, and it is refused. */
  lemma ChangedBackupIsRefused(d: Directory, name: string, data: string, other: string, digest: string, when: int)
    requires Published(d, name) && data != d[name].content.data
    requires other != name || digest != d[name].content.data
    ensures !Published(d[name := File(when, Image(data))], name)
    ensures !Published(d[ManifestOf(name) := File(when, ManifestText(other, digest))], name)
    ensures !Published(d - {name}, name) && !Published(d - {ManifestOf(name)}, name)
  {
    ManifestPairs(name);
    NamesDisjoint(name);
    hide IsDatabaseName, IsManifestName, IsArtifactName, ManifestOf, IsTempName;
  }

  /** The names that can be looked up: up to 200 ASCII letters, digits, dots, dashes and underscores. */
  lemma ArtifactNamesAre(name: string)
    ensures IsArtifactName(name) <==>
              1 <= |name| <= 200 && forall i :: 0 <= i < |name| ==>
                var c := name[i] as int;
                48 <= c <= 57 || 65 <= c <= 90 || 97 <= c <= 122 || c in {45, 46, 95}
  {
    hide IsArtifactChar;
    forall i | 0 <= i < |name|
      ensures IsArtifactChar(name[i]) <==>
                var c := name[i] as int;
                48 <= c <= 57 || 65 <= c <= 90 || 97 <= c <= 122 || c in {45, 46, 95}
    {
      ArtifactChars(name[i]);
    }
  }

  lemma ArtifactChars(ch: char)
    ensures IsArtifactChar(ch) <==>
              var c := ch as int;
              48 <= c <= 57 || 65 <= c <= 90 || 97 <= c <= 122 || c in {45, 46, 95}
  {
  }
}
