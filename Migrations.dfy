/** The SQL migration runner of backend/pkg/migrations/migrations.go. A directory
    listing is a sequence of (name, isDir) entries, file contents are a map from
    path to text, and every database step that can fail takes its outcome as a
    parameter. The `migrations` table is the sequence of recorded names, and the
    database schema is represented by the sequence of up-scripts that committed. */
module Migrations {
  import opened Wrappers
  import opened Strings

  datatype DirEntry = DirEntry(name: string, isDir: bool)

  datatype Migration = Migration(name: string, path: string)

  const SqlSuffix := ".sql"
  const DownMarker := "-- Down Migration"

  /** `filepath.Join` of a directory and a file name, without the `filepath.Clean` that Go
      applies afterwards: a directory ending in "/" gives "dir//x.sql" here and "dir/x.sql"
      in Go, and "." or ".." segments are kept. */
  function PathJoin(dir: string, name: string): string {
    if dir == "" then name else dir + "/" + name
  }

  predicate IsMigrationFile(e: DirEntry) {
    !e.isDir && EndsWith(e.name, SqlSuffix)
  }

  function MigrationOf(dir: string, e: DirEntry): Migration {
    Migration(TrimSuffix(e.name, SqlSuffix), PathJoin(dir, e.name))
  }

  /** The migrations the listing loop collects, in listing order. */
  function Candidates(entries: seq<DirEntry>, dir: string): seq<Migration> {
    if entries == [] then []
    else
      var last := entries[|entries| - 1];
      Candidates(entries[..|entries| - 1], dir) + (if IsMigrationFile(last) then [MigrationOf(dir, last)] else [])
  }

  /** `a` sorts no later than `b`. */
  predicate NameLeq(a: Migration, b: Migration) {
    !LexLess(b.name, a.name)
  }

  predicate SortedByName(ms: seq<Migration>) {
    forall i, j :: 0 <= i < j < |ms| ==> NameLeq(ms[i], ms[j])
  }

  lemma NameLeqTrans(a: Migration, b: Migration, c: Migration)
    requires NameLeq(a, b) && NameLeq(b, c)
    ensures NameLeq(a, c)
  {
    LexTotal(a.name, b.name);
    LexTotal(b.name, c.name);
    LexTotal(a.name, c.name);
    if LexLess(c.name, a.name) {
      if a.name == b.name {
      } else if b.name == c.name {
      } else {
        LexTrans(a.name, b.name, c.name);
      }
    }
  }

  lemma NameLeqFlip(a: Migration, b: Migration)
    requires LexLess(a.name, b.name)
    ensures NameLeq(a, b) && !NameLeq(b, a)
  {
    LexTotal(a.name, b.name);
  }

  /** sort.Slice by name, as an insertion sort in place. */
  method SortByName(a: array<Migration>)
    modifies a
    ensures SortedByName(a[..])
    ensures multiset(a[..]) == multiset(old(a[..]))
  {
    if a.Length == 0 {
      return;
    }
    var i := 1;
    while i < a.Length
      invariant 1 <= i <= a.Length
      invariant SortedByName(a[..i])
      invariant multiset(a[..]) == multiset(old(a[..]))
    {
      InsertLast(a, i);
      i := i + 1;
    }
    assert a[..i] == a[..];
  }

  /** Moves `a[i]` left into the sorted prefix `a[..i]`. */
  method InsertLast(a: array<Migration>, i: nat)
    requires i < a.Length
    requires SortedByName(a[..i])
    modifies a
    ensures SortedByName(a[..i + 1])
    ensures multiset(a[..]) == multiset(old(a[..]))
  {
    var j := i;
    InsertStart(a[..], i);
    while j > 0 && LexLess(a[j].name, a[j - 1].name)
      invariant 0 <= j <= i < a.Length
      invariant multiset(a[..]) == multiset(old(a[..]))
      invariant Inserting(a[..], i, j)
    {
      ghost var before := a[..];
      a[j - 1], a[j] := a[j], a[j - 1];
      assert a[..] == Swapped(before, j);
      InsertStep(before, i, j);
      j := j - 1;
    }
    InsertDone(a[..], i, j);
  }

  /** The state of the insertion loop: `s[..i + 1]` is sorted except that the moving
      element sits at `j`, no later than everything after it. */
  predicate Inserting(s: seq<Migration>, i: nat, j: nat)
    requires j <= i < |s|
  {
    && (forall p, q :: 0 <= p < q <= i && p != j && q != j ==> NameLeq(s[p], s[q]))
    && (forall q :: j < q <= i ==> NameLeq(s[j], s[q]))
    && (0 < j < i ==> NameLeq(s[j - 1], s[j + 1]))
  }

  function Swapped(s: seq<Migration>, j: nat): (r: seq<Migration>)
    requires 0 < j < |s|
    ensures multiset(r) == multiset(s)
  {
    var r := s[j - 1 := s[j]][j := s[j - 1]];
    assert r == s[..j - 1] + [s[j], s[j - 1]] + s[j + 1..];
    assert s == s[..j - 1] + [s[j - 1], s[j]] + s[j + 1..];
    r
  }

  lemma InsertStart(s: seq<Migration>, i: nat)
    requires i < |s| && SortedByName(s[..i])
    ensures Inserting(s, i, i)
  {
    forall p, q | 0 <= p < q <= i && p != i && q != i ensures NameLeq(s[p], s[q]) {
      assert s[..i][p] == s[p] && s[..i][q] == s[q];
    }
  }

  lemma InsertStep(s: seq<Migration>, i: nat, j: nat)
    requires 0 < j <= i < |s| && Inserting(s, i, j)
    requires LexLess(s[j].name, s[j - 1].name)
    ensures Inserting(Swapped(s, j), i, j - 1)
  {
    var r := Swapped(s, j);
    NameLeqFlip(s[j], s[j - 1]);
    forall q | j - 1 < q <= i ensures NameLeq(r[j - 1], r[q]) {
      if q > j {
        NameLeqTrans(s[j], s[j - 1], s[q]);
      }
    }
    if 1 < j {
      assert NameLeq(s[j - 2], s[j - 1]);
    }
  }

  lemma InsertDone(s: seq<Migration>, i: nat, j: nat)
    requires j <= i < |s| && Inserting(s, i, j)
    requires j > 0 ==> !LexLess(s[j].name, s[j - 1].name)
    ensures SortedByName(s[..i + 1])
  {
    forall p, q | 0 <= p < q <= i ensures NameLeq(s[p], s[q]) {
      if q == j && p < j - 1 {
        NameLeqTrans(s[p], s[j - 1], s[j]);
      }
    }
  }

  /** The collection loop of FindMigrations. */
  method CollectMigrations(entries: seq<DirEntry>, dir: string) returns (ms: seq<Migration>)
    ensures ms == Candidates(entries, dir)
  {
    ms := [];
    var i := 0;
    while i < |entries|
      invariant 0 <= i <= |entries|
      invariant ms == Candidates(entries[..i], dir)
    {
      assert entries[..i + 1][..i] == entries[..i];
      var e := entries[i];
      if !e.isDir && EndsWith(e.name, SqlSuffix) {
        ms := ms + [Migration(TrimSuffix(e.name, SqlSuffix), PathJoin(dir, e.name))];
      }
      i := i + 1;
    }
    assert entries[..i] == entries;
  }

  /** The order FindMigrations settles on: the candidates, sorted by name. */
  predicate FoundOrder(found: seq<Migration>, entries: seq<DirEntry>, dir: string) {
    SortedByName(found) && multiset(found) == multiset(Candidates(entries, dir))
  }

  /** FindMigrations over a directory listing (`Err` is a failed ReadDir, returned as is). */
  method FindMigrations(listing: Result<seq<DirEntry>>, dir: string) returns (r: Result<seq<Migration>>)
    ensures listing.Err? ==> r == Err(listing.error)
    ensures listing.Ok? ==> r.Ok? && FoundOrder(r.value, listing.value, dir)
  {
    if listing.Err? {
      return Err(listing.error);
    }
    var ms := CollectMigrations(listing.value, dir);
    var a := new Migration[|ms|](i requires 0 <= i < |ms| => ms[i]);
    assert a[..] == ms;
    SortByName(a);
    return Ok(a[..]);
  }

  // ---------------------------------------------------------------------------
  // Up-script extraction

  /** Everything before the first down marker, or the whole file without one. */
  function UpSql(content: string): string {
    var idx := IndexOf(content, DownMarker);
    if idx != -1 then content[..idx] else content
  }

  /** The up part is a prefix of the file, holds no down marker, and what follows it is
      either nothing or starts with the marker. */
  lemma UpSqlShape(content: string)
    ensures StartsWith(content, UpSql(content))
    ensures !Contains(UpSql(content), DownMarker)
    ensures UpSql(content) == content || StartsWith(content[|UpSql(content)|..], DownMarker)
    ensures !Contains(content, DownMarker) ==> UpSql(content) == content
  {
    var up := UpSql(content);
    var idx := IndexOf(content, DownMarker);
    if idx != -1 {
      assert up == content[..idx];
      if Contains(up, DownMarker) {
        var j := IndexOf(up, DownMarker);
        assert up[j..j + |DownMarker|] == content[j..j + |DownMarker|];
        assert OccursAt(content, DownMarker, j);
        assert false;
      }
      assert content[idx..][..|DownMarker|] == content[idx..idx + |DownMarker|];
    }
  }

  // ---------------------------------------------------------------------------
  // Applying migrations

  /** Where the transaction of one migration fails, with the driver's error text. */
  datatype Fault =
    | NoFault
    | BeginFails(e: string)
    | ExecFails(e: string)
    | RecordFails(e: string)
    | CommitFails(e: string)

  /** The error `ioutil.ReadFile` returns for a path the file map lacks. Every failed read
      is taken to be a missing file; permission and other I/O errors are not modelled. */
  function ReadError(path: string): string {
    "open " + path + ": no such file or directory"
  }

  /** The error ApplyMigration returns, or None when it commits. */
  function ApplyError(m: Migration, files: map<string, string>, fault: Fault): (r: Option<string>)
    ensures r.None? <==> m.path in files && fault == NoFault
  {
    if m.path !in files then Some(ReadError(m.path))
    else match fault
      case NoFault => None
      case BeginFails(e) => Some(e)
      case ExecFails(e) => Some("migration failed: " + e)
      case RecordFails(e) => Some("failed to record migration: " + e)
      case CommitFails(e) => Some("failed to commit migration: " + e)
  }

  /** The migrations of `found` whose names are not yet recorded, in order. */
  function Pending(found: seq<Migration>, applied: set<string>): seq<Migration> {
    if found == [] then []
    else
      var last := found[|found| - 1];
      Pending(found[..|found| - 1], applied) + (if last.name in applied then [] else [last])
  }

  /** The position of the first migration of the plan that fails, or |plan|. */
  function FirstFailure(plan: seq<Migration>, files: map<string, string>, faults: string -> Fault): (k: nat)
    ensures k <= |plan|
    ensures forall j :: 0 <= j < k ==> ApplyError(plan[j], files, faults(plan[j].name)).None?
    ensures k < |plan| ==> ApplyError(plan[k], files, faults(plan[k].name)).Some?
  {
    if plan == [] then 0
    else if ApplyError(plan[0], files, faults(plan[0].name)).Some? then 0
    else 1 + FirstFailure(plan[1..], files, faults)
  }

  function Names(ms: seq<Migration>): (r: seq<string>)
    ensures |r| == |ms| && forall i :: 0 <= i < |ms| ==> r[i] == ms[i].name
  {
    seq(|ms|, i requires 0 <= i < |ms| => ms[i].name)
  }

  function Scripts(ms: seq<Migration>, files: map<string, string>): (r: seq<string>)
    ensures |r| == |ms|
    ensures forall i :: 0 <= i < |ms| && ms[i].path in files ==> r[i] == UpSql(files[ms[i].path])
  {
    seq(|ms|, i requires 0 <= i < |ms| => if ms[i].path in files then UpSql(files[ms[i].path]) else "")
  }

  class Migrator {
    const migrationsDir: string
    /** The `name` column of the migrations table, in id order. */
    var applied: seq<string>
    /** The up-scripts that committed, in order. */
    var executed: seq<string>

    constructor (migrationsDir: string)
      ensures this.migrationsDir == migrationsDir && applied == [] && executed == []
    {
      this.migrationsDir := migrationsDir;
      applied := [];
      executed := [];
    }

    /** The names recorded in the migrations table, or the query error. */
    method GetAppliedMigrations(queryError: Option<string>) returns (r: Result<set<string>>)
      ensures queryError.Some? ==> r == Err(queryError.value)
      ensures queryError.None? ==> r.Ok? && forall n :: n in r.value <==> n in applied
    {
      if queryError.Some? {
        return Err(queryError.value);
      }
      var names: set<string> := {};
      var i := 0;
      while i < |applied|
        invariant 0 <= i <= |applied|
        invariant forall n :: n in names <==> n in applied[..i]
      {
        assert applied[..i + 1] == applied[..i] + [applied[i]];
        names := names + {applied[i]};
        i := i + 1;
      }
      assert applied[..i] == applied;
      return Ok(names);
    }

    /** One migration in one transaction: both the script and its record take effect, or neither. */
    method ApplyMigration(m: Migration, files: map<string, string>, fault: Fault) returns (err: Option<string>)
      modifies this
      ensures err == ApplyError(m, files, fault)
      ensures err.None? ==> applied == old(applied) + [m.name] && executed == old(executed) + [UpSql(files[m.path])]
      ensures err.Some? ==> applied == old(applied) && executed == old(executed)
    {
      if m.path !in files {
        return Some(ReadError(m.path));
      }
      var content := files[m.path];
      var up := content;
      var idx := IndexOf(content, DownMarker);
      if idx != -1 {
        up := content[..idx];
      }
      match fault {
        case BeginFails(e) => return Some(e);
        case ExecFails(e) => return Some("migration failed: " + e);
        case RecordFails(e) => return Some("failed to record migration: " + e);
        case CommitFails(e) => return Some("failed to commit migration: " + e);
        case NoFault =>
      }
      applied := applied + [m.name];
      executed := executed + [up];
      return None;
    }

    /** Applies the pending migrations in name order and stops at the first error. */
    method Migrate(listing: Result<seq<DirEntry>>, files: map<string, string>, faults: string -> Fault,
                   tableError: Option<string>, queryError: Option<string>) returns (err: Option<string>)
      modifies this
      ensures tableError.Some? ==>
        err == Some("failed to create migrations table: " + tableError.value) && applied == old(applied) && executed == old(executed)
      ensures tableError.None? && queryError.Some? ==>
        err == Some("failed to get applied migrations: " + queryError.value) && applied == old(applied) && executed == old(executed)
      ensures tableError.None? && queryError.None? && listing.Err? ==>
        err == Some("failed to find migrations: " + listing.error) && applied == old(applied) && executed == old(executed)
      ensures tableError.None? && queryError.None? && listing.Ok? ==>
        exists found :: FoundOrder(found, listing.value, migrationsDir)
          && MigrateEffect(Pending(found, set n | n in old(applied)), files, faults, old(applied), old(executed), applied, executed, err)
    {
      if tableError.Some? {
        return Some("failed to create migrations table: " + tableError.value);
      }
      var appliedSet := GetAppliedMigrations(queryError);
      if appliedSet.Err? {
        return Some("failed to get applied migrations: " + appliedSet.error);
      }
      var found := FindMigrations(listing, migrationsDir);
      if found.Err? {
        return Some("failed to find migrations: " + found.error);
      }
      assert appliedSet.value == set n | n in old(applied);
      err := ApplyPending(found.value, appliedSet.value, files, faults);
    }

    /** The loop of Migrate over the sorted migrations, skipping recorded names. */
    method ApplyPending(ms: seq<Migration>, recorded: set<string>, files: map<string, string>, faults: string -> Fault)
      returns (err: Option<string>)
      modifies this
      ensures MigrateEffect(Pending(ms, recorded), files, faults, old(applied), old(executed), applied, executed, err)
    {
      ghost var plan := Pending(ms, recorded);
      var i := 0;
      while i < |ms|
        invariant 0 <= i <= |ms|
        invariant IsPrefix(Pending(ms[..i], recorded), plan)
        invariant forall j :: 0 <= j < |Pending(ms[..i], recorded)| ==> ApplyError(plan[j], files, faults(plan[j].name)).None?
        invariant applied == old(applied) + Names(Pending(ms[..i], recorded))
        invariant executed == old(executed) + Scripts(Pending(ms[..i], recorded), files)
      {
        var m := ms[i];
        PendingStep(ms, i, recorded);
        PendingPrefixFor(ms, i + 1, recorded);
        ghost var done := Pending(ms[..i], recorded);
        if m.name !in recorded {
          var e := ApplyMigration(m, files, faults(m.name));
          if e.Some? {
            FailureStep(plan, done, m, files, faults);
            return e;
          }
          SuccessStep(done, m, files);
          CleanStep(plan, done, m, files, faults);
        }
        i := i + 1;
      }
      assert ms[..i] == ms;
      FirstFailureAt(plan, files, faults, |plan|);
      assert plan[..|plan|] == plan;
      return None;
    }
  }

  lemma PendingStep(ms: seq<Migration>, i: nat, s: set<string>)
    requires i < |ms|
    ensures Pending(ms[..i + 1], s) == Pending(ms[..i], s) + (if ms[i].name in s then [] else [ms[i]])
  {
    assert ms[..i + 1][..i] == ms[..i];
  }

  lemma SuccessStep(done: seq<Migration>, m: Migration, files: map<string, string>)
    requires m.path in files
    ensures Names(done + [m]) == Names(done) + [m.name]
    ensures Scripts(done + [m], files) == Scripts(done, files) + [UpSql(files[m.path])]
  {
    assert Names(done + [m]) == Names(done) + [m.name];
    assert Scripts(done + [m], files) == Scripts(done, files) + [UpSql(files[m.path])];
  }

  lemma FailureStep(plan: seq<Migration>, done: seq<Migration>, m: Migration, files: map<string, string>, faults: string -> Fault)
    requires IsPrefix(done + [m], plan)
    requires forall j :: 0 <= j < |done| ==> ApplyError(plan[j], files, faults(plan[j].name)).None?
    requires ApplyError(m, files, faults(m.name)).Some?
    ensures FirstFailure(plan, files, faults) == |done| && plan[..|done|] == done && plan[|done|] == m
  {
    assert plan[..|done| + 1] == done + [m];
    assert plan[|done|] == (done + [m])[|done|];
    assert plan[..|done|] == (done + [m])[..|done|];
    FirstFailureAt(plan, files, faults, |done|);
  }

  predicate IsPrefix<T(==)>(a: seq<T>, b: seq<T>) {
    |a| <= |b| && b[..|a|] == a
  }

  /** The outcome Migrate promises for a plan: the longest succeeding prefix is
      recorded and executed, and the error is that of the first failure, if any. */
  predicate MigrateEffect(plan: seq<Migration>, files: map<string, string>, faults: string -> Fault,
                          applied0: seq<string>, executed0: seq<string>,
                          applied: seq<string>, executed: seq<string>, err: Option<string>)
  {
    var k := FirstFailure(plan, files, faults);
    && applied == applied0 + Names(plan[..k])
    && executed == executed0 + Scripts(plan[..k], files)
    && (err.None? <==> k == |plan|)
    && (k < |plan| ==> err == ApplyError(plan[k], files, faults(plan[k].name)))
  }

  /** A migration that applied extends the run of migrations that did. */
  lemma CleanStep(plan: seq<Migration>, done: seq<Migration>, m: Migration, files: map<string, string>, faults: string -> Fault)
    requires IsPrefix(done + [m], plan)
    requires forall j :: 0 <= j < |done| ==> ApplyError(plan[j], files, faults(plan[j].name)).None?
    requires ApplyError(m, files, faults(m.name)).None?
    ensures forall j :: 0 <= j < |done + [m]| ==> ApplyError(plan[j], files, faults(plan[j].name)).None?
  {
    assert plan[|done|] == (done + [m])[|done|] == m;
  }

  lemma FirstFailureAt(plan: seq<Migration>, files: map<string, string>, faults: string -> Fault, k: nat)
    requires k <= |plan|
    requires forall j :: 0 <= j < k ==> ApplyError(plan[j], files, faults(plan[j].name)).None?
    requires k < |plan| ==> ApplyError(plan[k], files, faults(plan[k].name)).Some?
    ensures FirstFailure(plan, files, faults) == k
  {
  }

  /** The plan of a prefix of the found list is a prefix of the whole plan. */
  lemma {:induction false} PendingPrefixFor(ms: seq<Migration>, i: nat, s: set<string>)
    requires i <= |ms|
    ensures IsPrefix(Pending(ms[..i], s), Pending(ms, s))
    decreases |ms|
  {
    if i < |ms| {
      var init := ms[..|ms| - 1];
      assert ms[..i] == init[..i];
      PendingPrefixFor(init, i, s);
    } else {
      assert ms[..i] == ms;
    }
  }

  // ---------------------------------------------------------------------------
  // Properties of the plan

  /** A found migration comes from a non-directory ".sql" entry, named without the suffix. */
  lemma {:induction false} CandidateOrigin(entries: seq<DirEntry>, dir: string, m: Migration)
    requires m in Candidates(entries, dir)
    ensures exists e :: e in entries && IsMigrationFile(e) && m == MigrationOf(dir, e) && m.name + SqlSuffix == e.name
  {
    var init := entries[..|entries| - 1];
    var last := entries[|entries| - 1];
    if m in Candidates(init, dir) {
      CandidateOrigin(init, dir, m);
      var e :| e in init && IsMigrationFile(e) && m == MigrationOf(dir, e) && m.name + SqlSuffix == e.name;
      assert e in entries;
    } else {
      assert IsMigrationFile(last) && m == MigrationOf(dir, last);
    }
  }

  /** Every non-directory ".sql" entry is found. */
  lemma {:induction false} CandidateComplete(entries: seq<DirEntry>, dir: string, e: DirEntry)
    requires e in entries && IsMigrationFile(e)
    ensures MigrationOf(dir, e) in Candidates(entries, dir)
  {
    var init := entries[..|entries| - 1];
    if e != entries[|entries| - 1] {
      assert e in init;
      CandidateComplete(init, dir, e);
    }
  }

  /** A pending migration is a found one whose name was not recorded, and vice versa. */
  lemma {:induction false} PendingMembers(found: seq<Migration>, s: set<string>, m: Migration)
    ensures m in Pending(found, s) <==> m in found && m.name !in s
  {
    if found != [] {
      PendingMembers(found[..|found| - 1], s, m);
      assert found == found[..|found| - 1] + [found[|found| - 1]];
    }
  }
}
