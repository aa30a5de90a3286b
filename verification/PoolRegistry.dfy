/** The registry of JVM pool members (cli/internal/jvmpool/registry.go): a strictly sorted
    document behind a mutex, guarded by live ownership. */
module PoolRegistry {
  import opened Basics
  import opened Ordering

  datatype Member = Member(configDir: string, sourceCwd: string, pool: string)

  const MembershipFormat := "millstrand.jvm-pool-membership/v1"
  const RevisionPrefix := "membership-"

  datatype Document = Document(format: string, revision: string, members: seq<Member>)

  // The pool that currently serves a workspace, per workspace.
  type Ownership = map<string, string>

  datatype Row = Row(sourceCwd: string, pool: string)

  datatype Outcome = Changed | Unchanged | StopRequired | Invalid | WriteFailed

  // ------------------------------------------------------------ canonical paths

  predicate ComponentAt(path: string, i: int) {
    && 0 <= i < |path| - 1 && path[i + 1] != '/'
    && !(path[i + 1] == '.' && (i + 2 == |path| || path[i + 2] == '/'))
    && !(path[i + 1] == '.' && i + 2 < |path| && path[i + 2] == '.' && (i + 3 == |path| || path[i + 3] == '/'))
  }

  // Absolute, and unchanged by cleaning: no empty, dot or dot-dot component, no final slash.
  predicate Canonical(path: string) {
    && path != "" && path[0] == '/'
    && (path == "/" || forall i :: 0 <= i < |path| && path[i] == '/' ==> ComponentAt(path, i))
  }

  predicate GoodMember(m: Member) {
    Canonical(m.configDir) && Canonical(m.sourceCwd) && !Blank(m.pool)
  }

  function Dirs(members: seq<Member>): seq<string> {
    seq(|members|, i requires 0 <= i < |members| => members[i].configDir)
  }

  ghost predicate GoodDocument(doc: Document) {
    && doc.format == MembershipFormat
    && RevisionPrefix <= doc.revision
    && (forall i :: 0 <= i < |doc.members| ==> GoodMember(doc.members[i]))
    && StrictlySorted(Dirs(doc.members))
  }

  // ------------------------------------------------------------ the finite map

  // What the registry means: one row per workspace.
  ghost function Rows(members: seq<Member>): map<string, Row> {
    if members == [] then map[]
    else
      var last := members[|members| - 1];
      Rows(members[..|members| - 1])[last.configDir := Row(last.sourceCwd, last.pool)]
  }

  ghost predicate DistinctDirs(members: seq<Member>) {
    forall a, b :: a in members && b in members && a.configDir == b.configDir ==> a == b
  }

  lemma {:induction false} RowsHold(members: seq<Member>)
    ensures forall d :: d in Rows(members) ==> Member(d, Rows(members)[d].sourceCwd, Rows(members)[d].pool) in members
    ensures forall m :: m in members ==> m.configDir in Rows(members)
  {
    if members != [] {
      assert members == members[..|members| - 1] + [members[|members| - 1]];
      RowsHold(members[..|members| - 1]);
    }
  }

  lemma {:induction false} DistinctRows(members: seq<Member>)
    requires DistinctDirs(members)
    ensures forall m :: m in members ==> m.configDir in Rows(members) && Rows(members)[m.configDir] == Row(m.sourceCwd, m.pool)
    ensures forall d :: d in Rows(members) ==> Member(d, Rows(members)[d].sourceCwd, Rows(members)[d].pool) in members
  {
    RowsHold(members);
    hide Rows;
    forall m | m in members
      ensures Rows(members)[m.configDir] == Row(m.sourceCwd, m.pool)
    {
      assert Member(m.configDir, Rows(members)[m.configDir].sourceCwd, Rows(members)[m.configDir].pool) in members;
    }
  }

  // The same members in another order mean the same rows.
  lemma {:induction false} SameMembersSameRows(a: seq<Member>, b: seq<Member>)
    requires DistinctDirs(a) && forall m :: m in a <==> m in b
    ensures Rows(a) == Rows(b)
  {
    DistinctRows(a);
    DistinctRows(b);
    hide Rows;
    forall d | d in Rows(a)
      ensures d in Rows(b) && Rows(a)[d] == Rows(b)[d]
    {
      assert Member(d, Rows(a)[d].sourceCwd, Rows(a)[d].pool) in b;
    }
    forall d | d in Rows(b)
      ensures d in Rows(a)
    {
      assert Member(d, Rows(b)[d].sourceCwd, Rows(b)[d].pool) in a;
    }
  }

  lemma {:induction false} SortedRows(members: seq<Member>)
    requires StrictlySorted(Dirs(members))
    ensures DistinctDirs(members)
    ensures forall m :: m in members ==> m.configDir in Rows(members) && Rows(members)[m.configDir] == Row(m.sourceCwd, m.pool)
    ensures forall d :: d in Rows(members) ==> Member(d, Rows(members)[d].sourceCwd, Rows(members)[d].pool) in members
  {
    forall a, b | a in members && b in members && a.configDir == b.configDir
      ensures a == b
    {
      var i :| 0 <= i < |members| && members[i] == a;
      var j :| 0 <= j < |members| && members[j] == b;
      if i < j {
        DirsDiffer(members, i, j);
      } else if j < i {
        DirsDiffer(members, j, i);
      }
    }
    DistinctRows(members);
  }

  lemma {:induction false} DirsDiffer(members: seq<Member>, i: int, j: int)
    requires StrictlySorted(Dirs(members)) && 0 <= i < j < |members|
    ensures members[i].configDir != members[j].configDir && Less(members[i].configDir, members[j].configDir)
  {
    assert Less(Dirs(members)[i], Dirs(members)[j]);
    LessIrreflexive(members[i].configDir);
  }

  /** Two good documents with the same rows list the same members: the document is a canonical
      form of the map. */
  lemma {:induction false} RowsDetermineMembers(a: seq<Member>, b: seq<Member>)
    requires StrictlySorted(Dirs(a)) && StrictlySorted(Dirs(b)) && Rows(a) == Rows(b)
    ensures a == b
  {
    SortedRows(a);
    SortedRows(b);
    forall d
      ensures d in Dirs(a) <==> d in Dirs(b)
    {
      InDirs(a, d);
      InDirs(b, d);
    }
    SortedListingIsUnique(Dirs(a), Dirs(b));
    forall i | 0 <= i < |a|
      ensures a[i] == b[i]
    {
      assert Dirs(a)[i] == Dirs(b)[i];
      assert a[i] in a && b[i] in b;
    }
    assert |a| == |Dirs(a)| == |Dirs(b)| == |b|;
  }

  lemma {:induction false} InDirs(members: seq<Member>, d: string)
    ensures d in Dirs(members) <==> d in Rows(members)
  {
    RowsHold(members);
    hide Rows;
    if d in Dirs(members) {
      var i :| 0 <= i < |members| && Dirs(members)[i] == d;
      assert members[i] in members;
    }
    if d in Rows(members) {
      var m := Member(d, Rows(members)[d].sourceCwd, Rows(members)[d].pool);
      var i :| 0 <= i < |members| && members[i] == m;
      assert Dirs(members)[i] == d;
    }
  }

  // ------------------------------------------------------------ sorting

  predicate ByDir(a: Member, b: Member) {
    Less(a.configDir, b.configDir)
  }

  lemma {:induction false} ByDirIsStrictWeak()
    ensures StrictWeakOrder(ByDir)
  {
    forall a: Member, b: Member | ByDir(a, b)
      ensures !ByDir(b, a)
    {
      if Less(b.configDir, a.configDir) {
        LessTransitive(a.configDir, b.configDir, a.configDir);
        LessIrreflexive(a.configDir);
      }
    }
    forall a: Member, b: Member, c: Member | !ByDir(a, b) && !ByDir(b, c)
      ensures !ByDir(a, c)
    {
      NotLessTransitive(a.configDir, b.configDir, c.configDir);
    }
  }

  // Sorting members with different directories gives the canonical list of the same rows.
  lemma {:induction false} SortMembers(members: seq<Member>)
    requires DistinctDirs(members) && Distinct(members)
    ensures var sorted := SortBy(ByDir, members);
            StrictlySorted(Dirs(sorted)) && (forall m :: m in sorted <==> m in members) && Rows(sorted) == Rows(members)
  {
    var sorted := SortBy(ByDir, members);
    ByDirIsStrictWeak();
    SortByIsSorted(ByDir, members);
    SortByKeepsElements(ByDir, members);
    SameMultisetFacts(members, sorted);
    hide SortBy, StrictWeakOrder, Rows;
    forall i, j | 0 <= i < j < |sorted|
      ensures Less(Dirs(sorted)[i], Dirs(sorted)[j])
    {
      assert !ByDir(sorted[j], sorted[i]) && sorted[i] != sorted[j];
      assert sorted[i] in sorted && sorted[j] in sorted;
      assert sorted[i] in members && sorted[j] in members;
      LessTotal(sorted[i].configDir, sorted[j].configDir);
    }
    assert forall m :: m in sorted <==> m in members;
    SameMembersSameRows(members, sorted);
  }

  // ------------------------------------------------------------ one operation on the map

  predicate MayReconcile(rows: map<string, Row>, m: Member, live: Ownership) {
    m.configDir in live ==>
      live[m.configDir] == m.pool && (m.configDir in rows ==> rows[m.configDir].pool == live[m.configDir])
  }

  function Reconciled(rows: map<string, Row>, m: Member, live: Ownership): map<string, Row> {
    if MayReconcile(rows, m, live) then rows[m.configDir := Row(m.sourceCwd, m.pool)] else rows
  }

  function Removed(rows: map<string, Row>, dir: string, live: Ownership): map<string, Row> {
    if dir in live then rows else rows - {dir}
  }

  /** A row with a live owner is never removed and never moved to another pool. */
  lemma {:induction false} LiveRowsStay(rows: map<string, Row>, m: Member, dir: string, live: Ownership, d: string)
    requires d in live && d in rows
    ensures d in Reconciled(rows, m, live) && Reconciled(rows, m, live)[d].pool == rows[d].pool
    ensures d in Removed(rows, dir, live) && Removed(rows, dir, live)[d] == rows[d]
  {
  }

  // ------------------------------------------------------------ the stored document

  class Registry {
    var file: Option<Document>

    ghost predicate Valid()
      reads this
    {
      file.Some? ==> GoodDocument(file.value)
    }

    // The document a reader sees: an absent file is an empty registry.
    ghost function Contents(): map<string, Row>
      reads this
    {
      if file.Some? then Rows(file.value.members) else map[]
    }

    function Revision(): string
      reads this
    {
      if file.Some? then file.value.revision else ""
    }

    constructor ()
      ensures Valid() && Contents() == map[] && Revision() == ""
    {
      file := None;
    }

    // Members in the order of the document, validated on the way.
    method Read() returns (doc: Option<Document>)
      ensures Valid() <==> doc.Some?
      ensures doc.Some? ==> doc.value == if file.Some? then file.value else Document(MembershipFormat, "", [])
    {
      if file.None? {
        return Some(Document(MembershipFormat, "", []));
      }
      var ok := ValidateDocument(file.value);
      doc := if ok then file else None;
    }

    static method ValidateDocument(doc: Document) returns (ok: bool)
      ensures ok <==> GoodDocument(doc)
    {
      hide GoodMember, Less;
      if doc.format != MembershipFormat || !(RevisionPrefix <= doc.revision) {
        return false;
      }
      var seen: set<string> := {};
      for i := 0 to |doc.members|
        invariant forall k :: 0 <= k < i ==> GoodMember(doc.members[k])
        invariant forall d :: d in seen <==> exists k :: 0 <= k < i && doc.members[k].configDir == d
      {
        var m := doc.members[i];
        if !GoodMember(m) {
          return false;
        }
        if m.configDir in seen {
          RepeatIsNotSorted(doc.members, i);
          return false;
        }
        seen := seen + {m.configDir};
      }
      var dirs := Dirs(doc.members);
      var i := 1;
      while i < |dirs|
        invariant 1 <= i
        invariant forall k :: 1 <= k < i && k < |dirs| ==> Less(dirs[k - 1], dirs[k])
      {
        if !Less(dirs[i - 1], dirs[i]) {
          return false;
        }
        i := i + 1;
      }
      NeighboursSort(dirs);
      ok := true;
    }

    // Adds or updates one row in one replacement of the document.
    method Reconcile(m: Member, live: Ownership, revision: string, writeOk: bool) returns (outcome: Outcome)
      requires Valid() && RevisionPrefix <= revision
      modifies this
      ensures Valid()
      ensures outcome == Invalid <==> !GoodMember(m)
      ensures outcome == StopRequired <==> GoodMember(m) && !MayReconcile(old(Contents()), m, live)
      ensures outcome == StopRequired <==>
                GoodMember(m) && m.configDir in live
                && (live[m.configDir] != m.pool
                    || (m.configDir in old(Contents()) && old(Contents())[m.configDir].pool != live[m.configDir]))
      ensures outcome == Unchanged <==>
                GoodMember(m) && MayReconcile(old(Contents()), m, live)
                && m.configDir in old(Contents()) && old(Contents())[m.configDir] == Row(m.sourceCwd, m.pool)
      ensures outcome == WriteFailed ==> !writeOk
      ensures outcome == Changed ==> Revision() == revision
      ensures outcome != Changed ==> file == old(file)
      ensures outcome in {Changed, Unchanged} ==> Contents() == Reconciled(old(Contents()), m, live)
      ensures outcome in {Changed, Unchanged} ==> Contents() == old(Contents())[m.configDir := Row(m.sourceCwd, m.pool)]
    {
      hide GoodMember, GoodDocument, Rows, StrictlySorted, SortBy, Less, RevisionPrefix;
      if !GoodMember(m) {
        return Invalid;
      }
      var read := Read();
      var members := read.value.members;
      StoredMembers(file, members);
      var owned := m.configDir in live;
      var i := 0;
      while i < |members| && members[i].configDir != m.configDir
        invariant 0 <= i <= |members|
        invariant forall k :: 0 <= k < i ==> members[k].configDir != m.configDir
      {
        i := i + 1;
      }
      if i < |members| {
        FoundRow(members, i);
        if owned && (live[m.configDir] != m.pool || members[i].pool != live[m.configDir]) {
          return StopRequired;
        }
        if members[i] == m {
          RowAlreadyThere(members, i, m);
          return Unchanged;
        }
        UpdatedRow(members, i, m);
        members := members[i := m];
      } else {
        MissingRow(members, m.configDir);
        if owned && live[m.configDir] != m.pool {
          return StopRequired;
        }
        AddedRow(members, m);
        ghost var before := members;
        members := SortBy(ByDir, members + [m]);
        assert forall i :: 0 <= i < |members| ==> members[i] in before || members[i] == m;
      }
      outcome := Replace(members, revision, writeOk);
    }

    // Deletes one row; a live owner refuses the removal.
    method Remove(dir: string, live: Ownership, revision: string, writeOk: bool) returns (outcome: Outcome)
      requires Valid() && RevisionPrefix <= revision
      modifies this
      ensures Valid()
      ensures outcome == Invalid <==> !Canonical(dir)
      ensures outcome == StopRequired <==> Canonical(dir) && dir in live
      ensures outcome == Unchanged <==> Canonical(dir) && dir !in live && dir !in old(Contents())
      ensures outcome == WriteFailed ==> !writeOk
      ensures outcome == Changed ==> Revision() == revision
      ensures outcome != Changed ==> file == old(file)
      ensures outcome in {Changed, Unchanged} ==> Contents() == Removed(old(Contents()), dir, live)
    {
      hide GoodMember, GoodDocument, Rows, StrictlySorted, SortBy, Less, RevisionPrefix, Canonical;
      if !Canonical(dir) {
        return Invalid;
      }
      var read := Read();
      var members := read.value.members;
      StoredMembers(file, members);
      if dir in live {
        return StopRequired;
      }
      var i := 0;
      while i < |members| && members[i].configDir != dir
        invariant 0 <= i <= |members|
        invariant forall k :: 0 <= k < i ==> members[k].configDir != dir
      {
        i := i + 1;
      }
      if i == |members| {
        MissingRow(members, dir);
        assert Rows(members) - {dir} == Rows(members);
        return Unchanged;
      }
      FoundRow(members, i);
      DeletedRow(members, i);
      outcome := Replace(members[..i] + members[i + 1..], revision, writeOk);
    }

    // Stores a new revision; nothing is lost when the write fails.
    method Replace(members: seq<Member>, revision: string, writeOk: bool) returns (outcome: Outcome)
      requires Valid() && RevisionPrefix <= revision
      requires StrictlySorted(Dirs(members)) && forall i :: 0 <= i < |members| ==> GoodMember(members[i])
      modifies this
      ensures Valid()
      ensures outcome == if writeOk then Changed else WriteFailed
      ensures file == if writeOk then Some(Document(MembershipFormat, revision, members)) else old(file)
    {
      hide GoodMember, Less;
      if !writeOk {
        return WriteFailed;
      }
      file := Some(Document(MembershipFormat, revision, members));
      outcome := Changed;
    }

    // The rows of one pool, in document order; a blank name or a bad document is refused.
    method Snapshot(pool: string) returns (rows: Option<seq<Member>>, revision: string)
      ensures rows.Some? <==> !Blank(pool) && Valid()
      ensures rows.Some? ==>
                revision == Revision() && StrictlySorted(Dirs(rows.value)) && Rows(rows.value) == PoolRows(Contents(), pool)
    {
      hide GoodMember, Less, Blank;
      if Blank(pool) {
        return None, "";
      }
      var read := Read();
      if read.None? {
        return None, "";
      }
      var members := read.value.members;
      var selected := [];
      StoredMembers(file, members);
      for i := 0 to |members|
        invariant selected == OfPool(members[..i], pool)
      {
        assert members[..i + 1][..i] == members[..i];
        if members[i].pool == pool {
          selected := selected + [members[i]];
        }
      }
      assert members[..|members|] == members;
      rows, revision := Some(selected), read.value.revision;
      SnapshotRows(members, pool);
    }
  }

  function OfPool(members: seq<Member>, pool: string): seq<Member> {
    if members == [] then []
    else
      var last := members[|members| - 1];
      OfPool(members[..|members| - 1], pool) + if last.pool == pool then [last] else []
  }

  ghost function PoolRows(rows: map<string, Row>, pool: string): map<string, Row> {
    map d | d in rows && rows[d].pool == pool :: rows[d]
  }

  lemma {:induction false} OfPoolMembers(members: seq<Member>, pool: string)
    requires StrictlySorted(Dirs(members))
    ensures forall m :: m in OfPool(members, pool) <==> m in members && m.pool == pool
    ensures StrictlySorted(Dirs(OfPool(members, pool)))
  {
    if members != [] {
      var init, last := members[..|members| - 1], members[|members| - 1];
      assert members == init + [last];
      PrefixSorted(members);
      OfPoolMembers(init, pool);
      var rest := OfPool(init, pool);
      assert rest + [] == rest;
      assert OfPool(members, pool) == if last.pool == pool then rest + [last] else rest;
      hide OfPool, Less;
      if last.pool == pool {
        forall m | m in rest
          ensures Less(m.configDir, last.configDir)
        {
          var i :| 0 <= i < |init| && init[i] == m;
          DirsDiffer(members, i, |members| - 1);
        }
        AppendSorted(rest, last);
      }
    }
  }

  lemma {:induction false} PrefixSorted(members: seq<Member>)
    requires StrictlySorted(Dirs(members)) && members != []
    ensures StrictlySorted(Dirs(members[..|members| - 1]))
  {
    hide Less;
    var init := members[..|members| - 1];
    forall i, j | 0 <= i < j < |init|
      ensures Less(Dirs(init)[i], Dirs(init)[j])
    {
      assert Less(Dirs(members)[i], Dirs(members)[j]);
    }
  }

  lemma {:induction false} AppendSorted(members: seq<Member>, m: Member)
    requires StrictlySorted(Dirs(members)) && forall x :: x in members ==> Less(x.configDir, m.configDir)
    ensures StrictlySorted(Dirs(members + [m]))
  {
    hide Less;
    var more := members + [m];
    forall i, j | 0 <= i < j < |more|
      ensures Less(Dirs(more)[i], Dirs(more)[j])
    {
      if j < |members| {
        assert Less(Dirs(members)[i], Dirs(members)[j]);
      } else {
        assert members[i] in members;
      }
    }
  }

  lemma {:induction false} SnapshotRows(members: seq<Member>, pool: string)
    requires StrictlySorted(Dirs(members))
    ensures StrictlySorted(Dirs(OfPool(members, pool))) && Rows(OfPool(members, pool)) == PoolRows(Rows(members), pool)
  {
    OfPoolMembers(members, pool);
    SortedRows(members);
    SortedRows(OfPool(members, pool));
    hide OfPool, StrictlySorted, Rows;
    var rows := OfPool(members, pool);
    forall d
      ensures d in Rows(rows) <==> d in PoolRows(Rows(members), pool)
    {
      if d in PoolRows(Rows(members), pool) {
        assert Member(d, Rows(members)[d].sourceCwd, Rows(members)[d].pool) in rows;
      }
      if d in Rows(rows) {
        assert Member(d, Rows(rows)[d].sourceCwd, Rows(rows)[d].pool) in members;
      }
    }
    forall d | d in Rows(rows)
      ensures Rows(rows)[d] == Rows(members)[d]
    {
      assert Member(d, Rows(rows)[d].sourceCwd, Rows(rows)[d].pool) in members;
    }
  }

  lemma {:induction false} RepeatIsNotSorted(members: seq<Member>, i: nat)
    requires i < |members| && exists k :: 0 <= k < i && members[k].configDir == members[i].configDir
    ensures !StrictlySorted(Dirs(members))
  {
    var k :| 0 <= k < i && members[k].configDir == members[i].configDir;
    LessIrreflexive(members[i].configDir);
    assert Dirs(members)[k] == Dirs(members)[i];
    assert !Less(Dirs(members)[k], Dirs(members)[i]);
  }

  lemma {:induction false} StoredMembers(file: Option<Document>, members: seq<Member>)
    requires file.Some? ==> GoodDocument(file.value)
    requires members == if file.Some? then file.value.members else []
    ensures StrictlySorted(Dirs(members)) && (forall i :: 0 <= i < |members| ==> GoodMember(members[i]))
    ensures Rows(members) == if file.Some? then Rows(file.value.members) else map[]
  {
  }

  lemma {:induction false} FoundRow(members: seq<Member>, i: nat)
    requires StrictlySorted(Dirs(members)) && i < |members|
    ensures members[i].configDir in Rows(members)
    ensures Rows(members)[members[i].configDir] == Row(members[i].sourceCwd, members[i].pool)
  {
    SortedRows(members);
  }

  lemma {:induction false} MissingRow(members: seq<Member>, dir: string)
    requires forall k :: 0 <= k < |members| ==> members[k].configDir != dir
    ensures dir !in Rows(members)
  {
    RowsHold(members);
    hide Rows;
  }

  lemma {:induction false} RowAlreadyThere(members: seq<Member>, i: nat, m: Member)
    requires StrictlySorted(Dirs(members)) && i < |members| && members[i] == m
    ensures Rows(members)[m.configDir := Row(m.sourceCwd, m.pool)] == Rows(members)
  {
    SortedRows(members);
  }

  lemma {:induction false} UpdatedRow(members: seq<Member>, i: nat, m: Member)
    requires StrictlySorted(Dirs(members)) && i < |members| && members[i].configDir == m.configDir
    ensures StrictlySorted(Dirs(members[i := m]))
    ensures Rows(members[i := m]) == Rows(members)[m.configDir := Row(m.sourceCwd, m.pool)]
  {
    var more := members[i := m];
    assert Dirs(more) == Dirs(members);
    SortedRows(members);
    SortedRows(more);
    hide Rows, StrictlySorted;
    assert more[i] == m && m in more;
    forall d
      ensures d in Rows(more) <==> d in Rows(members)
    {
      InDirs(members, d);
      InDirs(more, d);
    }
    InDirs(members, m.configDir);
    assert Dirs(members)[i] == m.configDir;
    forall d | d in Rows(more) && d != m.configDir
      ensures Rows(more)[d] == Rows(members)[d]
    {
      var x := Member(d, Rows(more)[d].sourceCwd, Rows(more)[d].pool);
      var k :| 0 <= k < |more| && more[k] == x;
      assert members[k] == x;
    }
  }

  lemma {:induction false} AddedRow(members: seq<Member>, m: Member)
    requires StrictlySorted(Dirs(members)) && m.configDir !in Rows(members)
    ensures var more := SortBy(ByDir, members + [m]);
            StrictlySorted(Dirs(more)) && (forall x :: x in more <==> x in members || x == m)
            && Rows(more) == Rows(members)[m.configDir := Row(m.sourceCwd, m.pool)]
  {
    SortedRows(members);
    hide SortBy, Less;
    var more := members + [m];
    forall a, b | a in more && b in more && a.configDir == b.configDir
      ensures a == b
    {
      if a in members {
        assert a.configDir in Rows(members);
      }
      if b in members {
        assert b.configDir in Rows(members);
      }
    }
    forall i, j | 0 <= i < j < |more|
      ensures more[i] != more[j]
    {
      if j < |members| {
        DirsDiffer(members, i, j);
      } else {
        assert members[i].configDir in Rows(members);
      }
    }
    SortMembers(more);
    RowsOfAppend(members, m);
  }

  lemma {:induction false} RowsOfAppend(members: seq<Member>, m: Member)
    ensures Rows(members + [m]) == Rows(members)[m.configDir := Row(m.sourceCwd, m.pool)]
  {
    assert (members + [m])[..|members|] == members;
  }

  lemma {:induction false} DeletedRow(members: seq<Member>, i: nat)
    requires StrictlySorted(Dirs(members)) && i < |members|
    ensures var less := members[..i] + members[i + 1..];
            StrictlySorted(Dirs(less)) && (forall x :: x in less ==> x in members)
            && Rows(less) == Rows(members) - {members[i].configDir}
  {
    var less := members[..i] + members[i + 1..];
    hide Less, Rows;
    forall a, b | 0 <= a < b < |less|
      ensures Less(Dirs(less)[a], Dirs(less)[b])
    {
      DirsDiffer(members, if a < i then a else a + 1, if b < i then b else b + 1);
    }
    SortedRows(members);
    SortedRows(less);
    DeletedMembers(members, i);
    hide StrictlySorted, Dirs;
    forall d
      ensures d in Rows(less) <==> d in Rows(members) && d != members[i].configDir
    {
      if d in Rows(less) {
        assert Member(d, Rows(less)[d].sourceCwd, Rows(less)[d].pool) in less;
      }
      if d in Rows(members) && d != members[i].configDir {
        assert Member(d, Rows(members)[d].sourceCwd, Rows(members)[d].pool) in less;
      }
    }
    forall d | d in Rows(less)
      ensures Rows(less)[d] == Rows(members)[d]
    {
      assert Member(d, Rows(less)[d].sourceCwd, Rows(less)[d].pool) in members;
    }
  }

  // Deleting one entry deletes exactly that directory.
  lemma {:induction false} DeletedMembers(members: seq<Member>, i: nat)
    requires StrictlySorted(Dirs(members)) && i < |members|
    ensures forall x :: x in members[..i] + members[i + 1..] <==> x in members && x.configDir != members[i].configDir
  {
    var less := members[..i] + members[i + 1..];
    hide StrictlySorted, Dirs;
    forall x | x in less
      ensures x in members && x.configDir != members[i].configDir
    {
      var k :| 0 <= k < |less| && less[k] == x;
      DirDiffersFrom(members, if k < i then k else k + 1, i);
    }
    forall x | x in members && x.configDir != members[i].configDir
      ensures x in less
    {
      var k :| 0 <= k < |members| && members[k] == x;
      assert less[if k < i then k else k - 1] == x;
    }
  }

  lemma {:induction false} DirDiffersFrom(members: seq<Member>, i: nat, j: nat)
    requires StrictlySorted(Dirs(members)) && i < |members| && j < |members| && i != j
    ensures members[i].configDir != members[j].configDir
  {
    if i < j {
      DirsDiffer(members, i, j);
    } else {
      DirsDiffer(members, j, i);
    }
  }
}
