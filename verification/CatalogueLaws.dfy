/**
 History and guard invariants, over every sequence of mapping versions, import
 creations and run transitions.
 */
module CatalogueLaws {
  import opened Values
  import opened Mappings
  import opened Catalogue
  import J = JobQueue

  // ----------------------------------------------------------------- history

  /** Versions of a name grow with the rows. */
  predicate Growing(rows: seq<MappingRow>) {
    forall i, j :: 0 <= i < j < |rows| && SameLine(rows[i], rows[j]) ==> rows[i].version < rows[j].version
  }

  /** Each version follows the one before it. */
  predicate Chained(rows: seq<MappingRow>) {
    forall j :: 0 <= j < |rows| ==> rows[j].version == 1 || Follows(rows, j)
  }

  /** Only the newest version is active. */
  predicate NewestActive(rows: seq<MappingRow>) {
    forall j :: 0 <= j < |rows| ==> (rows[j].status.Active? <==> Newest(rows, j))
  }

  predicate History(rows: seq<MappingRow>) {
    Growing(rows) && Chained(rows) && NewestActive(rows)
  }

  predicate Follows(rows: seq<MappingRow>, j: nat)
    requires j < |rows|
  {
    rows[j].version > 1 && exists i :: 0 <= i < j && SameLine(rows[i], rows[j]) && rows[i].version == rows[j].version - 1
  }

  predicate Newest(rows: seq<MappingRow>, j: nat)
    requires j < |rows|
  {
    forall k :: j < k < |rows| ==> !SameLine(rows[k], rows[j])
  }

  /** A row of each version from 1 up to a stored one. */
  lemma {:induction false} EarlierVersion(rows: seq<MappingRow>, j: nat, version: int) returns (i: nat)
    requires History(rows) && j < |rows| && 1 <= version <= rows[j].version
    ensures i <= j && SameLine(rows[i], rows[j]) && rows[i].version == version
    decreases j
  {
    if rows[j].version == version {
      i := j;
    } else {
      assert Follows(rows, j);
      var before :| 0 <= before < j && SameLine(rows[before], rows[j]) && rows[before].version == rows[j].version - 1;
      i := EarlierVersion(rows, before, version);
    }
  }

  /** The versions of a name are exactly 1 to the latest, each once, and only
      the latest is active. */
  lemma {:induction false} VersionsAreExact(rows: seq<MappingRow>, source: nat, name: string, version: int)
    requires History(rows)
    ensures var latest := Latest(rows, source, name);
            && ((latest.Some? && 1 <= version <= latest.value) <==>
                  exists i :: 0 <= i < |rows| && Named(rows[i], source, name) && rows[i].version == version)
            && (forall i, j :: 0 <= i < j < |rows| && Named(rows[i], source, name) && Named(rows[j], source, name) ==>
                  rows[i].version != rows[j].version)
            && (forall i :: 0 <= i < |rows| && Named(rows[i], source, name) ==>
                  (rows[i].status.Active? <==> latest == Some(rows[i].version)))
  {
    var latest := Latest(rows, source, name);
    LatestIs(rows, source, name);
    if latest.Some? {
      var j :| 0 <= j < |rows| && Named(rows[j], source, name) && rows[j].version == latest.value;
      if 1 <= version <= latest.value {
        var i := EarlierVersion(rows, j, version);
        assert Named(rows[i], source, name) && rows[i].version == version;
      }
      forall i | 0 <= i < |rows| && Named(rows[i], source, name)
        ensures rows[i].status.Active? <==> latest == Some(rows[i].version)
      {
        OnlyLatestActive(rows, source, name, i, j);
      }
    }
    forall i | 0 <= i < |rows| && Named(rows[i], source, name) ensures rows[i].version >= 1 {
      assert rows[i].version == 1 || Follows(rows, i);
    }
  }

  lemma OnlyLatestActive(rows: seq<MappingRow>, source: nat, name: string, i: nat, j: nat)
    requires History(rows) && i < |rows| && j < |rows| && Named(rows[i], source, name) && Named(rows[j], source, name)
    requires forall k :: 0 <= k < |rows| && Named(rows[k], source, name) ==> rows[k].version <= rows[j].version
    ensures rows[i].status.Active? <==> rows[i].version == rows[j].version
  {
    assert forall k :: 0 <= k < |rows| && SameLine(rows[k], rows[j]) ==> Named(rows[k], source, name);
    assert Newest(rows, j);
    if i < j {
      assert SameLine(rows[j], rows[i]) && !Newest(rows, i);
    }
  }

  lemma GrowingMore(rows: seq<MappingRow>, row: MappingRow)
    requires Growing(rows) && forall i :: 0 <= i < |rows| && SameLine(rows[i], row) ==> rows[i].version < row.version
    ensures Growing(rows + [row])
  {
  }

  lemma FollowsMore(rows: seq<MappingRow>, row: MappingRow, j: nat)
    requires j < |rows| && Follows(rows, j)
    ensures Follows(rows + [row], j)
  {
    var i :| 0 <= i < j && SameLine(rows[i], rows[j]) && rows[i].version == rows[j].version - 1;
    assert (rows + [row])[i] == rows[i];
  }

  lemma ChainedMore(rows: seq<MappingRow>, row: MappingRow)
    requires Chained(rows) && (row.version == 1 || Follows(rows + [row], |rows|))
    ensures Chained(rows + [row])
  {
    hide Follows;
    forall j | 0 <= j < |rows| && Follows(rows, j) ensures Follows(rows + [row], j) {
      FollowsMore(rows, row, j);
    }
  }

  lemma NewestMore(rows: seq<MappingRow>, row: MappingRow, j: nat)
    requires j < |rows|
    ensures Newest(rows + [row], j) <==> Newest(rows, j) && !SameLine(row, rows[j])
    ensures Newest(rows + [row], |rows|)
  {
    assert (rows + [row])[|rows|] == row;
    assert forall k :: 0 <= k < |rows| ==> (rows + [row])[k] == rows[k];
  }

  lemma {:induction false} Appended(rows: seq<MappingRow>, row: MappingRow)
    requires History(rows) && row.status.Active? && row.version == 1
    requires forall i :: 0 <= i < |rows| ==> !SameLine(rows[i], row)
    ensures History(rows + [row])
  {
    GrowingMore(rows, row);
    ChainedMore(rows, row);
    hide Growing, Chained, Newest;
    forall j | 0 <= j < |rows| ensures Newest(rows + [row], j) <==> Newest(rows, j) {
      NewestMore(rows, row, j);
      assert !SameLine(rows[j], row);
    }
    if rows != [] {
      NewestMore(rows, row, 0);
    } else {
      FirstIsNewest(row);
      assert rows + [row] == [row];
    }
  }

  lemma FirstIsNewest(row: MappingRow)
    ensures Newest([row], 0)
  {
  }

  /** Superseding changes the status of one row only. */
  function Retired(rows: seq<MappingRow>, previous: nat): seq<MappingRow>
    requires previous < |rows|
  {
    rows[previous := rows[previous].(status := Superseded)]
  }

  lemma RetiredKeeps(rows: seq<MappingRow>, previous: nat)
    requires previous < |rows|
    ensures Growing(Retired(rows, previous)) <==> Growing(rows)
    ensures Chained(rows) ==> Chained(Retired(rows, previous))
    ensures forall j :: 0 <= j < |rows| ==> (Newest(Retired(rows, previous), j) <==> Newest(rows, j))
  {
    var after := Retired(rows, previous);
    assert forall i, j :: 0 <= i < |rows| && 0 <= j < |rows| ==> (SameLine(after[i], after[j]) <==> SameLine(rows[i], rows[j]));
    assert forall i :: 0 <= i < |rows| ==> after[i].version == rows[i].version;
    if Chained(rows) {
      forall j | 0 <= j < |rows| && rows[j].version != 1 ensures Follows(after, j) {
        assert Follows(rows, j);
        var i :| 0 <= i < j && SameLine(rows[i], rows[j]) && rows[i].version == rows[j].version - 1;
        assert SameLine(after[i], after[j]);
      }
    }
  }

  lemma NewestIsHighest(rows: seq<MappingRow>, previous: nat, row: MappingRow)
    requires Growing(rows) && previous < |rows| && Newest(rows, previous) && SameLine(rows[previous], row)
    ensures forall i :: 0 <= i < |rows| && SameLine(rows[i], row) ==> i <= previous && rows[i].version <= rows[previous].version
  {
    forall i | 0 <= i < |rows| && SameLine(rows[i], row) ensures i <= previous && rows[i].version <= rows[previous].version {
      assert SameLine(rows[i], rows[previous]);
    }
  }

  lemma ReplacedFollows(rows: seq<MappingRow>, previous: nat, row: MappingRow)
    requires Chained(rows) && previous < |rows| && SameLine(rows[previous], row) && row.version == rows[previous].version + 1
    ensures Follows(Retired(rows, previous) + [row], |rows|)
  {
    var after := Retired(rows, previous) + [row];
    assert rows[previous].version == 1 || Follows(rows, previous);
    assert after[previous] == rows[previous].(status := Superseded) && after[|rows|] == row;
  }

  lemma ReplacedActive(rows: seq<MappingRow>, previous: nat, row: MappingRow, j: nat)
    requires NewestActive(rows) && previous < |rows| && Newest(rows, previous) && SameLine(rows[previous], row) && j < |rows|
    requires Newest(Retired(rows, previous), j) <==> Newest(rows, j)
    requires SameLine(rows[j], row) ==> j <= previous
    ensures (Retired(rows, previous) + [row])[j].status.Active? <==> Newest(Retired(rows, previous) + [row], j)
  {
    hide Newest;
    NewestMore(Retired(rows, previous), row, j);
    if j != previous && SameLine(rows[j], row) {
      NotNewest(rows, j, previous);
    }
  }

  lemma {:induction false} Replaced(rows: seq<MappingRow>, previous: nat, row: MappingRow)
    requires History(rows) && previous < |rows| && Newest(rows, previous)
    requires row.status.Active? && SameLine(rows[previous], row) && row.version == rows[previous].version + 1
    ensures History(Retired(rows, previous) + [row])
  {
    hide Growing, Chained, Newest, Follows;
    var n, retired := |rows|, Retired(rows, previous);
    var after := retired + [row];
    RetiredKeeps(rows, previous);
    NewestIsHighest(rows, previous, row);
    ReplacedFollows(rows, previous, row);
    ChainedMore(retired, row);
    assert forall i :: 0 <= i < n ==> (SameLine(retired[i], row) <==> SameLine(rows[i], row)) && retired[i].version == rows[i].version;
    GrowingMore(retired, row);
    NewestMore(retired, row, 0);
    forall j | 0 <= j < n ensures after[j].status.Active? <==> Newest(after, j) {
      ReplacedActive(rows, previous, row, j);
    }
  }

  lemma NotNewest(rows: seq<MappingRow>, j: nat, later: nat)
    requires j < later < |rows| && SameLine(rows[j], rows[later])
    ensures !Newest(rows, j)
  {
  }

  // ------------------------------------------------------------------- guard

  predicate Coherent(books: Books, run: RunRow) {
    && run.source in books.sources && run.file in books.files && run.mapping < |books.mappings|
    && books.mappings[run.mapping].source == run.source
    && books.mappings[run.mapping].format == books.files[run.file]
  }

  /** Two runs that both block are for different files or mappings. */
  predicate OneBlocking(runs: seq<RunRow>) {
    forall i, j :: 0 <= i < j < |runs| && Blocking(runs[i].status) && Blocking(runs[j].status) ==>
      runs[i].file != runs[j].file || runs[i].mapping != runs[j].mapping
  }

  predicate Sound(books: Books) {
    && History(books.mappings)
    && (forall i :: 0 <= i < |books.mappings| ==> books.mappings[i].source in books.sources)
    && (forall i :: 0 <= i < |books.runs| ==> Coherent(books, books.runs[i]))
    && OneBlocking(books.runs)
  }

  /** The steps of the catalogue. The router creates a mapping at version 1. */
  datatype Step =
    | AddSource(source: nat)
    | AddFile(file: nat, format: string)
    | CreateMapping(draft: Draft, owner: Option<nat>)
    | NewVersion(draft: Draft, owner: Option<nat>, previous: nat)
    | QueueImport(source: nat, file: nat, mapping: nat)
    | Claim(run: nat)
    | Finish(run: nat, status: J.Status)

  predicate Possible(books: Books, step: Step) {
    match step
    case AddFile(file, _) => file !in books.files
    case CreateMapping(draft, _) => draft.version == 1
    case Claim(run) => run < |books.runs| && books.runs[run].status.Pending?
    case Finish(run, status) => run < |books.runs| && !books.runs[run].status.Pending? && J.Terminal(status)
                                && (status.Succeeded? ==> Blocking(books.runs[run].status))
    case _ => true
  }

  function SetStatus(books: Books, run: nat, status: J.Status): Books
    requires run < |books.runs|
  {
    books.(runs := books.runs[run := books.runs[run].(status := status)])
  }

  function OrSame(books: Books, outcome: Result<Books, Refusal>): Books {
    if outcome.Ok? then outcome.value else books
  }

  function Next(rt: Runtime, books: Books, step: Step): Books
    requires Possible(books, step)
  {
    match step
    case AddSource(source) => books.(sources := books.sources + {source})
    case AddFile(file, format) => books.(files := books.files[file := format])
    case CreateMapping(draft, source) => OrSame(books, Created(rt, books, draft, source))
    case NewVersion(draft, source, previous) => OrSame(books, Versioned(rt, books, draft, source, previous))
    case QueueImport(source, file, mapping) => OrSame(books, Queued(books, source, file, mapping))
    case Claim(run) => SetStatus(books, run, J.Running)
    case Finish(run, status) => SetStatus(books, run, status)
  }

  predicate Enactable(rt: Runtime, books: Books, steps: seq<Step>)
    decreases |steps|
  {
    steps != [] ==> Possible(books, steps[0]) && Enactable(rt, Next(rt, books, steps[0]), steps[1..])
  }

  function After(rt: Runtime, books: Books, steps: seq<Step>): Books
    requires Enactable(rt, books, steps)
    decreases |steps|
  {
    if steps == [] then books else After(rt, Next(rt, books, steps[0]), steps[1..])
  }

  /** Runs keep their mapping's source and format: rows only change status. */
  lemma StillCoherent(books: Books, later: Books)
    requires Sound(books) && later.runs == books.runs && books.sources <= later.sources
    requires forall file :: file in books.files ==> file in later.files && later.files[file] == books.files[file]
    requires |books.mappings| <= |later.mappings|
    requires forall i :: 0 <= i < |books.mappings| ==>
               later.mappings[i].source == books.mappings[i].source && later.mappings[i].format == books.mappings[i].format
    ensures forall i :: 0 <= i < |later.runs| ==> Coherent(later, later.runs[i])
  {
    forall i | 0 <= i < |later.runs| ensures Coherent(later, later.runs[i]) {
      assert Coherent(books, books.runs[i]);
    }
  }

  /** New rows of mappings keep the books sound when they keep the history. */
  lemma WithMappings(books: Books, rows: seq<MappingRow>)
    requires Sound(books) && History(rows) && |books.mappings| <= |rows|
    requires forall i :: 0 <= i < |books.mappings| ==> rows[i].source == books.mappings[i].source && rows[i].format == books.mappings[i].format
    requires forall i :: |books.mappings| <= i < |rows| ==> rows[i].source in books.sources
    ensures Sound(books.(mappings := rows))
  {
    hide History, OneBlocking, Coherent;
    StillCoherent(books, books.(mappings := rows));
  }

  /** A name that has rows has a version 1. */
  lemma NoneOfLine(rows: seq<MappingRow>, row: MappingRow)
    requires Growing(rows) && Chained(rows) && NewestActive(rows) && Allowed(rows, row) && row.version == 1
    ensures forall j :: 0 <= j < |rows| ==> !SameLine(rows[j], row)
  {
    hide Growing, NewestActive;
    forall j | 0 <= j < |rows| ensures !SameLine(rows[j], row) {
      assert rows[j].version == 1 || Follows(rows, j);
      var i := EarlierVersion(rows, j, 1);
      assert SameLine(rows[j], row) <==> SameLine(rows[i], row);
    }
  }

  lemma CreatedRows(rt: Runtime, books: Books, draft: Draft, source: Option<nat>)
    requires Created(rt, books, draft, source).Ok?
    ensures source.Some? && source.value in books.sources
    ensures Allowed(books.mappings, Row(draft, source.value))
    ensures Created(rt, books, draft, source).value == books.(mappings := books.mappings + [Row(draft, source.value)])
  {
    hide Listed, Checked, Allowed;
  }

  lemma {:induction false} CreateIsSound(rt: Runtime, books: Books, draft: Draft, source: Option<nat>)
    requires Sound(books) && draft.version == 1 && Created(rt, books, draft, source).Ok?
    ensures Sound(Created(rt, books, draft, source).value)
  {
    CreatedRows(rt, books, draft, source);
    hide Created, Growing, Chained, NewestActive, Coherent, OneBlocking, Allowed, SameLine;
    var row := Row(draft, source.value);
    NoneOfLine(books.mappings, row);
    Appended(books.mappings, row);
    WithMappings(books, books.mappings + [row]);
  }

  /** Only the newest version can be replaced. */
  lemma {:induction false} ReplacesNewest(rt: Runtime, books: Books, draft: Draft, source: Option<nat>, previous: nat)
    requires History(books.mappings) && Versioned(rt, books, draft, source, previous).Ok?
    ensures previous < |books.mappings| && Newest(books.mappings, previous) && books.mappings[previous].status.Active?
  {
    hide Checked;
    var rows := books.mappings;
    LatestIs(rows, rows[previous].source, rows[previous].name);
    forall k | previous < k < |rows| ensures !SameLine(rows[k], rows[previous]) {
      assert SameLine(rows[previous], rows[k]) <==> SameLine(rows[k], rows[previous]);
      assert Named(rows[k], rows[previous].source, rows[previous].name) <==> SameLine(rows[k], rows[previous]);
    }
    assert Named(rows[previous], rows[previous].source, rows[previous].name);
    assert Newest(rows, previous);
  }

  lemma VersionedRows(rt: Runtime, books: Books, draft: Draft, source: Option<nat>, previous: nat)
    requires Versioned(rt, books, draft, source, previous).Ok?
    ensures previous < |books.mappings|
    ensures var current := books.mappings[previous];
            var row := Row(draft.(name := current.name, version := current.version + 1), current.source);
            && Versioned(rt, books, draft, source, previous).value == books.(mappings := Retired(books.mappings, previous) + [row])
            && SameLine(current, row) && row.status.Active?
  {
    hide Latest, Checked, Allowed;
  }

  lemma {:induction false} VersionIsSound(rt: Runtime, books: Books, draft: Draft, source: Option<nat>, previous: nat)
    requires Sound(books) && Versioned(rt, books, draft, source, previous).Ok?
    ensures Sound(Versioned(rt, books, draft, source, previous).value)
  {
    ReplacesNewest(rt, books, draft, source, previous);
    VersionedRows(rt, books, draft, source, previous);
    hide Versioned, Newest, History, OneBlocking, SameLine, Coherent;
    var current := books.mappings[previous];
    var row := Row(draft.(name := current.name, version := current.version + 1), current.source);
    Replaced(books.mappings, previous, row);
    WithMappings(books, Retired(books.mappings, previous) + [row]);
  }

  lemma {:induction false} QueueIsSound(books: Books, source: nat, file: nat, mapping: nat)
    requires Sound(books) && Queued(books, source, file, mapping).Ok?
    ensures Sound(Queued(books, source, file, mapping).value)
  {
    BlockerIs(books.runs, file, mapping);
    hide History, Blocker;
    var after := Queued(books, source, file, mapping).value;
    forall i | 0 <= i < |after.runs| ensures Coherent(after, after.runs[i]) {
      if i < |books.runs| {
        assert Coherent(books, books.runs[i]);
      }
    }
    forall i | 0 <= i < |books.runs| && Blocking(books.runs[i].status)
      ensures books.runs[i].file != file || books.runs[i].mapping != mapping
    {
      assert !Blocks(books.runs[i], file, mapping);
    }
  }

  lemma StatusIsSound(books: Books, run: nat, status: J.Status)
    requires Sound(books) && run < |books.runs| && (Blocking(status) ==> Blocking(books.runs[run].status))
    ensures Sound(SetStatus(books, run, status))
  {
    hide History;
    var after := SetStatus(books, run, status);
    forall i | 0 <= i < |after.runs| ensures Coherent(after, after.runs[i]) {
      assert Coherent(books, books.runs[i]);
    }
  }

  lemma {:induction false} StepIsSound(rt: Runtime, books: Books, step: Step)
    requires Sound(books) && Possible(books, step)
    ensures Sound(Next(rt, books, step))
  {
    hide Created, Versioned, Queued, History, SetStatus;
    match step {
      case AddSource(_) => StillCoherent(books, Next(rt, books, step));
      case AddFile(_, _) => StillCoherent(books, Next(rt, books, step));
      case CreateMapping(draft, source) =>
        if Created(rt, books, draft, source).Ok? {
          CreateIsSound(rt, books, draft, source);
        }
      case NewVersion(draft, source, previous) =>
        if Versioned(rt, books, draft, source, previous).Ok? {
          VersionIsSound(rt, books, draft, source, previous);
        }
      case QueueImport(source, file, mapping) =>
        if Queued(books, source, file, mapping).Ok? {
          QueueIsSound(books, source, file, mapping);
        }
      case Claim(run) => StatusIsSound(books, run, J.Running);
      case Finish(run, status) => StatusIsSound(books, run, status);
    }
  }

  /** Every sequence of steps keeps the histories, the runs and the guard sound. */
  lemma {:induction false} RunIsSound(rt: Runtime, books: Books, steps: seq<Step>)
    requires Sound(books) && Enactable(rt, books, steps)
    ensures Sound(After(rt, books, steps))
    decreases |steps|
  {
    hide Sound, Possible, Next;
    if steps != [] {
      StepIsSound(rt, books, steps[0]);
      RunIsSound(rt, Next(rt, books, steps[0]), steps[1..]);
    }
  }

  const EMPTY := Books({}, map[], [], [])

  lemma EmptyIsSound()
    ensures Sound(EMPTY)
  {
  }

  /** Every reachable catalogue is sound: what is built from nothing keeps its
      histories, its runs and its guard. */
  lemma {:induction false} ReachableIsSound(rt: Runtime, steps: seq<Step>)
    requires Enactable(rt, EMPTY, steps)
    ensures Sound(After(rt, EMPTY, steps))
  {
    EmptyIsSound();
    RunIsSound(rt, EMPTY, steps);
  }

  // ---------------------------------------------------------- the name guard

  lemma {:induction false} ListedAll(rows: seq<MappingRow>, source: nat, limit: nat, i: nat)
    requires i < |rows| <= limit && rows[i].source == source
    ensures rows[i] in Listed(rows, source, limit)
  {
    var n := |rows| - 1;
    if i < n {
      assert rows[..n][i] == rows[i];
      ListedAll(rows[..n], source, if rows[n].source == source then limit - 1 else limit, i);
    }
  }

  /** A name that is taken is refused, as a conflict when it is among the newest
      thousand rows of its source, and by the table's own constraint when it is
      not; with at most a thousand rows, always as a conflict. */
  lemma {:induction false} NameGuard(rt: Runtime, books: Books, draft: Draft, source: nat, i: nat)
    requires Sound(books) && draft.version == 1 && Checked(rt, draft.entities).None? && source in books.sources
    requires i < |books.mappings| && Named(books.mappings[i], source, draft.name)
    ensures Created(rt, books, draft, Some(source))
         == Err(if NameListed(Listed(books.mappings, source, LISTED), draft.name) then NameTaken else ConstraintViolated)
    ensures |books.mappings| <= LISTED ==> Created(rt, books, draft, Some(source)) == Err(NameTaken)
  {
    hide Checked, Listed, Growing, Chained, NewestActive, Coherent, OneBlocking;
    var row := Row(draft, source);
    assert SameLine(books.mappings[i], row);
    if Allowed(books.mappings, row) {
      NoneOfLine(books.mappings, row);
      assert false;
    }
    if |books.mappings| <= LISTED {
      ListedAll(books.mappings, source, LISTED, i);
    }
  }

  // ----------------------------------------------------- the two hypotheses

  /** A first version other than 1 breaks the history: exactly so. */
  lemma {:induction false} FirstVersion(rt: Runtime, books: Books, draft: Draft, source: Option<nat>)
    requires Sound(books) && Created(rt, books, draft, source).Ok?
    requires forall i :: 0 <= i < |books.mappings| ==> !Named(books.mappings[i], source.value, draft.name)
    ensures Sound(Created(rt, books, draft, source).value) <==> draft.version == 1
  {
    hide Listed, Latest, Checked;
    if draft.version == 1 {
      CreateIsSound(rt, books, draft, source);
    } else {
      var after := Created(rt, books, draft, source).value.mappings;
      var n := |books.mappings|;
      assert after[n] == Row(draft, source.value);
      forall i | 0 <= i < n ensures !SameLine(after[i], after[n]) {
        assert after[i] == books.mappings[i];
        assert !Named(books.mappings[i], source.value, draft.name);
      }
      assert !Follows(after, n);
    }
  }

  /** Setting a run that does not block to a status that does is the one way to
      two blocking runs, and `enqueue` on a finished run is one. */
  lemma {:induction false} RequeueGuard(books: Books, run: nat)
    requires Sound(books) && run < |books.runs|
    ensures Sound(SetStatus(books, run, J.Pending)) <==>
            Blocking(books.runs[run].status)
            || forall i :: 0 <= i < |books.runs| && i != run ==> !Blocks(books.runs[i], books.runs[run].file, books.runs[run].mapping)
  {
    hide History;
    var after := SetStatus(books, run, J.Pending);
    if Blocking(books.runs[run].status) {
      StatusIsSound(books, run, J.Pending);
    } else {
      forall i | 0 <= i < |after.runs| ensures Coherent(after, after.runs[i]) {
        assert Coherent(books, books.runs[i]);
      }
      if i :| 0 <= i < |books.runs| && i != run && Blocks(books.runs[i], books.runs[run].file, books.runs[run].mapping) {
        assert Blocking(after.runs[i].status) && Blocking(after.runs[run].status);
        assert !OneBlocking(after.runs) by {
          if i < run {
            assert after.runs[i].file == after.runs[run].file && after.runs[i].mapping == after.runs[run].mapping;
          } else {
            assert after.runs[run].file == after.runs[i].file && after.runs[run].mapping == after.runs[i].mapping;
          }
        }
      }
    }
  }
}
