/**
 The catalogue: the version history of mappings, and the guard on creating
 import runs. Rows are appended and never deleted, so an id is a position.
 Transactions are serial: each use case reads and writes the books alone, and
 leaves them as they were unless it commits.
 */
module Catalogue {
  import opened Values
  import opened Mappings
  import Validator
  import J = JobQueue

  datatype MappingStatus = Active | Superseded

  datatype MappingRow = MappingRow(source: nat, name: string, version: int, format: string, entities: Mapping, status: MappingStatus)

  datatype RunRow = RunRow(source: nat, file: nat, mapping: nat, status: J.Status)

  datatype Books = Books(sources: set<nat>, files: map<nat, string>, mappings: seq<MappingRow>, runs: seq<RunRow>)

  datatype Refusal =
    | MappingInvalid
    | ValidatorRaised
    | NotFound(kind: string)
    | NameTaken
    | SourceChanged
    | AlreadyReplaced(latest: int)
    | ConstraintViolated
    | SourceMismatch
    | NotActive
    | FormatMismatch
    | AlreadyRun(run: nat)

  /** The document a caller saves. */
  datatype Draft = Draft(name: string, version: int, format: string, entities: Mapping)

  // ---------------------------------------------------------------- mappings

  predicate SameLine(a: MappingRow, b: MappingRow) {
    a.source == b.source && a.name == b.name
  }

  predicate Named(row: MappingRow, source: nat, name: string) {
    row.source == source && row.name == name
  }

  const LISTED := 1000

  /** `list_records`: the newest thousand rows of a source. */
  function Listed(rows: seq<MappingRow>, source: nat, limit: nat): seq<MappingRow> {
    if rows == [] || limit == 0 then []
    else
      var n := |rows| - 1;
      if rows[n].source == source then [rows[n]] + Listed(rows[..n], source, limit - 1)
      else Listed(rows[..n], source, limit)
  }

  /** `latest_version`: the highest version stored under a name. */
  function Latest(rows: seq<MappingRow>, source: nat, name: string): Option<int> {
    if rows == [] then None
    else
      var n := |rows| - 1;
      var before := Latest(rows[..n], source, name);
      if Named(rows[n], source, name) && (before.None? || before.value < rows[n].version) then Some(rows[n].version) else before
  }

  lemma {:induction false} LatestIs(rows: seq<MappingRow>, source: nat, name: string)
    ensures var latest := Latest(rows, source, name);
            && (latest.None? <==> forall i :: 0 <= i < |rows| ==> !Named(rows[i], source, name))
            && (latest.Some? ==>
                  && (exists i :: 0 <= i < |rows| && Named(rows[i], source, name) && rows[i].version == latest.value)
                  && forall i :: 0 <= i < |rows| && Named(rows[i], source, name) ==> rows[i].version <= latest.value)
  {
    if rows != [] {
      var n := |rows| - 1;
      LatestIs(rows[..n], source, name);
      var before := Latest(rows[..n], source, name);
      if before.Some? {
        var i :| 0 <= i < n && Named(rows[..n][i], source, name) && rows[..n][i].version == before.value;
        assert rows[i] == rows[..n][i];
      }
      assert forall i :: 0 <= i < n ==> rows[i] == rows[..n][i];
    }
  }

  /** The table's own constraints on a new row. */
  predicate Allowed(rows: seq<MappingRow>, row: MappingRow) {
    && row.version >= 1
    && row.format in {"jsonl", "csv", "parquet"}
    && forall i :: 0 <= i < |rows| && SameLine(rows[i], row) ==> rows[i].version != row.version
  }

  function Row(draft: Draft, source: nat): MappingRow {
    MappingRow(source, draft.name, draft.version, draft.format, draft.entities, Active)
  }

  /** `mappings.save`. */
  function Insert(books: Books, row: MappingRow): Result<Books, Refusal> {
    if Allowed(books.mappings, row) then Ok(books.(mappings := books.mappings + [row])) else Err(ConstraintViolated)
  }

  function Supersede(books: Books, id: nat): Books {
    if id < |books.mappings| then books.(mappings := books.mappings[id := books.mappings[id].(status := Superseded)]) else books
  }

  predicate NameListed(rows: seq<MappingRow>, name: string) {
    exists i :: 0 <= i < |rows| && rows[i].name == name
  }

  /** What `_validate` makes of a document. */
  function Checked(rt: Runtime, entities: Mapping): Option<Refusal> {
    match Validator.Validated(rt, entities)
    case Raised => Some(ValidatorRaised)
    case Found(problems) => if problems != [] then Some(MappingInvalid) else None
  }

  /** `execute` without a previous mapping. */
  function Created(rt: Runtime, books: Books, draft: Draft, source: Option<nat>): Result<Books, Refusal> {
    var refused := Checked(rt, draft.entities);
    if refused.Some? then Err(refused.value)
    else if source.None? || source.value !in books.sources then Err(NotFound("DataSource"))
    else if NameListed(Listed(books.mappings, source.value, LISTED), draft.name) then Err(NameTaken)
    else Insert(books, Row(draft, source.value))
  }

  /** `execute` with a previous mapping. */
  function Versioned(rt: Runtime, books: Books, draft: Draft, source: Option<nat>, previous: nat): Result<Books, Refusal> {
    if previous >= |books.mappings| then Err(NotFound("Mapping"))
    else
      var current := books.mappings[previous];
      var latest := Latest(books.mappings, current.source, current.name);
      if source.Some? && source.value != current.source then Err(SourceChanged)
      else if latest.Some? && latest.value != current.version then Err(AlreadyReplaced(latest.value))
      else
        var next := draft.(name := current.name, version := current.version + 1);
        var refused := Checked(rt, next.entities);
        if refused.Some? then Err(refused.value)
        else Insert(Supersede(books, previous), Row(next, current.source))
  }

  // -------------------------------------------------------------------- runs

  /** Statuses that make a second run of the same file and mapping pointless. */
  predicate Blocking(status: J.Status) {
    status.Pending? || status.Running? || status.Succeeded?
  }

  predicate Blocks(run: RunRow, file: nat, mapping: nat) {
    run.file == file && run.mapping == mapping && Blocking(run.status)
  }

  /** `_check_not_already_run`: the newest run that blocks. */
  function Blocker(runs: seq<RunRow>, file: nat, mapping: nat): Option<nat> {
    if runs == [] then None
    else
      var n := |runs| - 1;
      if Blocks(runs[n], file, mapping) then Some(n) else Blocker(runs[..n], file, mapping)
  }

  lemma {:induction false} BlockerIs(runs: seq<RunRow>, file: nat, mapping: nat)
    ensures Blocker(runs, file, mapping).None? <==> forall i :: 0 <= i < |runs| ==> !Blocks(runs[i], file, mapping)
    ensures Blocker(runs, file, mapping).Some? ==>
              Blocker(runs, file, mapping).value < |runs| && Blocks(runs[Blocker(runs, file, mapping).value], file, mapping)
  {
    if runs != [] {
      var n := |runs| - 1;
      BlockerIs(runs[..n], file, mapping);
      assert forall i :: 0 <= i < n ==> runs[i] == runs[..n][i];
    }
  }

  /** `CreateImport.execute`. */
  function Queued(books: Books, source: nat, file: nat, mapping: nat): Result<Books, Refusal> {
    if source !in books.sources then Err(NotFound("DataSource"))
    else if file !in books.files then Err(NotFound("FileUpload"))
    else if mapping >= |books.mappings| then Err(NotFound("Mapping"))
    else if books.mappings[mapping].source != source then Err(SourceMismatch)
    else if !books.mappings[mapping].status.Active? then Err(NotActive)
    else if books.mappings[mapping].format != books.files[file] then Err(FormatMismatch)
    else if Blocker(books.runs, file, mapping).Some? then Err(AlreadyRun(Blocker(books.runs, file, mapping).value))
    else Ok(books.(runs := books.runs + [RunRow(source, file, mapping, J.Pending)]))
  }

  // --------------------------------------------------------------- use cases

  /** The database behind the two use cases: `work` is the open transaction. */
  class Ledger {
    var books: Books
    var work: Books

    constructor (books: Books)
      ensures this.books == books
    {
      this.books, work := books, books;
    }

    /** The scan of `existing` for the name. */
    method AnyNamed(rows: seq<MappingRow>, name: string) returns (found: bool)
      ensures found == NameListed(rows, name)
    {
      for i := 0 to |rows|
        invariant forall k :: 0 <= k < i ==> rows[k].name != name
      {
        if rows[i].name == name {
          return true;
        }
      }
      return false;
    }

    method Store(row: MappingRow) returns (stored: bool)
      modifies this`work
      ensures stored == Allowed(old(work).mappings, row)
      ensures work == if stored then old(work).(mappings := old(work).mappings + [row]) else old(work)
    {
      stored := Allowed(work.mappings, row);
      if stored {
        work := work.(mappings := work.mappings + [row]);
      }
    }

    /** `SaveMapping.execute`. */
    method SaveMapping(rt: Runtime, draft: Draft, source: Option<nat>, previous: Option<nat>) returns (id: Result<nat, Refusal>)
      modifies this
      ensures var outcome := if previous.None? then Created(rt, old(books), draft, source)
                             else Versioned(rt, old(books), draft, source, previous.value);
              && (id.Ok? <==> outcome.Ok?)
              && (id.Ok? ==> books == outcome.value && id.value == |old(books).mappings|)
              && (id.Err? ==> books == old(books) && id.error == outcome.error)
    {
      hide Listed, Latest, Validator.Validated;
      if previous.None? {
        var checked := Validator.Validate(rt, draft.entities);
        if checked.Raised? {
          return Err(ValidatorRaised);
        }
        if checked.problems != [] {
          return Err(MappingInvalid);
        }
      }
      work := books;
      var row: MappingRow;
      if previous.None? {
        if source.None? || source.value !in work.sources {
          return Err(NotFound("DataSource"));
        }
        var taken := AnyNamed(Listed(work.mappings, source.value, LISTED), draft.name);
        if taken {
          return Err(NameTaken);
        }
        row := Row(draft, source.value);
      } else {
        if previous.value >= |work.mappings| {
          return Err(NotFound("Mapping"));
        }
        var current := work.mappings[previous.value];
        if source.Some? && source.value != current.source {
          return Err(SourceChanged);
        }
        var latest := Latest(work.mappings, current.source, current.name);
        if latest.Some? && latest.value != current.version {
          return Err(AlreadyReplaced(latest.value));
        }
        var next := draft.(name := current.name, version := current.version + 1);
        var checked := Validator.Validate(rt, next.entities);
        if checked.Raised? {
          return Err(ValidatorRaised);
        }
        if checked.problems != [] {
          return Err(MappingInvalid);
        }
        work := Supersede(work, previous.value);
        row := Row(next, current.source);
      }
      var position := |work.mappings|;
      var stored := Store(row);
      if !stored {
        return Err(ConstraintViolated);
      }
      books := work;
      return Ok(position);
    }

    /** The loop over the runs of a file, the newest first. */
    method FindBlocker(runs: seq<RunRow>, file: nat, mapping: nat) returns (run: Option<nat>)
      ensures run == Blocker(runs, file, mapping)
    {
      var i := |runs|;
      assert runs[..i] == runs;
      while i > 0
        invariant 0 <= i <= |runs|
        invariant Blocker(runs, file, mapping) == Blocker(runs[..i], file, mapping)
      {
        assert runs[..i][..i - 1] == runs[..i - 1];
        i := i - 1;
        if Blocks(runs[i], file, mapping) {
          return Some(i);
        }
      }
      return None;
    }

    /** `CreateImport.execute`. */
    method CreateImport(source: nat, file: nat, mapping: nat) returns (id: Result<nat, Refusal>)
      modifies this
      ensures var outcome := Queued(old(books), source, file, mapping);
              && (id.Ok? <==> outcome.Ok?)
              && (id.Ok? ==> books == outcome.value && id.value == |old(books).runs|)
              && (id.Err? ==> books == old(books) && id.error == outcome.error)
    {
      work := books;
      if source !in work.sources {
        return Err(NotFound("DataSource"));
      }
      if file !in work.files {
        return Err(NotFound("FileUpload"));
      }
      if mapping >= |work.mappings| {
        return Err(NotFound("Mapping"));
      }
      var row := work.mappings[mapping];
      if row.source != source {
        return Err(SourceMismatch);
      }
      if !row.status.Active? {
        return Err(NotActive);
      }
      if row.format != work.files[file] {
        return Err(FormatMismatch);
      }
      var blocker := FindBlocker(work.runs, file, mapping);
      if blocker.Some? {
        return Err(AlreadyRun(blocker.value));
      }
      var position := |work.runs|;
      work := work.(runs := work.runs + [RunRow(source, file, mapping, J.Pending)]);
      books := work;
      return Ok(position);
    }
  }
}
