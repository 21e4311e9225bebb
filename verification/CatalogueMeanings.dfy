/**
 What the catalogue's use cases do, said without the functions that specify
 them: when each succeeds, the row it adds, and what it leaves alone.
 */
module CatalogueMeanings {
  import opened Values
  import opened Mappings
  import Validator
  import J = JobQueue
  import opened Catalogue
  import L = CatalogueLaws

  // ---------------------------------------------------------------- mappings

  /** How many rows of a source come after a position. */
  function Later(rows: seq<MappingRow>, source: nat, i: nat): nat
    requires i < |rows|
  {
    if i == |rows| - 1 then 0
    else Later(rows[..|rows| - 1], source, i) + if rows[|rows| - 1].source == source then 1 else 0
  }

  /** The list of a source is its rows with fewer than the limit after them. */
  lemma {:induction false} ListedExact(rows: seq<MappingRow>, source: nat, limit: nat, row: MappingRow)
    ensures row in Listed(rows, source, limit) <==>
            exists i :: 0 <= i < |rows| && rows[i] == row && row.source == source && Later(rows, source, i) < limit
  {
    if rows != [] {
      var n := |rows| - 1;
      var mine := rows[n].source == source;
      if limit != 0 {
        ListedExact(rows[..n], source, if mine then limit - 1 else limit, row);
        forall i | 0 <= i < n ensures rows[..n][i] == rows[i] && Later(rows, source, i) == Later(rows[..n], source, i) + if mine then 1 else 0 {
        }
        if row in Listed(rows, source, limit) {
          if mine && row == rows[n] {
            assert Later(rows, source, n) < limit;
          } else {
            var i :| 0 <= i < n && rows[..n][i] == row && row.source == source && Later(rows[..n], source, i) < if mine then limit - 1 else limit;
            assert rows[i] == row && Later(rows, source, i) < limit;
          }
        }
        if i :| 0 <= i < |rows| && rows[i] == row && row.source == source && Later(rows, source, i) < limit {
          if i < n {
            assert rows[..n][i] == row && Later(rows[..n], source, i) < if mine then limit - 1 else limit;
          }
        }
      }
    }
  }

  /** A version of a name and source is stored once, from 1, in a known format. */
  predicate Storable(books: Books, source: nat, name: string, version: int, format: string) {
    && version >= 1 && (format == "jsonl" || format == "csv" || format == "parquet")
    && forall i :: 0 <= i < |books.mappings| && books.mappings[i].source == source && books.mappings[i].name == name ==>
         books.mappings[i].version != version
  }

  predicate Clean(rt: Runtime, entities: Mapping) {
    Validator.Validated(rt, entities) == Validator.Found([])
  }

  /** A mapping is created exactly when its document is valid, its source known,
      its name not among the newest thousand of the source, and its row allowed;
      the row holds the draft, and nothing else changes. */
  lemma {:induction false} CreatedMeans(rt: Runtime, books: Books, draft: Draft, source: Option<nat>)
    ensures var r := Created(rt, books, draft, source);
            && (r.Ok? <==>
                  && Clean(rt, draft.entities) && source.Some? && source.value in books.sources
                  && (forall row :: row in Listed(books.mappings, source.value, 1000) ==> row.name != draft.name)
                  && Storable(books, source.value, draft.name, draft.version, draft.format))
            && (r.Ok? ==>
                  r.value == Books(books.sources, books.files,
                                   books.mappings + [MappingRow(source.value, draft.name, draft.version, draft.format, draft.entities, Active)],
                                   books.runs))
    ensures var r, checked := Created(rt, books, draft, source), Validator.Validated(rt, draft.entities);
            && (r == Err(ValidatorRaised) <==> checked.Raised?)
            && (r == Err(MappingInvalid) <==> checked.Found? && checked.problems != [])
            && (r == Err(NotFound("DataSource")) <==> Clean(rt, draft.entities) && (source.None? || source.value !in books.sources))
            && (r == Err(NameTaken) <==>
                  && Clean(rt, draft.entities) && source.Some? && source.value in books.sources
                  && exists row :: row in Listed(books.mappings, source.value, 1000) && row.name == draft.name)
            && (r.Err? ==> r.error in {ValidatorRaised, MappingInvalid, NotFound("DataSource"), NameTaken, ConstraintViolated})
  {
    hide Listed, Validator.Validated;
    if source.Some? {
      SameStorable(books, Row(draft, source.value));
      NamedIn(Listed(books.mappings, source.value, LISTED), draft.name);
    }
  }

  lemma SameStorable(books: Books, row: MappingRow)
    ensures Allowed(books.mappings, row) <==> Storable(books, row.source, row.name, row.version, row.format)
  {
  }

  lemma NamedIn(rows: seq<MappingRow>, name: string)
    ensures NameListed(rows, name) <==> exists row :: row in rows && row.name == name
  {
    if NameListed(rows, name) {
      var i :| 0 <= i < |rows| && rows[i].name == name;
      assert rows[i] in rows;
    }
  }

  /** The highest version under the name and source of a row. */
  predicate Highest(books: Books, id: nat)
    requires id < |books.mappings|
  {
    forall i :: 0 <= i < |books.mappings|
                && books.mappings[i].source == books.mappings[id].source && books.mappings[i].name == books.mappings[id].name ==>
      books.mappings[i].version <= books.mappings[id].version
  }

  /** A version replaces one that is there, is the highest of its name, and stays
      in its source: it holds the draft's format and entities under the old name,
      one version up, and the old row is superseded. */
  lemma {:induction false} VersionedMeans(rt: Runtime, books: Books, draft: Draft, source: Option<nat>, previous: nat)
    ensures var r := Versioned(rt, books, draft, source, previous);
            && (r.Ok? <==>
                  && previous < |books.mappings|
                  && var current := books.mappings[previous];
                     && (source.Some? ==> source.value == current.source) && Highest(books, previous)
                     && Clean(rt, draft.entities)
                     && Storable(books, current.source, current.name, current.version + 1, draft.format))
            && (r.Ok? ==>
                  var current := books.mappings[previous];
                  && r.value.sources == books.sources && r.value.files == books.files && r.value.runs == books.runs
                  && |r.value.mappings| == |books.mappings| + 1
                  && r.value.mappings[|books.mappings|] ==
                     MappingRow(current.source, current.name, current.version + 1, draft.format, draft.entities, Active)
                  && r.value.mappings[previous] ==
                     MappingRow(current.source, current.name, current.version, current.format, current.entities, Superseded)
                  && forall i :: 0 <= i < |books.mappings| && i != previous ==> r.value.mappings[i] == books.mappings[i])
    ensures var r, checked := Versioned(rt, books, draft, source, previous), Validator.Validated(rt, draft.entities);
            && (r == Err(NotFound("Mapping")) <==> previous >= |books.mappings|)
            && (previous < |books.mappings| ==>
                  var moved := source.Some? && source.value != books.mappings[previous].source;
                  && (r == Err(SourceChanged) <==> moved)
                  && ((r.Err? && r.error.AlreadyReplaced?) <==> !moved && !Highest(books, previous))
                  && (r == Err(ValidatorRaised) <==> !moved && Highest(books, previous) && checked.Raised?)
                  && (r == Err(MappingInvalid) <==> !moved && Highest(books, previous) && checked.Found? && checked.problems != []))
  {
    hide Latest, Validator.Validated;
    if previous < |books.mappings| {
      var current := books.mappings[previous];
      LatestIs(books.mappings, current.source, current.name);
      var superseded := Supersede(books, previous);
      SameStorable(superseded, Row(draft.(name := current.name, version := current.version + 1), current.source));
      StillStorable(books, superseded, previous, current.source, current.name, current.version + 1, draft.format);
      assert Named(books.mappings[previous], current.source, current.name);
    }
  }

  lemma StillStorable(books: Books, after: Books, previous: nat, source: nat, name: string, version: int, format: string)
    requires previous < |books.mappings| && after == Supersede(books, previous)
    ensures Storable(after, source, name, version, format) <==> Storable(books, source, name, version, format)
  {
    assert forall i :: 0 <= i < |books.mappings| ==>
      after.mappings[i].source == books.mappings[i].source && after.mappings[i].name == books.mappings[i].name
      && after.mappings[i].version == books.mappings[i].version;
  }

  // -------------------------------------------------------------------- runs

  /** A run is queued exactly when its source, file and mapping are there and
      agree, the mapping is active, and no run of that file and mapping is
      pending, running or succeeded; one pending run is added. */
  lemma {:induction false} QueuedMeans(books: Books, source: nat, file: nat, mapping: nat)
    ensures var r := Queued(books, source, file, mapping);
            && (r.Ok? <==>
                  && source in books.sources && file in books.files && mapping < |books.mappings|
                  && books.mappings[mapping].source == source && books.mappings[mapping].status == Active
                  && books.mappings[mapping].format == books.files[file]
                  && forall i :: 0 <= i < |books.runs| && books.runs[i].file == file && books.runs[i].mapping == mapping ==>
                       !books.runs[i].status.Pending? && !books.runs[i].status.Running? && !books.runs[i].status.Succeeded?)
            && (r.Ok? ==>
                  r.value == Books(books.sources, books.files, books.mappings, books.runs + [RunRow(source, file, mapping, J.Pending)]))
    ensures var r := Queued(books, source, file, mapping);
            if source !in books.sources then r == Err(NotFound("DataSource"))
            else if file !in books.files then r == Err(NotFound("FileUpload"))
            else if mapping >= |books.mappings| then r == Err(NotFound("Mapping"))
            else if books.mappings[mapping].source != source then r == Err(SourceMismatch)
            else if books.mappings[mapping].status != Active then r == Err(NotActive)
            else if books.mappings[mapping].format != books.files[file] then r == Err(FormatMismatch)
            else r.Err? ==> r.error.AlreadyRun?
  {
    BlockerIs(books.runs, file, mapping);
    hide Blocker;
  }

  /** The run it names as an obstacle is the newest of those. */
  lemma {:induction false} BlockerIsNewest(runs: seq<RunRow>, file: nat, mapping: nat)
    requires Blocker(runs, file, mapping).Some?
    ensures var run := Blocker(runs, file, mapping).value;
            && run < |runs| && runs[run].file == file && runs[run].mapping == mapping
            && (runs[run].status.Pending? || runs[run].status.Running? || runs[run].status.Succeeded?)
            && forall later :: run < later < |runs| && runs[later].file == file && runs[later].mapping == mapping ==>
                 !runs[later].status.Pending? && !runs[later].status.Running? && !runs[later].status.Succeeded?
  {
    var n := |runs| - 1;
    if !Blocks(runs[n], file, mapping) {
      BlockerIsNewest(runs[..n], file, mapping);
      var run := Blocker(runs[..n], file, mapping).value;
      forall later | run < later < |runs| && runs[later].file == file && runs[later].mapping == mapping
        ensures !runs[later].status.Pending? && !runs[later].status.Running? && !runs[later].status.Succeeded?
      {
        assert later < n ==> runs[..n][later] == runs[later];
      }
    }
  }

  /** What each step of the catalogue does: a use case that is refused does
      nothing, and a run that is claimed or finished only changes its status. */
  lemma {:induction false} StepsMean(rt: Runtime, books: Books, step: L.Step)
    requires L.Possible(books, step)
    ensures var next := L.Next(rt, books, step);
            match step
            case AddSource(source) => next == Books(books.sources + {source}, books.files, books.mappings, books.runs)
            case AddFile(file, format) =>
              && next == Books(books.sources, next.files, books.mappings, books.runs)
              && next.files.Keys == books.files.Keys + {file} && next.files[file] == format
              && forall other :: other in books.files ==> next.files[other] == books.files[other]
            case CreateMapping(draft, source) =>
              var r := Created(rt, books, draft, source); if r.Ok? then next == r.value else next == books
            case NewVersion(draft, source, previous) =>
              var r := Versioned(rt, books, draft, source, previous); if r.Ok? then next == r.value else next == books
            case QueueImport(source, file, mapping) =>
              var r := Queued(books, source, file, mapping); if r.Ok? then next == r.value else next == books
            case Claim(run) => StatusSet(books, next, run, J.Running)
            case Finish(run, status) => StatusSet(books, next, run, status)
  {
    hide Created, Versioned, Queued;
  }

  /** The run has the status, and all else is as it was. */
  predicate StatusSet(books: Books, next: Books, run: nat, status: J.Status)
    requires run < |books.runs|
  {
    && next == Books(books.sources, books.files, books.mappings, next.runs) && |next.runs| == |books.runs|
    && next.runs[run] == RunRow(books.runs[run].source, books.runs[run].file, books.runs[run].mapping, status)
    && forall other :: 0 <= other < |books.runs| && other != run ==> next.runs[other] == books.runs[other]
  }
}
