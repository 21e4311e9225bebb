/**
 What paths mean, said without the functions that read and follow them: which
 texts are paths, what a source reads on its row, and what a segment reaches.
 */
module PathLaws {
  import opened Values
  import opened JsonPath
  import opened PathPrinter
  import opened Engine

  // --------------------------------------------------------------- language

  /** The ways to write a segment: a bare identifier, or any name in quotes. */
  predicate Spells(text: string, segment: Segment) {
    match segment
    case Each => text == "[]"
    case Key(name) => (text == "." + name && IsIdentifier(name)) || text == "[\"" + Escape(name) + CLOSE
  }

  /** The text writes the path, segment by segment. */
  ghost predicate Writes(text: string, path: Path)
    decreases |path|
  {
    if path == [] then text == ""
    else exists n: nat :: n <= |text| && Spells(text[..n], path[0]) && Writes(text[n..], path[1..])
  }

  lemma SpelledOpens(text: string, segment: Segment)
    requires Spells(text, segment)
    ensures text != [] && (text[0] == '.' || text[0] == '[')
  {
    hide Escape;
  }

  lemma WrittenStops(text: string, path: Path)
    requires Writes(text, path)
    ensures Stops(text)
  {
    if path != [] {
      var n: nat :| n <= |text| && Spells(text[..n], path[0]) && Writes(text[n..], path[1..]);
      SpelledOpens(text[..n], path[0]);
      assert text[0] == text[..n][0];
    }
  }

  /** A segment that is written first is read first. */
  lemma SpelledIsRead(text: string, segment: Segment, rest: string, position: nat)
    requires Spells(text, segment) && Stops(rest)
    ensures FirstSegment(text + rest, position) == Ok((segment, |text|))
  {
    hide FirstSegment, Escape, IsIdentifier, Stops;
    match segment {
      case Each => EachIsFirst(rest, position);
      case Key(name) =>
        if text == "." + name && IsIdentifier(name) {
          IdentifierReadsBack(name, rest, position);
        } else {
          QuotedReadsBack(name, rest, position);
          assert |text| == 4 + |Escape(name)|;
        }
    }
  }

  lemma EachIsFirst(rest: string, position: nat)
    ensures FirstSegment("[]" + rest, position) == Ok((Each, 2))
  {
    assert ("[]" + rest)[0] == '[' && ("[]" + rest)[1] == ']';
  }

  /** And what is read first is so written. */
  lemma ReadIsSpelled(s: string, position: nat)
    requires s != [] && FirstSegment(s, position).Ok?
    ensures var (segment, n) := FirstSegment(s, position).value; Spells(s[..n], segment)
  {
    var n := IdentLength(s[1..]);
    if s[0] == '.' && n > 0 {
      IdentifierIs(s[1..]);
      assert s[..1 + n] == "." + s[1..1 + n] && s[1..1 + n] == s[1..][..n];
    } else if Opens(s, '[', ']') {
      assert s[..2] == "[]";
    } else {
      NameIsEscaped(s[2..]);
      hide Escape, NameOf;
      var read := NameOf(s[2..]).value;
      assert s == "[\"" + s[2..];
      assert s[..|s| - |read.1|] == "[\"" + Escape(read.0) + CLOSE;
    }
  }

  lemma IdentifierIs(s: string)
    requires IdentLength(s) > 0
    ensures IsIdentifier(s[..IdentLength(s)])
  {
    var n := IdentLength(s);
    assert forall i :: 0 < i < n ==> s[i] == s[1..][i - 1];
  }

  /** What a quoted name starts with: its end, or its first character escaped. */
  lemma NameOpens(s: string) returns (step: nat, c: char)
    requires NameOf(s).Ok? && s[0] != '"'
    ensures 1 <= step <= |s| && s[..step] == EscapedChar(c) && NameOf(s[step..]).Ok?
    ensures NameOf(s).value.0 == [c] + NameOf(s[step..]).value.0 && NameOf(s).value.1 == NameOf(s[step..]).value.1
  {
    step := if s[0] == '\\' then 2 else 1;
    c := s[step - 1];
    var rest := NameOf(s[step..]);
    assert NameOf(s) == WithChar(c, rest);
  }

  lemma EmptyNameIs(s: string)
    requires NameOf(s).Ok? && s[0] == '"'
    ensures NameOf(s).value.0 == "" && s == CLOSE + NameOf(s).value.1
  {
  }

  /** A quoted name is read from the one way to escape it. */
  lemma {:induction false} NameIsEscaped(s: string)
    requires NameOf(s).Ok?
    ensures s == Escape(NameOf(s).value.0) + CLOSE + NameOf(s).value.1
    decreases |s|
  {
    NothingToRead();
    hide NameOf, EscapedChar, Escape;
    if s[0] == '"' {
      EmptyNameIs(s);
    } else {
      var step, c := NameOpens(s);
      NameIsEscaped(s[step..]);
      var more := NameOf(s[step..]).value.0;
      EscapeFirst([c] + more);
      assert ([c] + more)[1..] == more;
      assert s == s[..step] + s[step..];
    }
  }

  lemma NothingToRead()
    ensures Escape("") == "" && NameOf("").Err?
  {
  }

  lemma {:induction false} ReadIsWritten(s: string, position: nat)
    requires SegmentsOf(s, position).Ok?
    ensures Writes(s, SegmentsOf(s, position).value)
    decreases |s|
  {
    hide FirstSegment, Spells;
    if s != [] {
      var (segment, n) := FirstSegment(s, position).value;
      ReadIsSpelled(s, position);
      ReadIsWritten(s[n..], position + n);
      var more := SegmentsOf(s[n..], position + n).value;
      assert ([segment] + more)[1..] == more;
    }
  }

  lemma {:induction false} WrittenIsRead(s: string, path: Path, position: nat)
    requires Writes(s, path)
    ensures SegmentsOf(s, position) == Ok(path)
    decreases |path|
  {
    hide FirstSegment, Spells;
    if path != [] {
      var n: nat :| n <= |s| && Spells(s[..n], path[0]) && Writes(s[n..], path[1..]);
      WrittenStops(s[n..], path[1..]);
      SpelledOpens(s[..n], path[0]);
      SpelledIsRead(s[..n], path[0], s[n..], position);
      assert s[..n] + s[n..] == s;
      WrittenIsRead(s[n..], path[1..], position + n);
      assert [path[0]] + path[1..] == path;
    }
  }

  /** The language of paths: a text parses to a path exactly when it is `$` and
      then the path's segments, each written in one of its ways. */
  lemma {:induction false} PathLanguage(text: string, path: Path)
    ensures PathOf(text) == Ok(path) <==> text != [] && text[0] == '$' && Writes(text[1..], path)
  {
    hide SegmentsOf, Writes;
    if PathOf(text) == Ok(path) {
      ReadIsWritten(text[1..], 1);
    }
    if text != [] && text[0] == '$' && Writes(text[1..], path) {
      WrittenIsRead(text[1..], path, 1);
    }
  }

  // ------------------------------------------------------------- evaluation

  /** One key down, and no further than an object goes. */
  lemma KeyMeans(document: Value, name: string, rest: Path)
    ensures Resolved(document, []) == document
    ensures document.Obj? && name in document.fields ==> Resolved(document, [Key(name)] + rest) == Resolved(document.fields[name], rest)
    ensures document.Obj? && name !in document.fields ==> Resolved(document, [Key(name)] + rest) == Resolved(Null, rest)
    ensures !document.Obj? ==> Resolved(document, [Key(name)] + rest) == Null
  {
    assert ([Key(name)] + rest)[1..] == rest;
  }

  /** `[]` reaches the items of a list in order, and a key its one value. */
  lemma StepMeans(value: Value, name: string)
    ensures Rows([value], []) == [value]
    ensures Rows([value], [Each]) == if value.List? then value.items else []
    ensures Rows([value], [Key(name)]) ==
            if value.Obj? && name in value.fields && value.fields[name] != Null then [value.fields[name]] else []
  {
    StepOfOne(value, Each);
    StepOfOne(value, Key(name));
  }

  lemma StepOfOne(value: Value, segment: Segment)
    ensures Rows([value], [segment]) == Step(value, segment)
  {
    hide Step;
    assert [value][1..] == [] && [segment][1..] == [];
    assert StepAll([value], segment) == Step(value, segment) + StepAll([], segment) == Step(value, segment);
    assert Rows([value], [segment]) == Rows(StepAll([value], segment), []);
  }

  /** The rows of several values are those of each, in their order. */
  lemma {:induction false} RowsConcat(a: seq<Value>, b: seq<Value>, path: Path)
    ensures Rows(a + b, path) == Rows(a, path) + Rows(b, path)
    decreases |path|
  {
    if path != [] {
      StepConcat(a, b, path[0]);
      RowsConcat(StepAll(a, path[0]), StepAll(b, path[0]), path[1..]);
    }
  }

  lemma {:induction false} StepConcat(a: seq<Value>, b: seq<Value>, segment: Segment)
    ensures StepAll(a + b, segment) == StepAll(a, segment) + StepAll(b, segment)
    decreases |a|
  {
    hide Step;
    if a == [] {
      assert a + b == b;
    } else {
      assert (a + b)[1..] == a[1..] + b;
      StepConcat(a[1..], b, segment);
    }
  }

  // ---------------------------------------------------------------- sources

  /** Which sources are refused: those that do not parse, and those with a `[]`
      outside of a repeated prefix. */
  lemma {:induction false} SourceExact(path: string, iterate: Path)
    ensures SourcePath(path, iterate).Err? <==>
            || PathOf(path).Err?
            || exists i: nat :: i < |PathOf(path).value| && PathOf(path).value[i].Each? && !(iterate <= PathOf(path).value && i < |iterate|)
  {
    hide PathOf;
    if PathOf(path).Ok? {
      var all := PathOf(path).value;
      if iterate <= all {
        assert forall i :: |iterate| <= i < |all| ==> all[i] == all[|iterate|..][i - |iterate|];
        assert forall i :: 0 <= i < |all| - |iterate| ==> all[|iterate|..][i] == all[|iterate| + i];
      }
    }
  }

  /** A relative source, one that does not repeat the prefix, is read on its row
      as the whole path it is: what it reaches there, or Null. */
  lemma {:induction false} RelativeSource(row: Value, path: string, iterate: Path)
    requires SourcePath(path, iterate).Ok? && !(iterate <= PathOf(path).value)
    ensures Lookup(Scope(row, iterate), path) == Done(Resolved(row, PathOf(path).value))
    ensures PathOf(path).value != [] ==>
              Rows([row], PathOf(path).value) == NonNull([Lookup(Scope(row, iterate), path).value])
  {
    hide PathOf, Rows, Resolved;
    var all := PathOf(path).value;
    if all != [] {
      RowsAreResolved([row], all);
      OneResolved(row, all);
    }
  }

  /** And one that repeats it, as what comes after. */
  lemma {:induction false} RepeatedSource(row: Value, path: string, iterate: Path, rest: Path)
    requires PathOf(path) == Ok(iterate + rest) && KeysOnly(rest)
    ensures Lookup(Scope(row, iterate), path) == Done(Resolved(row, rest))
  {
    hide PathOf, Resolved;
    assert (iterate + rest)[|iterate|..] == rest;
  }

  lemma OneResolved(row: Value, path: Path)
    ensures ResolvedAll([row], path) == [Resolved(row, path)]
  {
    hide Resolved;
    assert [row][1..] == [] && [Resolved(row, path)] + [] == [Resolved(row, path)];
  }
}
