/**
 The path notation of a mapping: its parser, the evaluation of a path on a
 document, and the meaning of `[]` in `iterate` and in `source`.

 Each loop of the source is a method here, proved equal to a function on the
 remaining text (`PathOf`) or the remaining segments (`Resolved`, `Rows`,
 `Wrong`); the laws of the notation are stated about those functions.
 */
module JsonPath {
  import opened Values

  datatype Segment = Key(name: string) | Each

  type Path = seq<Segment>

  datatype PathError =
    | NoDollar
    | Recursive
    | Filter
    | Wildcard
    | SingleQuote
    | IndexOrSlice
    | TrailingDot
    | Unexpected(found: char, position: nat)
    | QuoteNotClosed
    | BadEscape
    | Unterminated
    | EachInSource

  // ---------------------------------------------------------------- lexing

  predicate IdStart(c: char) {
    'A' <= c <= 'Z' || 'a' <= c <= 'z' || c == '_'
  }

  predicate IdChar(c: char) {
    IdStart(c) || '0' <= c <= '9'
  }

  /** How many leading characters may continue an identifier. */
  function RunLength(s: string): (n: nat)
    ensures n <= |s|
    ensures forall i :: 0 <= i < n ==> IdChar(s[i])
    ensures n < |s| ==> !IdChar(s[n])
  {
    if s != [] && IdChar(s[0]) then 1 + RunLength(s[1..]) else 0
  }

  /** Length of the longest identifier at the start of `s`, 0 when there is none. */
  function IdentLength(s: string): (n: nat)
    ensures n <= |s|
  {
    if s != [] && IdStart(s[0]) then 1 + RunLength(s[1..]) else 0
  }

  predicate IsIdentifier(s: string) {
    s != [] && IdStart(s[0]) && forall i :: 0 <= i < |s| ==> IdChar(s[i])
  }

  // --------------------------------------------------------------- parsing

  /** A quoted name read from just after `["`: the name and what follows `"]`. */
  function NameOf(s: string): (r: Result<(string, string), PathError>)
    ensures r.Ok? ==> |r.value.1| + 2 <= |s| && r.value.1 == s[|s| - |r.value.1|..]
  {
    if s == [] then Err(Unterminated)
    else if s[0] == '"' then
      if |s| > 1 && s[1] == ']' then Ok(("", s[2..])) else Err(QuoteNotClosed)
    else if s[0] == '\\' then
      if |s| > 1 && (s[1] == '\\' || s[1] == '"') then WithChar(s[1], NameOf(s[2..]))
      else Err(BadEscape)
    else
      WithChar(s[0], NameOf(s[1..]))
  }

  function WithChar(c: char, r: Result<(string, string), PathError>): Result<(string, string), PathError> {
    match r
    case Ok(read) => Ok(([c] + read.0, read.1))
    case Err(e) => Err(e)
  }

  predicate Opens(s: string, first: char, second: char) {
    |s| > 1 && s[0] == first && s[1] == second
  }

  /** Why the text at `position` opens no segment. */
  function Why(rest: string, position: nat): PathError
    requires rest != []
  {
    if Opens(rest, '.', '.') then Recursive
    else if Opens(rest, '[', '?') then Filter
    else if Opens(rest, '[', '*') || Opens(rest, '.', '*') then Wildcard
    else if Opens(rest, '[', '\'') then SingleQuote
    else if rest[0] == '[' && |rest| > 1 && (rest[1] == '-' || rest[1] == ':' || '0' <= rest[1] <= '9')
    then IndexOrSlice
    else if rest == "." then TrailingDot
    else Unexpected(rest[0], position)
  }

  /** The segment the text `s` opens with, and how many characters it takes. */
  function FirstSegment(s: string, position: nat): (r: Result<(Segment, nat), PathError>)
    requires s != []
    ensures r.Ok? ==> 0 < r.value.1 <= |s|
  {
    var n := IdentLength(s[1..]);
    if s[0] == '.' && n > 0 then Ok((Key(s[1..1 + n]), 1 + n))
    else if Opens(s, '[', ']') then Ok((Each, 2))
    else if Opens(s, '[', '"') then
      match NameOf(s[2..])
      case Ok(read) => Ok((Key(read.0), |s| - |read.1|))
      case Err(e) => Err(e)
    else Err(Why(s, position))
  }

  /** Segments of the text `s`, which stands at `position` of the whole path. */
  function SegmentsOf(s: string, position: nat): Result<Path, PathError>
    decreases |s|
  {
    if s == [] then Ok([])
    else
      match FirstSegment(s, position)
      case Err(e) => Err(e)
      case Ok(first) =>
        match SegmentsOf(s[first.1..], position + first.1)
        case Err(e) => Err(e)
        case Ok(more) => Ok([first.0] + more)
  }

  function PathOf(path: string): Result<Path, PathError> {
    if path != [] && path[0] == '$' then SegmentsOf(path[1..], 1) else Err(NoDollar)
  }

  /** The loop of `_read_quoted` has read `name` and stands at `position`;
      `whole` is what reading from the start gives. */
  ghost predicate ReadingName(whole: Result<(string, string), PathError>, path: string, position: nat, name: string) {
    position <= |path| &&
    match NameOf(path[position..])
    case Ok(read) => whole == Ok((name + read.0, read.1))
    case Err(e) => whole == Err(e)
  }

  lemma NameStep(whole: Result<(string, string), PathError>, path: string, at: nat, name: string, c: char, next: nat)
    requires ReadingName(whole, path, at, name)
    requires at < next <= |path|
    requires if path[at] == '\\' then next == at + 2 && c == path[at + 1] && (c == '\\' || c == '"')
             else next == at + 1 && c == path[at] && c != '"'
    ensures ReadingName(whole, path, next, name + [c])
  {
    assert path[at..][next - at..] == path[next..];
    var rest := NameOf(path[next..]);
    assert NameOf(path[at..]) == WithChar(c, rest);
    if rest.Ok? {
      assert name + ([c] + rest.value.0) == name + [c] + rest.value.0;
    }
  }

  lemma NameEnds(whole: Result<(string, string), PathError>, path: string, at: nat, name: string)
    requires ReadingName(whole, path, at, name)
    requires at == |path| || path[at] == '"' || (path[at] == '\\' && (at + 1 == |path| || (path[at + 1] != '\\' && path[at + 1] != '"')))
    ensures whole == if at == |path| then Err(Unterminated)
                     else if path[at] == '\\' then Err(BadEscape)
                     else if at + 1 < |path| && path[at + 1] == ']' then Ok((name, path[at + 2..]))
                     else Err(QuoteNotClosed)
  {
    if at + 1 < |path| {
      assert path[at..][2..] == path[at + 2..] && name + "" == name;
    }
  }

  /** `_read_quoted`: the name starting at `start`, and the position after `"]`. */
  method ReadQuoted(path: string, start: nat) returns (r: Result<(string, nat), PathError>)
    requires start <= |path|
    ensures match NameOf(path[start..])
            case Ok(read) => r == Ok((read.0, |path| - |read.1|))
            case Err(e) => r == Err(e)
  {
    var name: string := [];
    var position := start;
    ghost var whole := NameOf(path[start..]);
    assert ReadingName(whole, path, start, "") by {
      assert whole.Ok? ==> "" + whole.value.0 == whole.value.0;
    }
    hide ReadingName, NameOf;
    while position < |path|
      invariant position <= |path|
      invariant ReadingName(whole, path, position, name)
    {
      var c := path[position];
      if c == '"' {
        NameEnds(whole, path, position, name);
        if position + 1 < |path| && path[position + 1] == ']' {
          return Ok((name, position + 2));
        }
        return Err(QuoteNotClosed);
      }
      ghost var at := position;
      if c == '\\' {
        position := position + 1;
        if position == |path| || (path[position] != '\\' && path[position] != '"') {
          NameEnds(whole, path, at, name);
          return Err(BadEscape);
        }
        c := path[position];
      }
      position := position + 1;
      NameStep(whole, path, at, name, c, position);
      name := name + [c];
    }
    NameEnds(whole, path, position, name);
    return Err(Unterminated);
  }

  /** The branches of `parse_path`: the segment at `position`, and what follows it. */
  method ReadSegment(path: string, position: nat) returns (r: Result<(Segment, nat), PathError>)
    requires position < |path|
    ensures match FirstSegment(path[position..], position)
            case Ok(first) => r == Ok((first.0, position + first.1))
            case Err(e) => r == Err(e)
  {
    ghost var rest := path[position..];
    assert rest[1..] == path[position + 1..];
    var identifier := IdentLength(path[position + 1..]);
    if path[position] == '.' && identifier > 0 {
      var next := position + 1 + identifier;
      assert rest[1..1 + identifier] == path[position + 1..next];
      return Ok((Key(path[position + 1..next]), next));
    } else if position + 1 < |path| && path[position] == '[' && path[position + 1] == ']' {
      return Ok((Each, position + 2));
    } else if position + 1 < |path| && path[position] == '[' && path[position + 1] == '"' {
      assert rest[2..] == path[position + 2..];
      var read := ReadQuoted(path, position + 2);
      match read {
        case Ok(found) => return Ok((Key(found.0), found.1));
        case Err(e) => return Err(e);
      }
    } else {
      return Err(Why(path[position..], position));
    }
  }

  /** `parse_path`: split a path into segments, or say why it is refused. */
  method ParsePath(path: string) returns (r: Result<Path, PathError>)
    ensures r == PathOf(path)
  {
    hide FirstSegment;
    if path == [] || path[0] != '$' {
      return Err(NoDollar);
    }
    var segments: Path := [];
    var position := 1;
    ghost var whole := SegmentsOf(path[1..], 1);
    if whole.Ok? {
      assert segments + whole.value == whole.value;
    }
    while position < |path|
      invariant 1 <= position <= |path|
      invariant match SegmentsOf(path[position..], position)
                case Ok(more) => PathOf(path) == Ok(segments + more)
                case Err(e) => PathOf(path) == Err(e)
    {
      var read := ReadSegment(path, position);
      if read.Err? {
        return Err(read.error);
      }
      ghost var rest := SegmentsOf(path[read.value.1..], read.value.1);
      assert path[position..][read.value.1 - position..] == path[read.value.1..];
      if rest.Ok? {
        assert segments + ([read.value.0] + rest.value) == segments + [read.value.0] + rest.value;
      }
      segments, position := segments + [read.value.0], read.value.1;
    }
    assert path[position..] == "" && segments + [] == segments;
    return Ok(segments);
  }

  // ---------------------------------------------- `iterate` and `source`

  /** `iterate_path`: a path that does not end in `[]` reads as if it did. */
  function IteratePath(path: string): (r: Result<Path, PathError>)
    ensures r.Ok? ==> r.value != [] && r.value[|r.value| - 1].Each?
  {
    match PathOf(path)
    case Err(e) => Err(e)
    case Ok(segments) =>
      if segments != [] && segments[|segments| - 1].Each? then Ok(segments) else Ok(segments + [Each])
  }

  predicate KeysOnly(path: Path) {
    forall i :: 0 <= i < |path| ==> path[i].Key?
  }

  /** `source_path`: segments relative to the row, the `iterate` prefix removed.
      An empty prefix stands for an entity that is not iterated. */
  function SourcePath(path: string, iterate: Path): (r: Result<Path, PathError>)
    ensures r.Ok? ==> KeysOnly(r.value)
  {
    match PathOf(path)
    case Err(e) => Err(e)
    case Ok(segments) =>
      var relative := if iterate <= segments then segments[|iterate|..] else segments;
      if KeysOnly(relative) then Ok(relative) else Err(EachInSource)
  }

  // ------------------------------------------------------------ evaluation

  function Resolved(document: Value, segments: Path): Value
    decreases |segments|
  {
    if segments == [] then document
    else if segments[0].Each? || !document.Obj? then Null
    else Resolved(Get(document.fields, segments[0].name), segments[1..])
  }

  /** What one value contributes to the next level of a path. */
  function Step(value: Value, segment: Segment): seq<Value> {
    if segment.Each? && value.List? then value.items
    else if segment.Key? && value.Obj? then
      var child := Get(value.fields, segment.name);
      if child.Null? then [] else [child]
    else []
  }

  function StepAll(values: seq<Value>, segment: Segment): seq<Value> {
    if values == [] then [] else Step(values[0], segment) + StepAll(values[1..], segment)
  }

  /** Every element `segments` reaches from each of `values`, in order. */
  function Rows(values: seq<Value>, segments: Path): seq<Value>
    decreases |segments|
  {
    if segments == [] then values else Rows(StepAll(values, segments[0]), segments[1..])
  }

  predicate Fits(value: Value, segment: Segment) {
    (segment.Each? && value.List?) || (segment.Key? && value.Obj?)
  }

  /** "`found` where `expected` was expected", as reported in an issue's message. */
  datatype Mismatch = Mismatch(found: string, expected: string)

  function Explanation(value: Value, segment: Segment): Mismatch {
    Mismatch(KindOf(value), if segment.Each? then "a list" else "an object")
  }

  /** Explanations are kept once each, in the order they first arise. */
  function Noted(wrong: seq<Mismatch>, value: Value, segment: Segment): seq<Mismatch> {
    if Fits(value, segment) || Explanation(value, segment) in wrong then wrong
    else wrong + [Explanation(value, segment)]
  }

  function NotedAll(wrong: seq<Mismatch>, values: seq<Value>, segment: Segment): seq<Mismatch>
    decreases |values|
  {
    if values == [] then wrong else NotedAll(Noted(wrong, values[0], segment), values[1..], segment)
  }

  function Wrong(wrong: seq<Mismatch>, values: seq<Value>, segments: Path): seq<Mismatch>
    decreases |segments|
  {
    if segments == [] then wrong
    else Wrong(NotedAll(wrong, values, segments[0]), StepAll(values, segments[0]), segments[1..])
  }

  /** `resolve`: the value at `segments`, Null when a step is absent or no object. */
  method Resolve(document: Value, segments: Path) returns (current: Value)
    ensures current == Resolved(document, segments)
  {
    current := document;
    for i := 0 to |segments|
      invariant Resolved(current, segments[i..]) == Resolved(document, segments)
    {
      assert segments[i..][1..] == segments[i + 1..];
      if segments[i].Each? || !current.Obj? {
        return Null;
      }
      current := Get(current.fields, segments[i].name);
    }
  }

  lemma StepAllConcat(a: seq<Value>, b: seq<Value>, segment: Segment)
    ensures StepAll(a + b, segment) == StepAll(a, segment) + StepAll(b, segment)
  {
    if a == [] {
      assert a + b == b;
    } else {
      assert (a + b)[1..] == a[1..] + b;
      StepAllConcat(a[1..], b, segment);
    }
  }

  lemma StepAllSnoc(values: seq<Value>, j: nat, segment: Segment)
    requires j < |values|
    ensures StepAll(values[..j + 1], segment) == StepAll(values[..j], segment) + Step(values[j], segment)
  {
    assert values[..j + 1] == values[..j] + [values[j]] && [values[j]][1..] == [];
    StepAllConcat(values[..j], [values[j]], segment);
    assert StepAll([values[j]], segment) == Step(values[j], segment) + [];
  }

  /** The inner loop of `resolve_rows`: one segment, every value. */
  method StepRows(current: seq<Value>, segment: Segment, noted: seq<Mismatch>)
    returns (found: seq<Value>, wrong: seq<Mismatch>)
    ensures found == StepAll(current, segment)
    ensures wrong == NotedAll(noted, current, segment)
  {
    found, wrong := [], noted;
    for j := 0 to |current|
      invariant found == StepAll(current[..j], segment)
      invariant NotedAll(wrong, current[j..], segment) == NotedAll(noted, current, segment)
    {
      assert current[j..][1..] == current[j + 1..];
      StepAllSnoc(current, j, segment);
      var value := current[j];
      if segment.Each? && value.List? {
        found := found + value.items;
      } else if segment.Key? && value.Obj? {
        var child := Get(value.fields, segment.name);
        if !child.Null? {
          found := found + [child];
        }
      } else {
        wrong := Noted(wrong, value, segment);
      }
    }
    assert current[..|current|] == current;
  }

  /** `resolve_rows`: the rows a path reaches, and what stood in its way. */
  method ResolveRows(document: Value, segments: Path) returns (current: seq<Value>, wrong: seq<Mismatch>)
    ensures current == Rows([document], segments)
    ensures wrong == Wrong([], [document], segments)
  {
    current, wrong := [document], [];
    for i := 0 to |segments|
      invariant Rows(current, segments[i..]) == Rows([document], segments)
      invariant Wrong(wrong, current, segments[i..]) == Wrong([], [document], segments)
    {
      assert segments[i..][1..] == segments[i + 1..];
      current, wrong := StepRows(current, segments[i], wrong);
    }
  }

  // -------------------------------------------------------- composition law

  lemma RowsCompose(values: seq<Value>, p: Path, q: Path)
    ensures Rows(values, p + q) == Rows(Rows(values, p), q)
    decreases |p|
  {
    if p == [] {
      assert p + q == q;
    } else {
      assert (p + q)[1..] == p[1..] + q;
      RowsCompose(StepAll(values, p[0]), p[1..], q);
    }
  }

  /** `resolve` applied to each row. */
  function ResolvedAll(rows: seq<Value>, segments: Path): seq<Value> {
    if rows == [] then [] else [Resolved(rows[0], segments)] + ResolvedAll(rows[1..], segments)
  }

  lemma StepIsResolved(rows: seq<Value>, name: string)
    ensures StepAll(rows, Key(name)) == NonNull(ResolvedAll(rows, [Key(name)]))
  {
    if rows != [] {
      StepIsResolved(rows[1..], name);
      var here := Resolved(rows[0], [Key(name)]);
      NonNullConcat([here], ResolvedAll(rows[1..], [Key(name)]));
      NonNullOne(here);
      assert [Key(name)][1..] == [];
      if rows[0].Obj? {
        assert Resolved(Get(rows[0].fields, name), []) == Get(rows[0].fields, name);
      }
      assert ResolvedAll(rows, [Key(name)]) == [here] + ResolvedAll(rows[1..], [Key(name)]);
    }
  }

  /** Going down one key first, then along `q`, skips only rows that resolve to Null. */
  lemma KeyThenResolved(rows: seq<Value>, name: string, q: Path)
    requires KeysOnly(q) && q != []
    ensures NonNull(ResolvedAll(StepAll(rows, Key(name)), q)) == NonNull(ResolvedAll(rows, [Key(name)] + q))
  {
    if rows != [] {
      var row, rest := rows[0], rows[1..];
      KeyThenResolved(rest, name, q);
      var here := Step(row, Key(name));
      assert StepAll(rows, Key(name)) == here + StepAll(rest, Key(name));
      ResolvedConcat(here, StepAll(rest, Key(name)), q);
      NonNullConcat(ResolvedAll(here, q), ResolvedAll(StepAll(rest, Key(name)), q));
      assert ([Key(name)] + q)[1..] == q;
      assert ResolvedAll(rows, [Key(name)] + q) == [Resolved(row, [Key(name)] + q)] + ResolvedAll(rest, [Key(name)] + q);
      NonNullConcat([Resolved(row, [Key(name)] + q)], ResolvedAll(rest, [Key(name)] + q));
      if here != [] {
        assert here == [Get(row.fields, name)];
        assert ResolvedAll(here, q) == [Resolved(here[0], q)] + ResolvedAll([], q);
      } else {
        assert Resolved(Null, q) == Null;
      }
    }
  }

  lemma ResolvedConcat(a: seq<Value>, b: seq<Value>, q: Path)
    ensures ResolvedAll(a + b, q) == ResolvedAll(a, q) + ResolvedAll(b, q)
  {
    if a == [] {
      assert a + b == b;
    } else {
      assert (a + b)[1..] == a[1..] + b;
      ResolvedConcat(a[1..], b, q);
    }
  }

  lemma {:induction false} RowsAreResolved(rows: seq<Value>, q: Path)
    requires KeysOnly(q) && q != []
    ensures Rows(rows, q) == NonNull(ResolvedAll(rows, q))
    decreases |q|
  {
    assert q == [Key(q[0].name)] + q[1..];
    if |q| == 1 {
      StepIsResolved(rows, q[0].name);
      assert q == [q[0]] && q[1..] == [];
    } else {
      RowsAreResolved(StepAll(rows, q[0]), q[1..]);
      KeyThenResolved(rows, q[0].name, q[1..]);
    }
  }

  /** A path through lists followed by keys reaches, in order, the non-null
      results of resolving the keys on each row the list part reaches. */
  lemma {:induction false} PathComposition(document: Value, p: Path, q: Path)
    requires KeysOnly(q) && q != []
    ensures Rows([document], p + q) == NonNull(ResolvedAll(Rows([document], p), q))
  {
    RowsCompose([document], p, q);
    RowsAreResolved(Rows([document], p), q);
  }

  /** What an entity sees: with `iterate` written as `outer` and a field source
      repeating it in full as `full`, the source reads on each row exactly what
      the full path reads on the document, absent values left out. */
  lemma {:induction false} IterateThenSource(document: Value, outer: string, full: string)
    requires IteratePath(outer).Ok? && PathOf(full).Ok?
    requires IteratePath(outer).value < PathOf(full).value
    requires KeysOnly(PathOf(full).value[|IteratePath(outer).value|..])
    ensures var prefix := IteratePath(outer).value;
            var source := SourcePath(full, prefix);
            && source.Ok?
            && Rows([document], PathOf(full).value)
               == NonNull(ResolvedAll(Rows([document], prefix), source.value))
  {
    var p, all := IteratePath(outer).value, PathOf(full).value;
    assert all == p + all[|p|..];
    PathComposition(document, p, all[|p|..]);
  }
}
