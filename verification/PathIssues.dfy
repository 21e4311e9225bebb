/**
 What is said of a path that cannot be read, and of a document that it does not
 fit: the error a text is refused with, and the mismatches a walk reports.
 */
module PathIssues {
  import opened Values
  import opened JsonPath
  import opened PathPrinter
  import opened PathLaws

  // ------------------------------------------------------------ refused texts

  /** The characters of a name are escaped one by one, two of them at all. */
  lemma {:induction false} EscapeMeans(a: string, b: string, c: char)
    ensures Escape("") == "" && Escape(a + b) == Escape(a) + Escape(b)
    ensures c != '\\' && c != '"' ==> Escape([c]) == [c]
    ensures Escape("\\") == "\\\\" && Escape("\"") == "\\\""
  {
    ReplaceConcat(a, b, '\\', "\\\\");
    ReplaceConcat(Replace(a, '\\', "\\\\"), Replace(b, '\\', "\\\\"), '"', "\\\"");
    OneEscaped(c);
    OneEscaped('\\');
    OneEscaped('"');
  }

  lemma OneEscaped(c: char)
    ensures Escape([c]) == EscapedChar(c)
  {
    EscapeFirst([c]);
    assert [c][1..] == "" && Escape("") == "";
  }

  /** What a text gives, once something is read before it. */
  function After(path: Path, later: Result<Path, PathError>): Result<Path, PathError> {
    match later
    case Ok(more) => Ok(path + more)
    case Err(e) => Err(e)
  }

  lemma SegmentThenRest(s: string, segment: Segment, n: nat, position: nat)
    requires s != [] && FirstSegment(s, position) == Ok((segment, n))
    ensures SegmentsOf(s, position) == After([segment], SegmentsOf(s[n..], position + n))
  {
    hide FirstSegment;
  }

  lemma AfterAfter(segment: Segment, path: Path, later: Result<Path, PathError>)
    ensures After([], later) == later && After([segment], After(path, later)) == After([segment] + path, later)
  {
    if later.Ok? {
      assert [] + later.value == later.value;
      assert [segment] + (path + later.value) == [segment] + path + later.value;
    }
  }

  lemma StopsBefore(w: string, path: Path, rest: string)
    requires Writes(w, path) && Stops(rest)
    ensures Stops(w + rest)
  {
    WrittenStops(w, path);
    hide Writes, IdChar;
    if w == "" {
      assert w + rest == rest;
    } else {
      assert (w + rest)[0] == w[0];
    }
  }

  /** After a path, what comes next is read on its own. */
  lemma {:induction false} WrittenThen(w: string, path: Path, rest: string, position: nat)
    requires Writes(w, path) && Stops(rest)
    ensures SegmentsOf(w + rest, position) == After(path, SegmentsOf(rest, position + |w|))
    decreases |path|
  {
    hide FirstSegment, Spells, SegmentsOf, Stops, After;
    if path == [] {
      assert w + rest == rest;
      AfterAfter(Each, [], SegmentsOf(rest, position));
    } else {
      var n: nat :| n <= |w| && Spells(w[..n], path[0]) && Writes(w[n..], path[1..]);
      SpelledOpens(w[..n], path[0]);
      StopsBefore(w[n..], path[1..], rest);
      SpelledIsRead(w[..n], path[0], w[n..] + rest, position);
      assert w[..n] + (w[n..] + rest) == w + rest && (w + rest)[n..] == w[n..] + rest;
      SegmentThenRest(w + rest, path[0], n, position);
      WrittenThen(w[n..], path[1..], rest, position + n);
      AfterAfter(path[0], path[1..], SegmentsOf(rest, position + |w|));
      assert [path[0]] + path[1..] == path;
    }
  }

  /** The first thing that opens no segment is what a text is refused for. */
  lemma RefusedAt(w: string, path: Path, s: string, why: PathError)
    requires Writes(w, path) && s != [] && Stops(s) && FirstSegment(s, 1 + |w|) == Err(why)
    ensures PathOf("$" + w + s) == Err(why)
  {
    hide FirstSegment, Writes;
    WrittenThen(w, path, s, 1);
    assert ("$" + w + s)[1..] == w + s;
  }

  predicate OpensList(c: char) {
    c == ']' || c == '"' || c == '?' || c == '*' || c == '\'' || c == '-' || c == ':' || '0' <= c <= '9'
  }

  /** The notations a mapping does not have, wherever they stand. */
  lemma {:induction false} NotationErrors(w: string, path: Path, t: string, c: char)
    requires Writes(w, path)
    ensures PathOf("$" + w + (".." + t)) == Err(Recursive)
    ensures PathOf("$" + w + ("[?" + t)) == Err(Filter)
    ensures PathOf("$" + w + ("[*" + t)) == PathOf("$" + w + (".*" + t)) == Err(Wildcard)
    ensures PathOf("$" + w + ("['" + t)) == Err(SingleQuote)
    ensures c == '-' || c == ':' || '0' <= c <= '9' ==> PathOf("$" + w + ("[" + [c] + t)) == Err(IndexOrSlice)
    ensures PathOf("$" + w + ".") == Err(TrailingDot)
  {
    hide Writes, PathOf;
    DotErrors(w, path, t);
    ListErrors(w, path, t);
    if c == '-' || c == ':' || '0' <= c <= '9' {
      TwoOpen('[', c, t);
      RefusedAt(w, path, "[" + [c] + t, IndexOrSlice);
    }
  }

  lemma DotErrors(w: string, path: Path, t: string)
    requires Writes(w, path)
    ensures PathOf("$" + w + (".." + t)) == Err(Recursive) && PathOf("$" + w + (".*" + t)) == Err(Wildcard)
    ensures PathOf("$" + w + ".") == Err(TrailingDot)
  {
    hide Writes, PathOf;
    TwoOpen('.', '.', t);
    TwoOpen('.', '*', t);
    RefusedAt(w, path, ".." + t, Recursive);
    RefusedAt(w, path, ".*" + t, Wildcard);
    RefusedAt(w, path, ".", TrailingDot);
  }

  lemma ListErrors(w: string, path: Path, t: string)
    requires Writes(w, path)
    ensures PathOf("$" + w + ("[?" + t)) == Err(Filter) && PathOf("$" + w + ("[*" + t)) == Err(Wildcard)
    ensures PathOf("$" + w + ("['" + t)) == Err(SingleQuote)
  {
    hide Writes, PathOf;
    TwoOpen('[', '?', t);
    TwoOpen('[', '*', t);
    TwoOpen('[', '\'', t);
    RefusedAt(w, path, "[?" + t, Filter);
    RefusedAt(w, path, "[*" + t, Wildcard);
    RefusedAt(w, path, "['" + t, SingleQuote);
  }

  lemma TwoOpen(a: char, b: char, t: string)
    ensures var s := [a] + [b] + t; s[0] == a && s[1] == b && (!IdStart(b) ==> IdentLength(s[1..]) == 0)
  {
    assert ([a] + [b] + t)[1..] == [b] + t;
  }

  /** Any other character that cannot stand where it does is named, with its place. */
  lemma {:induction false} UnexpectedErrors(w: string, path: Path, t: string, c: char)
    requires Writes(w, path)
    ensures !IdChar(c) && c != '.' && c != '[' ==> PathOf("$" + w + ([c] + t)) == Err(Unexpected(c, 1 + |w|))
    ensures !IdStart(c) && c != '.' && c != '*' ==> PathOf("$" + w + ("." + [c] + t)) == Err(Unexpected('.', 1 + |w|))
    ensures !OpensList(c) ==> PathOf("$" + w + ("[" + [c] + t)) == Err(Unexpected('[', 1 + |w|))
    ensures PathOf("$" + w + "[") == Err(Unexpected('[', 1 + |w|))
    ensures PathOf("") == Err(NoDollar) && (c != '$' ==> PathOf([c] + t) == Err(NoDollar))
  {
    hide Writes;
    TwoOpen('.', c, t);
    TwoOpen('[', c, t);
    if !IdChar(c) && c != '.' && c != '[' {
      RefusedAt(w, path, [c] + t, Unexpected(c, 1 + |w|));
    }
    if !IdStart(c) && c != '.' && c != '*' {
      assert "." + [c] + t != ".";
      RefusedAt(w, path, "." + [c] + t, Unexpected('.', 1 + |w|));
    }
    if !OpensList(c) {
      RefusedAt(w, path, "[" + [c] + t, Unexpected('[', 1 + |w|));
    }
    RefusedAt(w, path, "[", Unexpected('[', 1 + |w|));
  }

  /** A quoted name that goes on after its escaped part. */
  lemma {:induction false} EscapedThen(name: string, rest: string)
    ensures NameOf(Escape(name) + rest) ==
            match NameOf(rest)
            case Ok(read) => Ok((name + read.0, read.1))
            case Err(e) => Err(e)
    decreases |name|
  {
    hide NameOf, EscapedChar, Escape;
    var later := NameOf(rest);
    if name == "" {
      NothingEscaped();
      assert "" + rest == rest;
      assert later.Ok? ==> "" + later.value.0 == later.value.0;
    } else {
      EscapeFirst(name);
      assert Escape(name) + rest == EscapedChar(name[0]) + (Escape(name[1..]) + rest);
      EscapedCharReads(name[0], Escape(name[1..]) + rest);
      EscapedThen(name[1..], rest);
      assert later.Ok? ==> [name[0]] + (name[1..] + later.value.0) == name + later.value.0;
    }
  }

  lemma NothingEscaped()
    ensures Escape("") == ""
  {
  }

  lemma QuoteRefused(w: string, path: Path, name: string, rest: string, why: PathError)
    requires Writes(w, path) && NameOf(rest) == Err(why)
    ensures PathOf("$" + w + ("[\"" + Escape(name) + rest)) == Err(why)
  {
    hide Writes, NameOf, Escape;
    EscapedThen(name, rest);
    var s := "[\"" + Escape(name) + rest;
    assert s[2..] == Escape(name) + rest;
    assert s[0] == '[' && s[1] == '"';
    RefusedAt(w, path, s, why);
  }

  /** And a quoted name that is not closed, or holds another escape. */
  lemma {:induction false} QuoteErrors(w: string, path: Path, name: string, t: string, c: char)
    requires Writes(w, path)
    ensures PathOf("$" + w + ("[\"" + Escape(name) + "")) == Err(Unterminated)
    ensures PathOf("$" + w + ("[\"" + Escape(name) + "\"")) == Err(QuoteNotClosed)
    ensures c != ']' ==> PathOf("$" + w + ("[\"" + Escape(name) + ("\"" + [c] + t))) == Err(QuoteNotClosed)
    ensures PathOf("$" + w + ("[\"" + Escape(name) + "\\")) == Err(BadEscape)
    ensures c != '\\' && c != '"' ==> PathOf("$" + w + ("[\"" + Escape(name) + ("\\" + [c] + t))) == Err(BadEscape)
  {
    hide Writes, Escape;
    QuoteRefused(w, path, name, "", Unterminated);
    QuoteRefused(w, path, name, "\"", QuoteNotClosed);
    QuoteRefused(w, path, name, "\\", BadEscape);
    if c != ']' {
      QuoteRefused(w, path, name, "\"" + [c] + t, QuoteNotClosed);
    }
    if c != '\\' && c != '"' {
      QuoteRefused(w, path, name, "\\" + [c] + t, BadEscape);
    }
  }

  // ----------------------------------------------------------------- iterate

  /** An `iterate` is its path, or the path that has `[]` after it. */
  lemma {:induction false} IterateMeans(text: string)
    ensures PathOf(text).Err? ==> IteratePath(text) == PathOf(text)
    ensures PathOf(text).Ok? ==>
              var path := PathOf(text).value;
              IteratePath(text) == if path != [] && path[|path| - 1] == Each then PathOf(text) else PathOf(text + "[]")
  {
    if PathOf(text).Ok? {
      var path := PathOf(text).value;
      PathLanguage(text, path);
      hide SegmentsOf, Writes;
      assert (text + "[]")[1..] == text[1..] + "[]" && (text + "[]")[0] == text[0];
      WrittenThen(text[1..], path, "[]", 1);
      EachAlone(1 + |text[1..]|);
    }
  }

  lemma EachAlone(position: nat)
    ensures SegmentsOf("[]", position) == Ok([Each])
  {
    EachIsFirst("", position);
    hide FirstSegment;
    assert "[]" + "" == "[]" && "[]"[2..] == "";
    SegmentThenRest("[]", Each, 2, position);
    assert SegmentsOf("", position + 2) == Ok([]);
    var path: Path := [Each];
    assert path + [] == path;
  }

  // -------------------------------------------------------------- mismatches

  /** What a value is called. */
  predicate Called(v: Value, what: string) {
    && (v.Null? ==> what == "null") && (v.Bool? ==> what == "a boolean") && (v.Int? || v.Float? ==> what == "a number")
    && (v.Str? ==> what == "a string") && (v.Bytes? ==> what == "bytes") && (v.List? ==> what == "a list")
    && (v.Obj? ==> what == "an object") && (v.DateTime? ==> what == "datetime")
  }

  /** The value stands where the segment needs another kind of value. */
  predicate Misfit(v: Value, segment: Segment, m: Mismatch) {
    && Called(v, m.found)
    && if segment.Each? then !v.List? && m.expected == "a list" else !v.Obj? && m.expected == "an object"
  }

  /** Something the walk reaches before its segment `n` does not fit there. */
  ghost predicate Arises(values: seq<Value>, path: Path, n: nat, m: Mismatch)
    requires n < |path|
  {
    exists v :: v in Rows(values, path[..n]) && Misfit(v, path[n], m)
  }

  lemma {:induction false} NotedMeans(noted: seq<Mismatch>, values: seq<Value>, segment: Segment, m: Mismatch)
    ensures m in NotedAll(noted, values, segment) <==> m in noted || exists v :: v in values && Misfit(v, segment, m)
    decreases |values|
  {
    if values != [] {
      NotedMeans(Noted(noted, values[0], segment), values[1..], segment, m);
      OneNoted(noted, values[0], segment, m);
      hide Noted, Misfit;
      assert values == [values[0]] + values[1..];
    }
  }

  lemma OneNoted(noted: seq<Mismatch>, v: Value, segment: Segment, m: Mismatch)
    ensures m in Noted(noted, v, segment) <==> m in noted || Misfit(v, segment, m)
  {
  }

  lemma RowsStep(values: seq<Value>, path: Path, n: nat)
    requires 0 < n <= |path|
    ensures Rows(values, path[..n]) == Rows(StepAll(values, path[0]), path[1..][..n - 1])
  {
    assert path[..n][1..] == path[1..][..n - 1];
  }

  lemma NextArises(values: seq<Value>, path: Path, n: nat, m: Mismatch)
    requires 0 < n < |path|
    ensures Arises(values, path, n, m) <==> Arises(StepAll(values, path[0]), path[1..], n - 1, m)
  {
    hide Rows, StepAll, Misfit;
    RowsStep(values, path, n);
    assert path[1..][n - 1] == path[n];
  }

  lemma FirstArises(values: seq<Value>, path: Path, m: Mismatch)
    requires path != []
    ensures Arises(values, path, 0, m) <==> exists v :: v in values && Misfit(v, path[0], m)
  {
    hide Misfit;
    assert path[..0] == [] && Rows(values, []) == values;
  }

  /** What a walk reports: each mismatch between a value it reaches and the
      segment that comes then. */
  lemma {:induction false} MismatchesMean(noted: seq<Mismatch>, values: seq<Value>, path: Path, m: Mismatch)
    ensures m in Wrong(noted, values, path) <==> m in noted || exists n: nat :: n < |path| && Arises(values, path, n, m)
    decreases |path|
  {
    hide Arises, NotedAll, StepAll;
    if path != [] {
      NotedMeans(noted, values, path[0], m);
      FirstArises(values, path, m);
      MismatchesMean(NotedAll(noted, values, path[0]), StepAll(values, path[0]), path[1..], m);
      forall n: nat | 0 < n < |path| ensures Arises(values, path, n, m) <==> Arises(StepAll(values, path[0]), path[1..], n - 1, m) {
        NextArises(values, path, n, m);
      }
      if n: nat :| n < |path| && Arises(values, path, n, m) {
        if n > 0 {
          assert Arises(StepAll(values, path[0]), path[1..], n - 1, m);
        }
      }
      if n: nat :| n < |path[1..]| && Arises(StepAll(values, path[0]), path[1..], n, m) {
        assert Arises(values, path, n + 1, m);
      }
    }
  }

  predicate Different(noted: seq<Mismatch>) {
    forall i, j :: 0 <= i < j < |noted| ==> noted[i] != noted[j]
  }

  lemma {:induction false} NotedOnce(noted: seq<Mismatch>, values: seq<Value>, segment: Segment)
    requires Different(noted)
    ensures Different(NotedAll(noted, values, segment)) && noted <= NotedAll(noted, values, segment)
    decreases |values|
  {
    if values != [] {
      assert Different(Noted(noted, values[0], segment)) && noted <= Noted(noted, values[0], segment);
      NotedOnce(Noted(noted, values[0], segment), values[1..], segment);
    }
  }

  /** Each is reported once, in the order of the walk: what a part of a path
      reports comes first. */
  lemma {:induction false} MismatchesInOrder(noted: seq<Mismatch>, values: seq<Value>, p: Path, q: Path)
    requires Different(noted)
    ensures Different(Wrong(noted, values, p)) && noted <= Wrong(noted, values, p)
    ensures Wrong(noted, values, p + q) == Wrong(Wrong(noted, values, p), Rows(values, p), q)
    decreases |p|
  {
    hide NotedAll, StepAll;
    if p == [] {
      assert p + q == q;
    } else {
      NotedOnce(noted, values, p[0]);
      assert (p + q)[1..] == p[1..] + q;
      MismatchesInOrder(NotedAll(noted, values, p[0]), StepAll(values, p[0]), p[1..], q);
    }
  }
}
