/**
 The paths the profiler prints, and the two directions between them and the
 parser of `JsonPath`: which printed paths parse back to what was printed.
 */
module PathPrinter {
  import opened Values
  import opened JsonPath

  // ------------------------------------------------------------- printing

  /** `str.replace(c, put)` for a single character `c`. */
  function Replace(s: string, c: char, put: string): string {
    if s == [] then [] else (if s[0] == c then put else [s[0]]) + Replace(s[1..], c, put)
  }

  function Escape(name: string): string {
    Replace(Replace(name, '\\', "\\\\"), '"', "\\\"")
  }

  /** An identifier with one newline after it: `$` in the profiler's regular
      expression also matches just before a final newline. */
  predicate NewlineName(name: string) {
    |name| > 1 && name[|name| - 1] == '\n' && IsIdentifier(name[..|name| - 1])
  }

  predicate SafeUnquoted(name: string) {
    IsIdentifier(name) || NewlineName(name)
  }

  /** `_path_segment`. */
  function PathSegment(name: string): (s: string)
    ensures s != [] && (s[0] == '.' || s[0] == '[')
  {
    if SafeUnquoted(name) then "." + name else "[\"" + Escape(name) + CLOSE
  }

  function SegmentText(segment: Segment): (s: string)
    ensures s != [] && (s[0] == '.' || s[0] == '[')
  {
    if segment.Each? then "[]" else PathSegment(segment.name)
  }

  function TextOf(path: Path): string {
    if path == [] then "" else SegmentText(path[0]) + TextOf(path[1..])
  }

  function Print(path: Path): string {
    "$" + TextOf(path)
  }

  // ---------------------------------------------------- one printed segment

  lemma ReplaceConcat(a: string, b: string, c: char, put: string)
    ensures Replace(a + b, c, put) == Replace(a, c, put) + Replace(b, c, put)
  {
    if a == [] {
      assert a + b == b;
    } else {
      assert (a + b)[1..] == a[1..] + b;
      ReplaceConcat(a[1..], b, c, put);
    }
  }

  function EscapedChar(c: char): string {
    if c == '\\' then "\\\\" else if c == '"' then "\\\"" else [c]
  }

  lemma EscapeFirst(name: string)
    requires name != []
    ensures Escape(name) == EscapedChar(name[0]) + Escape(name[1..])
  {
    var slashed := if name[0] == '\\' then "\\\\" else [name[0]];
    var rest := Replace(name[1..], '\\', "\\\\");
    assert Replace(name, '\\', "\\\\") == slashed + rest;
    ReplaceConcat(slashed, rest, '"', "\\\"");
    if name[0] == '\\' {
      assert slashed[1..] == "\\" && "\\"[1..] == "";
    } else {
      assert slashed[1..] == "";
    }
  }

  lemma EscapedCharReads(c: char, more: string)
    ensures NameOf(EscapedChar(c) + more) == WithChar(c, NameOf(more))
  {
    var text := EscapedChar(c) + more;
    if c == '\\' || c == '"' {
      assert text[0] == '\\' && text[1] == c && text[2..] == more;
    } else {
      assert text[0] == c && text[1..] == more;
    }
  }

  const CLOSE := "\"]"

  /** Reading back an escaped name. */
  lemma {:induction false} NameReadsBack(name: string, rest: string)
    ensures NameOf(Escape(name) + CLOSE + rest) == Ok((name, rest))
  {
    if name == "" {
      assert Escape(name) + CLOSE + rest == CLOSE + rest && (CLOSE + rest)[2..] == rest;
    } else {
      hide Escape, EscapedChar;
      EscapeFirst(name);
      var more := Escape(name[1..]) + CLOSE + rest;
      assert Escape(name) + CLOSE + rest == EscapedChar(name[0]) + more;
      EscapedCharReads(name[0], more);
      NameReadsBack(name[1..], rest);
      assert [name[0]] + name[1..] == name;
    }
  }

  /** A printed text never continues an identifier. */
  predicate Stops(s: string) {
    s == [] || !IdChar(s[0])
  }

  lemma PrintedStops(path: Path)
    ensures Stops(TextOf(path))
  {
    if path != [] {
      assert TextOf(path)[0] == SegmentText(path[0])[0];
    }
  }

  lemma RunOfIdentifier(name: string, rest: string)
    requires forall i :: 0 <= i < |name| ==> IdChar(name[i])
    requires Stops(rest)
    ensures RunLength(name + rest) == |name|
  {
    var n, s := RunLength(name + rest), name + rest;
    assert forall i :: 0 <= i < |name| ==> s[i] == name[i];
    assert rest != [] ==> s[|name|] == rest[0];
  }

  lemma IdentifierLength(name: string, rest: string)
    requires IsIdentifier(name) && Stops(rest)
    ensures IdentLength(name + rest) == |name|
  {
    assert (name + rest)[1..] == name[1..] + rest;
    RunOfIdentifier(name[1..], rest);
  }

  lemma IdentifierReadsBack(name: string, rest: string, position: nat)
    requires IsIdentifier(name) && Stops(rest)
    ensures FirstSegment("." + name + rest, position) == Ok((Key(name), 1 + |name|))
  {
    var s := "." + name + rest;
    assert s[1..] == name + rest;
    IdentifierLength(name, rest);
    assert s[1..1 + |name|] == name;
  }

  lemma QuotedReadsBack(name: string, rest: string, position: nat)
    ensures FirstSegment("[\"" + Escape(name) + CLOSE + rest, position) == Ok((Key(name), 4 + |Escape(name)|))
  {
    var s := "[\"" + Escape(name) + CLOSE + rest;
    assert s[2..] == Escape(name) + CLOSE + rest;
    NameReadsBack(name, rest);
    assert s[0] == '[' && s[1] == '"';
  }

  lemma SegmentReadsBack(segment: Segment, rest: string, position: nat)
    requires Stops(rest)
    requires segment.Key? ==> !NewlineName(segment.name)
    ensures FirstSegment(SegmentText(segment) + rest, position) == Ok((segment, |SegmentText(segment)|))
  {
    if segment.Each? {
      assert ("[]" + rest)[0] == '[' && ("[]" + rest)[1] == ']';
    } else if IsIdentifier(segment.name) {
      IdentifierReadsBack(segment.name, rest, position);
    } else {
      QuotedReadsBack(segment.name, rest, position);
      assert |SegmentText(segment)| == 4 + |Escape(segment.name)|;
    }
  }

  lemma SegmentThen(segment: Segment, rest: string, position: nat)
    requires Stops(rest)
    requires segment.Key? ==> !NewlineName(segment.name)
    ensures SegmentsOf(SegmentText(segment) + rest, position)
         == match SegmentsOf(rest, position + |SegmentText(segment)|)
            case Ok(more) => Ok([segment] + more)
            case Err(e) => Err(e)
  {
    hide FirstSegment, SegmentText;
    var s, n := SegmentText(segment) + rest, |SegmentText(segment)|;
    SegmentReadsBack(segment, rest, position);
    assert s[n..] == rest && s != [];
  }

  lemma NewlineNameRefused(name: string, rest: string, position: nat)
    requires NewlineName(name)
    ensures SegmentsOf(PathSegment(name) + rest, position).Err?
  {
    var s := PathSegment(name) + rest;
    var n := |name| - 1;
    var after := "\n" + rest;
    assert s[1..] == name[..n] + after;
    IdentifierLength(name[..n], after);
    assert FirstSegment(s, position) == Ok((Key(s[1..1 + n]), 1 + n));
    assert s[1 + n..] == after;
    assert FirstSegment(after, position + 1 + n).Err?;
  }

  lemma NewlineNameCut(name: string, rest: string, position: nat)
    requires NewlineName(name)
    ensures FirstSegment(PathSegment(name) + rest, position) == Ok((Key(name[..|name| - 1]), |name|))
  {
    var n, s := |name| - 1, PathSegment(name) + rest;
    assert s[1..] == name[..n] + ("\n" + rest);
    IdentifierLength(name[..n], "\n" + rest);
    hide IsIdentifier, Escape;
    assert s[1..1 + n] == name[..n];
  }

  /** A name is printed bare exactly when it is an identifier, with or without one
      newline after it; and its segment, whatever is printed after it, is read
      back as that name exactly when there is no such newline. */
  lemma {:induction false} SegmentExact(name: string, rest: string, position: nat)
    requires Stops(rest)
    ensures PathSegment(name)[0] == '.' <==> IsIdentifier(name) || NewlineName(name)
    ensures FirstSegment(PathSegment(name) + rest, position) == Ok((Key(name), |PathSegment(name)|)) <==> !NewlineName(name)
  {
    hide FirstSegment, Escape, IsIdentifier;
    if NewlineName(name) {
      NewlineNameCut(name, rest, position);
    } else {
      SegmentReadsBack(Key(name), rest, position);
    }
  }

  // -------------------------------------------------------------- round trip

  /** The names the round trip is good for: all of them but one family. */
  predicate Printable(path: Path) {
    forall i :: 0 <= i < |path| && path[i].Key? ==> !NewlineName(path[i].name)
  }

  lemma {:induction false} TextReadsBack(path: Path, position: nat)
    requires Printable(path)
    ensures SegmentsOf(TextOf(path), position) == Ok(path)
  {
    hide FirstSegment, SegmentText;
    if path != [] {
      PrintedStops(path[1..]);
      SegmentThen(path[0], TextOf(path[1..]), position);
      TextReadsBack(path[1..], position + |SegmentText(path[0])|);
      assert [path[0]] + path[1..] == path;
    }
  }

  lemma {:induction false} NewlineRefused(path: Path, position: nat)
    requires !Printable(path)
    ensures SegmentsOf(TextOf(path), position).Err?
  {
    hide FirstSegment, PathSegment;
    var segment, rest := path[0], path[1..];
    if segment.Key? && NewlineName(segment.name) {
      NewlineNameRefused(segment.name, TextOf(rest), position);
      assert SegmentText(segment) == PathSegment(segment.name);
    } else {
      var i :| 0 <= i < |path| && path[i].Key? && NewlineName(path[i].name);
      assert rest[i - 1] == path[i];
      PrintedStops(rest);
      SegmentThen(segment, TextOf(rest), position);
      NewlineRefused(rest, position + |SegmentText(segment)|);
    }
  }

  /** Parsing a printed path gives back exactly what was printed, for every
      name but an identifier followed by one newline; such a path is refused. */
  lemma {:induction false} RoundTrip(path: Path)
    ensures PathOf(Print(path)) == Ok(path) <==> Printable(path)
    ensures !Printable(path) ==> PathOf(Print(path)).Err?
  {
    assert Print(path)[1..] == TextOf(path);
    if Printable(path) {
      TextReadsBack(path, 1);
    } else {
      NewlineRefused(path, 1);
    }
  }

  /** The segment a printed text opens with, read as it was printed: a bare name
      may end with the newline that the parser refuses. */
  function PrintedSegment(s: string): (r: Option<(Segment, nat)>)
    requires s != []
    ensures r.Some? ==> r.value.1 <= |s|
  {
    if s[0] == '.' then
      var n := IdentLength(s[1..]);
      var m := if 1 + n < |s| && s[1 + n] == '\n' then n + 1 else n;
      Some((Key(s[1..1 + m]), 1 + m))
    else if Opens(s, '[', ']') then Some((Each, 2))
    else if !Opens(s, '[', '"') then None
    else match NameOf(s[2..])
         case Ok(read) => Some((Key(read.0), |s| - |read.1|))
         case Err(_) => None
  }

  lemma PrintedOpens(path: Path)
    ensures TextOf(path) != [] ==> TextOf(path)[0] == '.' || TextOf(path)[0] == '['
  {
    if path != [] {
      assert TextOf(path)[0] == SegmentText(path[0])[0];
    }
  }

  lemma IdentifierIsRead(name: string, rest: string)
    requires IsIdentifier(name) && (rest != [] ==> rest[0] == '.' || rest[0] == '[')
    ensures PrintedSegment("." + name + rest) == Some((Key(name), 1 + |name|))
  {
    var s := "." + name + rest;
    assert s[1..] == name + rest;
    IdentifierLength(name, rest);
    hide IsIdentifier, IdentLength;
    assert rest != [] ==> s[1 + |name|] == rest[0];
    assert s[1..1 + |name|] == name;
  }

  lemma NewlineNameIsRead(bare: string, rest: string)
    requires IsIdentifier(bare)
    ensures PrintedSegment("." + (bare + "\n") + rest) == Some((Key(bare + "\n"), 2 + |bare|))
  {
    var s, after := "." + (bare + "\n") + rest, "\n" + rest;
    assert s[1..] == bare + after;
    IdentifierLength(bare, after);
    hide IsIdentifier, IdentLength;
    assert s[1 + |bare|] == after[0] == '\n';
    assert s[1..2 + |bare|] == bare + "\n";
  }

  lemma BareNameIsRead(name: string, rest: string)
    requires SafeUnquoted(name) && (rest != [] ==> rest[0] == '.' || rest[0] == '[')
    ensures PrintedSegment("." + name + rest) == Some((Key(name), 1 + |name|))
  {
    hide PrintedSegment, IsIdentifier;
    if IsIdentifier(name) {
      IdentifierIsRead(name, rest);
    } else {
      var bare := name[..|name| - 1];
      assert name == bare + "\n";
      NewlineNameIsRead(bare, rest);
    }
  }

  lemma EachIsRead(rest: string)
    ensures PrintedSegment("[]" + rest) == Some((Each, 2))
  {
    assert ("[]" + rest)[0] == '[' && ("[]" + rest)[1] == ']';
  }

  lemma QuotedIsRead(name: string, rest: string)
    ensures PrintedSegment("[\"" + Escape(name) + CLOSE + rest) == Some((Key(name), 4 + |Escape(name)|))
  {
    hide Escape, NameOf;
    var s := "[\"" + Escape(name) + CLOSE + rest;
    assert s[2..] == Escape(name) + CLOSE + rest && s[0] == '[' && s[1] == '"';
    NameReadsBack(name, rest);
  }

  lemma PrintedIsRead(segment: Segment, rest: string)
    requires rest != [] ==> rest[0] == '.' || rest[0] == '['
    ensures PrintedSegment(SegmentText(segment) + rest) == Some((segment, |SegmentText(segment)|))
  {
    hide PrintedSegment, Escape, SafeUnquoted;
    if segment.Each? {
      EachIsRead(rest);
    } else if SafeUnquoted(segment.name) {
      BareNameIsRead(segment.name, rest);
    } else {
      QuotedIsRead(segment.name, rest);
    }
  }

  lemma {:induction false} TextInjective(p: Path, q: Path)
    requires TextOf(p) == TextOf(q)
    ensures p == q
    decreases |p|
  {
    hide SegmentText, PrintedSegment;
    if p != [] && q != [] {
      PrintedOpens(p[1..]);
      PrintedOpens(q[1..]);
      PrintedIsRead(p[0], TextOf(p[1..]));
      PrintedIsRead(q[0], TextOf(q[1..]));
      var n := |SegmentText(p[0])|;
      assert TextOf(p)[n..] == TextOf(p[1..]) && TextOf(q)[n..] == TextOf(q[1..]);
      TextInjective(p[1..], q[1..]);
      assert p == [p[0]] + p[1..] && q == [q[0]] + q[1..];
    }
  }

  /** Two different paths are never printed alike, whatever their names: not even
      those whose printed form the parser refuses. */
  lemma {:induction false} PrintInjective(p: Path, q: Path)
    requires Print(p) == Print(q)
    ensures p == q
  {
    assert Print(p)[1..] == TextOf(p) && Print(q)[1..] == TextOf(q);
    TextInjective(p, q);
  }

  /** Printing what was parsed and parsing it again changes nothing, unless the
      text quoted a name that the printer then leaves bare. */
  lemma {:induction false} ParsePrintParse(text: string)
    requires PathOf(text).Ok?
    ensures PathOf(Print(PathOf(text).value)) == PathOf(text) <==> Printable(PathOf(text).value)
  {
    RoundTrip(PathOf(text).value);
  }

  lemma QuotedNewline()
    ensures NameOf("a\n\"]") == Ok(("a\n", ""))
  {
    assert NameOf("\"]") == Ok(("", "")) by { assert "\"]"[2..] == ""; }
    assert "\n\"]"[1..] == "\"]" && "a\n\"]"[1..] == "\n\"]";
    assert NameOf("\n\"]") == Ok(("\n", "")) by { assert ['\n'] + "" == "\n"; }
    assert ['a'] + "\n" == "a\n";
  }

  /** A text that parses, and whose printed form does not. */
  lemma {:induction false} NewlineWitness()
    ensures PathOf("$[\"a\n\"]") == Ok([Key("a\n")])
    ensures PathOf(Print([Key("a\n")])).Err?
  {
    hide NameOf, Print;
    var text, name := "$[\"a\n\"]", "a\n";
    var tail := text[1..];
    assert tail == "[\"a\n\"]" && tail[2..] == "a\n\"]";
    QuotedNewline();
    assert FirstSegment(tail, 1) == Ok((Key(name), 6));
    assert tail[6..] == "" && [Key(name)] + [] == [Key(name)];
    assert name[..1] == "a";
    RoundTrip([Key(name)]);
    assert !Printable([Key(name)]) by { assert [Key(name)][0].name == name; }
  }

  // ------------------------------------------------ printed paths as sources

  /** Index just after the last `[]`, 0 when there is none. */
  function AfterLastEach(path: Path): (n: nat)
    ensures n <= |path|
    ensures n > 0 ==> path[n - 1].Each?
    ensures KeysOnly(path[n..])
  {
    if path == [] then 0
    else if path[|path| - 1].Each? then |path|
    else
      var n := AfterLastEach(path[..|path| - 1]);
      assert path[n..] == path[..|path| - 1][n..] + [path[|path| - 1]];
      n
  }

  /** A printed path is accepted as a field source, and reads the keys after its
      last `[]`, once `iterate` is its own prefix up to that `[]`. */
  lemma {:induction false} PrintedSourceAccepted(path: Path)
    requires Printable(path)
    ensures var n := AfterLastEach(path);
            if n == 0 then SourcePath(Print(path), []) == Ok(path)
            else && IteratePath(Print(path[..n])) == Ok(path[..n])
                 && SourcePath(Print(path), path[..n]) == Ok(path[n..])
  {
    var n := AfterLastEach(path);
    RoundTrip(path);
    RoundTrip(path[..n]);
    assert path[0..] == path;
    assert path[..n] <= path && path[|path[..n]|..] == path[n..];
  }

  // --------------------------------------------- the columns of a data frame

  /** Column types, as far as flattening distinguishes them. */
  datatype Column = Struct(members: seq<(string, Column)>) | ListOf(item: Column) | Leaf

  /** Where the leaves of a column stand, below a path. */
  function LeavesOf(column: Column, at: Path): seq<Path>
    decreases column, 0
  {
    match column
    case Leaf => [at]
    case ListOf(item) => LeavesOf(item, at + [Each])
    case Struct(members) => MemberLeaves(column, members, at)
  }

  function MemberLeaves(owner: Column, members: seq<(string, Column)>, at: Path): seq<Path>
    requires forall m :: m in members ==> m.1 < owner
    decreases owner, 0, |members|
  {
    if members == [] then []
    else LeavesOf(members[0].1, at + [Key(members[0].0)]) + MemberLeaves(owner, members[1..], at)
  }

  function PrintAll(paths: seq<Path>): seq<string> {
    if paths == [] then [] else [Print(paths[0])] + PrintAll(paths[1..])
  }

  lemma PrintAllConcat(a: seq<Path>, b: seq<Path>)
    ensures PrintAll(a + b) == PrintAll(a) + PrintAll(b)
  {
    if a == [] {
      assert a + b == b;
    } else {
      assert (a + b)[1..] == a[1..] + b;
      PrintAllConcat(a[1..], b);
    }
  }

  lemma TextConcat(p: Path, q: Path)
    ensures TextOf(p + q) == TextOf(p) + TextOf(q)
  {
    if p == [] {
      assert p + q == q;
    } else {
      assert (p + q)[1..] == p[1..] + q;
      TextConcat(p[1..], q);
    }
  }

  lemma PrintSnoc(p: Path, segment: Segment)
    ensures Print(p + [segment]) == Print(p) + SegmentText(segment)
  {
    hide SegmentText;
    TextConcat(p, [segment]);
    assert [segment][1..] == [];
    assert TextOf([segment]) == SegmentText(segment) + "" == SegmentText(segment);
  }

  /** `_flatten_series`: the printed path of every leaf below `path`. */
  method FlattenSeries(column: Column, path: string, ghost at: Path) returns (leaves: seq<string>)
    requires path == Print(at)
    ensures leaves == PrintAll(LeavesOf(column, at))
    decreases column, 0
  {
    match column {
      case Leaf =>
        leaves := [path];
      case ListOf(item) =>
        PrintSnoc(at, Each);
        leaves := FlattenSeries(item, path + "[]", at + [Each]);
      case Struct(members) =>
        leaves := LeafColumns(column, members, path, at);
    }
  }

  /** `_leaf_columns`, and the same loop over the members of a struct. */
  method LeafColumns(ghost owner: Column, members: seq<(string, Column)>, prefix: string, ghost at: Path)
    returns (leaves: seq<string>)
    requires forall m :: m in members ==> m.1 < owner
    requires prefix == Print(at)
    ensures leaves == PrintAll(MemberLeaves(owner, members, at))
    decreases owner, 0, |members|
  {
    hide PrintAll, LeavesOf, MemberLeaves, Print;
    leaves := [];
    assert members[0..] == members;
    for i := 0 to |members|
      invariant leaves + PrintAll(MemberLeaves(owner, members[i..], at)) == PrintAll(MemberLeaves(owner, members, at))
    {
      var (name, column) := members[i];
      assert members[i] in members;
      PrintSnoc(at, Key(name));
      var below := FlattenSeries(column, prefix + PathSegment(name), at + [Key(name)]);
      NextMember(owner, members, at, i);
      assert leaves + (below + PrintAll(MemberLeaves(owner, members[i + 1..], at)))
          == leaves + below + PrintAll(MemberLeaves(owner, members[i + 1..], at));
      leaves := leaves + below;
    }
    NoMembers(owner, members[|members|..], at);
  }

  lemma NextMember(owner: Column, members: seq<(string, Column)>, at: Path, i: nat)
    requires i < |members| && forall m :: m in members ==> m.1 < owner
    ensures PrintAll(MemberLeaves(owner, members[i..], at))
         == PrintAll(LeavesOf(members[i].1, at + [Key(members[i].0)])) + PrintAll(MemberLeaves(owner, members[i + 1..], at))
  {
    hide PrintAll, LeavesOf;
    assert members[i..][1..] == members[i + 1..];
    PrintAllConcat(LeavesOf(members[i].1, at + [Key(members[i].0)]), MemberLeaves(owner, members[i + 1..], at));
  }

  lemma NoMembers(owner: Column, members: seq<(string, Column)>, at: Path)
    requires members == []
    ensures PrintAll(MemberLeaves(owner, members, at)) == []
  {
  }

  /** The path leads from a column to a leaf: through the item of a list, or the
      member that its key names. */
  predicate Reaches(column: Column, path: Path)
    decreases |path|
  {
    if path == [] then column.Leaf?
    else
      match path[0]
      case Each => column.ListOf? && Reaches(column.item, path[1..])
      case Key(name) =>
        column.Struct? && exists m :: 0 <= m < |column.members| && column.members[m].0 == name && Reaches(column.members[m].1, path[1..])
  }

  lemma {:induction false} LeavesReach(column: Column, at: Path, path: Path)
    ensures at + path in LeavesOf(column, at) <==> Reaches(column, path)
    decreases column, 0
  {
    hide Reaches;
    match column {
      case Leaf =>
        AtALeaf(path);
        assert at + path == at <==> path == [];
      case ListOf(item) =>
        BelowAList(item, path);
        if path != [] && path[0] == Each {
          assert at + path == (at + [Each]) + path[1..];
          LeavesReach(item, at + [Each], path[1..]);
        } else if at + path in LeavesOf(item, at + [Each]) {
          LeavesExtend(item, at + [Each], at + path);
          NextIs(at, Each, path);
        }
      case Struct(members) =>
        MembersReach(column, members, at, path);
        BelowAStruct(members, path);
    }
  }

  lemma NextIs(at: Path, segment: Segment, path: Path)
    requires at + [segment] <= at + path
    ensures path != [] && path[0] == segment
  {
    assert (at + path)[|at|] == (at + [segment])[|at|];
  }

  lemma AtALeaf(path: Path)
    ensures Reaches(Leaf, path) <==> path == []
  {
  }

  lemma BelowAList(item: Column, path: Path)
    ensures Reaches(ListOf(item), path) <==> path != [] && path[0] == Each && Reaches(item, path[1..])
  {
  }

  /** One of the members is named by the first key, and leads on. */
  predicate MemberReaches(members: seq<(string, Column)>, path: Path) {
    && path != [] && path[0].Key?
    && exists m :: 0 <= m < |members| && members[m].0 == path[0].name && Reaches(members[m].1, path[1..])
  }

  lemma BelowAStruct(members: seq<(string, Column)>, path: Path)
    ensures Reaches(Struct(members), path) <==> MemberReaches(members, path)
  {
  }

  lemma {:induction false} MembersReach(owner: Column, members: seq<(string, Column)>, at: Path, path: Path)
    requires forall m :: m in members ==> m.1 < owner
    ensures at + path in MemberLeaves(owner, members, at) <==> MemberReaches(members, path)
    decreases owner, 0, |members|
  {
    hide Reaches, LeavesOf;
    if members != [] {
      var (name, column) := members[0];
      assert members[0] in members;
      MembersReach(owner, members[1..], at, path);
      assert members == [members[0]] + members[1..];
      if path != [] && path[0] == Key(name) {
        assert at + path == (at + [Key(name)]) + path[1..];
        LeavesReach(column, at + [Key(name)], path[1..]);
      } else if at + path in LeavesOf(column, at + [Key(name)]) {
        LeavesExtend(column, at + [Key(name)], at + path);
        NextIs(at, Key(name), path);
      }
    }
  }

  /** Leaves stand below the path they are looked for at. */
  lemma {:induction false} LeavesExtend(column: Column, at: Path, path: Path)
    requires path in LeavesOf(column, at)
    ensures at <= path
    decreases column, 0
  {
    match column {
      case Leaf =>
      case ListOf(item) => LeavesExtend(item, at + [Each], path);
      case Struct(members) => MembersExtend(column, members, at, path);
    }
  }

  lemma {:induction false} MembersExtend(owner: Column, members: seq<(string, Column)>, at: Path, path: Path)
    requires (forall m :: m in members ==> m.1 < owner) && path in MemberLeaves(owner, members, at)
    ensures at <= path
    decreases owner, 0, |members|
  {
    var (name, column) := members[0];
    assert members[0] in members;
    if path in LeavesOf(column, at + [Key(name)]) {
      LeavesExtend(column, at + [Key(name)], path);
    } else {
      MembersExtend(owner, members[1..], at, path);
    }
  }

  /** The leaves of a column are the paths that lead to one. */
  lemma {:induction false} LeavesExact(column: Column, path: Path)
    ensures path in LeavesOf(column, []) <==> Reaches(column, path)
  {
    LeavesReach(column, [], path);
    assert [] + path == path;
  }
}
