/**
 The redaction of records before a provider sees them. The rules are parameters:
 each is a rewriting of a text. What is proved is that, for any rules, the
 rewritten tree keeps the structure of the record and stays within its bounds.
 */
module Sanitizer {
  import opened Values

  const TRUNCATION_MARKER := "\U{2026}[truncated]"
  const MAX_DEPTH := 20
  const TOO_DEEP := "[REDACTED_TOO_DEEP]"

  type Rule = string -> string

  /** A dictionary key: a text, or another hashable by its `str`. */
  datatype Key = Text(s: string) | Other(str: string)

  /** A decoded record: dictionaries keep the order of their keys. A `Typed`
      leaf is a value coerced to text; `Plain` ones pass through. */
  datatype Node =
    | Dict(entries: seq<(Key, Node)>)
    | Items(items: seq<Node>)
    | Str(s: string)
    | Plain(v: Value)
    | Binary(size: nat)
    | Typed(str: string)

  datatype Clean =
    | CleanDict(fields: seq<(string, Clean)>)
    | CleanList(elements: seq<Clean>)
    | CleanStr(t: string)
    | CleanPlain(v: Value)

  datatype Limits = Limits(values: nat, items: nat)

  // ------------------------------------------------------------------- texts

  function Redacted(rules: seq<Rule>, text: string): string {
    if rules == [] then text else rules[|rules| - 1](Redacted(rules[..|rules| - 1], text))
  }

  /** `_apply`. */
  method Apply(rules: seq<Rule>, text: string) returns (r: string)
    ensures r == Redacted(rules, text)
  {
    r := text;
    for i := 0 to |rules|
      invariant r == Redacted(rules[..i], text)
    {
      assert rules[..i + 1][..i] == rules[..i];
      r := rules[i](r);
    }
    assert rules[..|rules|] == rules;
  }

  function Truncated(text: string, limit: nat): (r: string)
    ensures |r| <= limit
    ensures |text| <= limit ==> r == text
    ensures |text| > limit > |TRUNCATION_MARKER| ==> |r| == limit && r[limit - |TRUNCATION_MARKER|..] == TRUNCATION_MARKER
  {
    if |text| <= limit then text
    else if limit <= |TRUNCATION_MARKER| then text[..limit]
    else text[..limit - |TRUNCATION_MARKER|] + TRUNCATION_MARKER
  }

  /** `sanitize_value`: redacted first, then bounded; None is its ValueError. */
  method SanitizeValue(rules: seq<Rule>, value: string, limit: int) returns (r: Option<string>)
    ensures r.None? <==> limit < 1
    ensures r.Some? ==> r.value == Truncated(Redacted(rules, value), limit) && |r.value| <= limit
  {
    if limit < 1 {
      return None;
    }
    var text := Apply(rules, value);
    return Some(Truncated(text, limit));
  }

  // -------------------------------------------------------------------- keys

  function Digit(n: nat): char
    requires n < 10
  {
    "0123456789"[n]
  }

  function Decimal(n: nat): (r: string)
    ensures |r| > 0
  {
    if n < 10 then [Digit(n)] else Decimal(n / 10) + [Digit(n % 10)]
  }

  lemma {:induction false} DecimalInjective(a: nat, b: nat)
    requires Decimal(a) == Decimal(b)
    ensures a == b
    decreases a
  {
    assert Decimal(a)[|Decimal(a)| - 1] == Digit(a % 10) && Decimal(b)[|Decimal(b)| - 1] == Digit(b % 10);
    DigitInjective(a % 10, b % 10);
    if a >= 10 && b >= 10 {
      assert Decimal(a)[..|Decimal(a)| - 1] == Decimal(a / 10) && Decimal(b)[..|Decimal(b)| - 1] == Decimal(b / 10);
      DecimalInjective(a / 10, b / 10);
    }
  }

  lemma DigitInjective(a: nat, b: nat)
    requires a < 10 && b < 10 && Digit(a) == Digit(b)
    ensures a == b
  {
  }

  function Numbered(name: string, suffix: nat): string {
    name + "#" + Decimal(suffix)
  }

  lemma NumberedInjective(name: string, a: nat, b: nat)
    requires Numbered(name, a) == Numbered(name, b)
    ensures a == b
  {
    assert Numbered(name, a)[|name| + 1..] == Decimal(a) && Numbered(name, b)[|name| + 1..] == Decimal(b);
    DecimalInjective(a, b);
  }

  /** The name a key is given, among those taken before it: its own, or with the
      least suffix from 2 that is free. */
  ghost predicate NameFor(taken: set<string>, clean: string, name: string) {
    if clean !in taken then name == clean
    else
      name !in taken && exists k: nat :: IsLeast(taken, clean, name, k)
  }

  predicate IsLeast(taken: set<string>, clean: string, name: string, k: nat) {
    k >= 2 && name == Numbered(clean, k) && forall j: nat :: 2 <= j < k ==> Numbered(clean, j) in taken
  }

  lemma NameIsUnique(taken: set<string>, clean: string, a: string, b: string)
    requires NameFor(taken, clean, a) && NameFor(taken, clean, b)
    ensures a == b
  {
    if clean in taken {
      var j: nat :| IsLeast(taken, clean, a, j);
      var k: nat :| IsLeast(taken, clean, b, k);
      assert j == k;
    }
  }

  /** The names tried are distinct and all taken: no more of them than names. */
  lemma {:induction false} Pigeonhole(taken: set<string>, clean: string, suffix: nat)
    requires 2 <= suffix && forall j: nat :: 2 <= j < suffix ==> Numbered(clean, j) in taken
    ensures suffix - 2 <= |taken|
    decreases suffix
  {
    if suffix > 2 {
      var last := Numbered(clean, suffix - 1);
      forall j: nat | 2 <= j < suffix - 1 ensures Numbered(clean, j) in taken - {last} {
        if Numbered(clean, j) == last {
          NumberedInjective(clean, j, suffix - 1);
        }
      }
      Pigeonhole(taken - {last}, clean, suffix - 1);
    }
  }

  /** The suffix search: it ends. */
  method FindName(taken: set<string>, clean: string) returns (name: string)
    ensures name !in taken && NameFor(taken, clean, name)
  {
    name := clean;
    if clean in taken {
      var suffix := 2;
      hide Numbered;
      while Numbered(clean, suffix) in taken
        invariant 2 <= suffix
        invariant forall j: nat :: 2 <= j < suffix ==> Numbered(clean, j) in taken
        decreases |taken| + 3 - suffix
      {
        Pigeonhole(taken, clean, suffix + 1);
        suffix := suffix + 1;
      }
      name := Numbered(clean, suffix);
      assert IsLeast(taken, clean, name, suffix);
    }
  }

  // --------------------------------------------------------------- structure

  function CleanKey(rules: seq<Rule>, key: Key): string {
    if key.Text? then Redacted(rules, key.s) else key.str
  }

  function NamesOf(fields: seq<(string, Clean)>): set<string> {
    set i | 0 <= i < |fields| :: fields[i].0
  }

  function CleanScalar(rules: seq<Rule>, limits: Limits, node: Node): Clean
    requires !node.Dict? && !node.Items?
  {
    match node
    case Str(s) => CleanStr(Truncated(Redacted(rules, s), limits.values))
    case Plain(v) => CleanPlain(v)
    case Binary(size) => CleanStr("[BINARY:" + Decimal(size) + " bytes]")
    case Typed(s) => CleanStr(Truncated(Redacted(rules, s), limits.values))
  }

  /** `out` is what `_sanitize` makes of `node` at this depth: the same objects
      with the same keys in order, under their redacted names, the first items
      of each list, and the leaves redacted and bounded. */
  ghost predicate Mirrors(rules: seq<Rule>, limits: Limits, node: Node, depth: nat, out: Clean)
    decreases node
  {
    if depth > MAX_DEPTH then out == CleanStr(TOO_DEEP)
    else
      match node
      case Dict(entries) =>
        && out.CleanDict? && |out.fields| == |entries|
        && (forall i :: 0 <= i < |entries| ==> NameFor(NamesOf(out.fields[..i]), CleanKey(rules, entries[i].0), out.fields[i].0))
        && forall i :: 0 <= i < |entries| ==> Mirrors(rules, limits, entries[i].1, depth + 1, out.fields[i].1)
      case Items(items) =>
        && out.CleanList? && |out.elements| == (if |items| <= limits.items then |items| else limits.items)
        && forall i :: 0 <= i < |out.elements| ==> Mirrors(rules, limits, items[i], depth + 1, out.elements[i])
      case _ => out == CleanScalar(rules, limits, node)
  }

  /** `_sanitize_scalar`: everything that is not a container. */
  method SanitizeScalar(rules: seq<Rule>, limits: Limits, node: Node) returns (out: Clean)
    requires !node.Dict? && !node.Items? && limits.values >= 1
    ensures out == CleanScalar(rules, limits, node)
  {
    match node {
      case Str(s) =>
        var text := SanitizeValue(rules, s, limits.values);
        return CleanStr(text.value);
      case Plain(v) => return CleanPlain(v);
      case Binary(size) => return CleanStr("[BINARY:" + Decimal(size) + " bytes]");
      case Typed(s) =>
        var text := SanitizeValue(rules, s, limits.values);
        return CleanStr(text.value);
    }
  }

  method CleanEntries(rules: seq<Rule>, limits: Limits, node: Node, depth: nat) returns (fields: seq<(string, Clean)>)
    requires node.Dict? && limits.values >= 1
    ensures |fields| == |node.entries|
    ensures forall i :: 0 <= i < |node.entries| ==> NameFor(NamesOf(fields[..i]), CleanKey(rules, node.entries[i].0), fields[i].0)
    ensures forall i :: 0 <= i < |node.entries| ==> Mirrors(rules, limits, node.entries[i].1, depth + 1, fields[i].1)
    decreases node, 0
  {
    fields := [];
    for k := 0 to |node.entries|
      invariant |fields| == k
      invariant forall i :: 0 <= i < k ==> NameFor(NamesOf(fields[..i]), CleanKey(rules, node.entries[i].0), fields[i].0)
      invariant forall i :: 0 <= i < k ==> Mirrors(rules, limits, node.entries[i].1, depth + 1, fields[i].1)
    {
      var key := node.entries[k].0;
      var clean := if key.Text? then Redacted(rules, key.s) else key.str;
      var name := FindName(NamesOf(fields), clean);
      var item := Sanitize(rules, limits, node.entries[k].1, depth + 1);
      ghost var before := fields;
      fields := fields + [(name, item)];
      assert forall i :: 0 <= i <= k ==> fields[..i] == before[..i];
      assert before[..k] == before;
    }
  }

  method CleanItems(rules: seq<Rule>, limits: Limits, node: Node, depth: nat) returns (elements: seq<Clean>)
    requires node.Items? && limits.values >= 1
    ensures |elements| == if |node.items| <= limits.items then |node.items| else limits.items
    ensures forall i :: 0 <= i < |elements| ==> Mirrors(rules, limits, node.items[i], depth + 1, elements[i])
    decreases node, 0
  {
    elements := [];
    var shown := if |node.items| <= limits.items then |node.items| else limits.items;
    for k := 0 to shown
      invariant |elements| == k
      invariant forall i :: 0 <= i < k ==> Mirrors(rules, limits, node.items[i], depth + 1, elements[i])
    {
      var item := Sanitize(rules, limits, node.items[k], depth + 1);
      elements := elements + [item];
    }
  }

  /** `_sanitize`. */
  method Sanitize(rules: seq<Rule>, limits: Limits, node: Node, depth: nat) returns (out: Clean)
    requires limits.values >= 1
    ensures Mirrors(rules, limits, node, depth, out)
    decreases node, 1
  {
    if depth > MAX_DEPTH {
      return CleanStr(TOO_DEEP);
    }
    match node {
      case Dict(_) =>
        var fields := CleanEntries(rules, limits, node, depth);
        return CleanDict(fields);
      case Items(_) =>
        var elements := CleanItems(rules, limits, node, depth);
        return CleanList(elements);
      case _ =>
        out := SanitizeScalar(rules, limits, node);
    }
  }

  /** `sanitize_samples`: None is one of its three ValueErrors. */
  method SanitizeSamples(rules: seq<Rule>, records: seq<Node>, maxRecords: int, maxValue: int, maxItems: int)
    returns (samples: Option<seq<Clean>>)
    ensures samples.None? <==> maxRecords < 0 || maxValue < 1 || maxItems < 1
    ensures samples.Some? ==>
              && |samples.value| == (if |records| <= maxRecords then |records| else maxRecords)
              && forall i :: 0 <= i < |samples.value| ==> Mirrors(rules, Limits(maxValue, maxItems), records[i], 0, samples.value[i])
  {
    if maxRecords < 0 || maxValue < 1 || maxItems < 1 {
      return None;
    }
    var out: seq<Clean> := [];
    var shown := if |records| <= maxRecords then |records| else maxRecords;
    for k := 0 to shown
      invariant |out| == k
      invariant forall i :: 0 <= i < k ==> Mirrors(rules, Limits(maxValue, maxItems), records[i], 0, out[i])
    {
      var sample := Sanitize(rules, Limits(maxValue, maxItems), records[k], 0);
      out := out + [sample];
    }
    return Some(out);
  }

  // -------------------------------------------------------------------- laws

  /** Redaction never merges keys: the names of an object are all different. */
  lemma {:induction false} KeysStayDistinct(rules: seq<Rule>, limits: Limits, node: Node, depth: nat, out: Clean, i: nat, j: nat)
    requires Mirrors(rules, limits, node, depth, out) && out.CleanDict? && i < j < |out.fields|
    ensures out.fields[i].0 != out.fields[j].0
  {
    assert out.fields[..j][i] == out.fields[i];
    assert out.fields[i].0 in NamesOf(out.fields[..j]);
    assert NameFor(NamesOf(out.fields[..j]), CleanKey(rules, node.entries[j].0), out.fields[j].0);
  }

  /** A key keeps its redacted name unless an earlier key of the object has it. */
  lemma {:induction false} FirstKeepsName(rules: seq<Rule>, limits: Limits, node: Node, depth: nat, out: Clean, i: nat)
    requires Mirrors(rules, limits, node, depth, out) && out.CleanDict? && i < |out.fields|
    ensures out.fields[i].0 == CleanKey(rules, node.entries[i].0)
        <==> forall j :: 0 <= j < i ==> out.fields[j].0 != CleanKey(rules, node.entries[i].0)
  {
    var taken := NamesOf(out.fields[..i]);
    assert NameFor(taken, CleanKey(rules, node.entries[i].0), out.fields[i].0);
    assert forall j :: 0 <= j < i ==> out.fields[..i][j] == out.fields[j];
    if CleanKey(rules, node.entries[i].0) in taken {
      var k :| 0 <= k < i && out.fields[..i][k].0 == CleanKey(rules, node.entries[i].0);
      assert out.fields[k].0 == CleanKey(rules, node.entries[i].0);
    }
  }

  function Width(out: Clean): nat {
    match out
    case CleanDict(fields) => |fields|
    case CleanList(elements) => |elements|
    case _ => 0
  }

  function Child(out: Clean, i: nat): Clean
    requires i < Width(out)
  {
    if out.CleanDict? then out.fields[i].1 else out.elements[i]
  }

  /** How deep containers are nested. */
  function Nesting(out: Clean): nat
    decreases out, Width(out) + 1
  {
    if out.CleanDict? || out.CleanList? then 1 + Deepest(out, Width(out)) else 0
  }

  /** The deepest of the first `n` children. */
  function Deepest(out: Clean, n: nat): nat
    requires n <= Width(out)
    decreases out, n
  {
    if n == 0 then 0
    else
      var before, last := Deepest(out, n - 1), Nesting(Child(out, n - 1));
      if before < last then last else before
  }

  lemma ChildrenNest(out: Clean, n: nat, bound: nat)
    requires n <= Width(out) && forall i :: 0 <= i < Width(out) ==> Nesting(Child(out, i)) <= bound
    ensures Deepest(out, n) <= bound
  {
    if n > 0 {
      ChildrenNest(out, n - 1, bound);
    }
  }

  /** Nesting is bounded, however deep the record is. */
  lemma {:induction false} NestingIsBounded(rules: seq<Rule>, limits: Limits, node: Node, depth: nat, out: Clean)
    requires Mirrors(rules, limits, node, depth, out)
    ensures Nesting(out) <= if depth <= 20 then 21 - depth else 0
    decreases node
  {
    if depth <= MAX_DEPTH {
      var bound := MAX_DEPTH - depth;
      match node {
        case Dict(entries) =>
          forall i | 0 <= i < Width(out) ensures Nesting(Child(out, i)) <= bound {
            NestingIsBounded(rules, limits, entries[i].1, depth + 1, out.fields[i].1);
          }
          ChildrenNest(out, Width(out), bound);
        case Items(items) =>
          forall i | 0 <= i < Width(out) ensures Nesting(Child(out, i)) <= bound {
            NestingIsBounded(rules, limits, items[i], depth + 1, out.elements[i]);
          }
          ChildrenNest(out, Width(out), bound);
        case _ =>
      }
    }
  }

  /** A text the sanitizer writes by itself, whatever the budget. */
  ghost predicate Notice(t: string) {
    t == TOO_DEEP || exists size: nat :: t == "[BINARY:" + Decimal(size) + " bytes]"
  }

  /** Every list within its budget, every text within its own. */
  ghost predicate Within(limits: Limits, out: Clean) {
    match out
    case CleanDict(fields) => forall i :: 0 <= i < |fields| ==> Within(limits, fields[i].1)
    case CleanList(elements) => |elements| <= limits.items && forall i :: 0 <= i < |elements| ==> Within(limits, elements[i])
    case CleanStr(t) => |t| <= limits.values || Notice(t)
    case CleanPlain(_) => true
  }

  lemma {:induction false} StaysWithin(rules: seq<Rule>, limits: Limits, node: Node, depth: nat, out: Clean)
    requires Mirrors(rules, limits, node, depth, out)
    ensures Within(limits, out)
    decreases node
  {
    if depth <= MAX_DEPTH {
      match node {
        case Dict(entries) =>
          forall i | 0 <= i < |entries| ensures Within(limits, out.fields[i].1) {
            StaysWithin(rules, limits, entries[i].1, depth + 1, out.fields[i].1);
          }
        case Items(items) =>
          forall i | 0 <= i < |out.elements| ensures Within(limits, out.elements[i]) {
            StaysWithin(rules, limits, items[i], depth + 1, out.elements[i]);
          }
        case _ =>
      }
    }
  }

  lemma EqualNames(a: seq<(string, Clean)>, b: seq<(string, Clean)>)
    requires |a| == |b| && forall i :: 0 <= i < |a| ==> a[i].0 == b[i].0
    ensures NamesOf(a) == NamesOf(b)
  {
    assert forall i :: 0 <= i < |a| ==> a[i].0 in NamesOf(b) && b[i].0 in NamesOf(a);
  }

  lemma SameNames(rules: seq<Rule>, entries: seq<(Key, Node)>, a: seq<(string, Clean)>, b: seq<(string, Clean)>, n: nat)
    requires |a| == |b| == |entries| && n <= |entries|
    requires forall i :: 0 <= i < |entries| ==> NameFor(NamesOf(a[..i]), CleanKey(rules, entries[i].0), a[i].0)
    requires forall i :: 0 <= i < |entries| ==> NameFor(NamesOf(b[..i]), CleanKey(rules, entries[i].0), b[i].0)
    ensures forall i :: 0 <= i < n ==> a[i].0 == b[i].0
  {
    if n > 0 {
      SameNames(rules, entries, a, b, n - 1);
      EqualNames(a[..n - 1], b[..n - 1]);
      NameIsUnique(NamesOf(a[..n - 1]), CleanKey(rules, entries[n - 1].0), a[n - 1].0, b[n - 1].0);
    }
  }

  /** The result is a function of the record, the rules and the limits. */
  lemma {:induction false} MirrorIsUnique(rules: seq<Rule>, limits: Limits, node: Node, depth: nat, a: Clean, b: Clean)
    requires Mirrors(rules, limits, node, depth, a) && Mirrors(rules, limits, node, depth, b)
    ensures a == b
    decreases node
  {
    if depth <= MAX_DEPTH {
      match node {
        case Dict(entries) =>
          SameNames(rules, entries, a.fields, b.fields, |entries|);
          forall i | 0 <= i < |entries| ensures a.fields[i] == b.fields[i] {
            MirrorIsUnique(rules, limits, entries[i].1, depth + 1, a.fields[i].1, b.fields[i].1);
          }
          assert a.fields == b.fields;
        case Items(items) =>
          forall i | 0 <= i < |a.elements| ensures a.elements[i] == b.elements[i] {
            MirrorIsUnique(rules, limits, items[i], depth + 1, a.elements[i], b.elements[i]);
          }
          assert a.elements == b.elements;
        case _ =>
      }
    }
  }
}
