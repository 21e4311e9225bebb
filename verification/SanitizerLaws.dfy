/**
 What leaves the sanitizer, said without the functions that clean a leaf: the
 order of the rules, what each leaf becomes, where it stands, and that a property
 of all redacted texts is one of all texts that leave.
 */
module SanitizerLaws {
  import opened Values
  import opened Sanitizer

  // ------------------------------------------------------------------ leaves

  /** The rules rewrite a text one after the other, in order. */
  lemma {:induction false} RulesInOrder(first: seq<Rule>, last: seq<Rule>, rule: Rule, text: string)
    ensures Redacted([], text) == text && Redacted([rule], text) == rule(text)
    ensures Redacted(first + last, text) == Redacted(last, Redacted(first, text))
    decreases |last|
  {
    assert [rule][..0] == [];
    if last == [] {
      assert first + last == first;
    } else {
      var n := |last| - 1;
      assert (first + last)[..|first| + n] == first + last[..n];
      RulesInOrder(first, last[..n], rule, text);
    }
  }

  /** A text within its budget: itself when it fits, else its start, and the
      marker when there is room for it. */
  predicate Bounded(text: string, limit: nat, t: string) {
    var marker := "\U{2026}[truncated]";
    if |text| <= limit then t == text
    else if limit <= |marker| then t == text[..limit]
    else t == text[..limit - |marker|] + marker
  }

  /** The number a decimal writes. */
  function Reads(digits: string): nat {
    if digits == [] then 0
    else
      var last := digits[|digits| - 1];
      10 * Reads(digits[..|digits| - 1]) + if '0' <= last <= '9' then (last - '0') as nat else 0
  }

  lemma {:induction false} DecimalReads(n: nat)
    ensures Reads(Decimal(n)) == n
    decreases n
  {
    DigitReads(n % 10);
    var s := Decimal(n);
    if n < 10 {
      assert s[..0] == [];
    } else {
      DecimalReads(n / 10);
      assert s[..|s| - 1] == Decimal(n / 10);
    }
  }

  lemma DigitReads(n: nat)
    requires n < 10
    ensures '0' <= Digit(n) <= '9' && (Digit(n) - '0') as nat == n
  {
  }

  /** What each leaf becomes: a text is redacted and then bounded, and so is what
      is turned into a text; a number, a boolean or a null passes as it is; of a
      binary value only the size is shown; nothing is read past the depth limit. */
  lemma {:induction false} LeafExact(rules: seq<Rule>, limits: Limits, node: Node, depth: nat, out: Clean)
    requires Mirrors(rules, limits, node, depth, out)
    ensures depth > 20 ==> out == CleanStr("[REDACTED_TOO_DEEP]")
    ensures depth <= 20 && node.Str? ==> out.CleanStr? && Bounded(Redacted(rules, node.s), limits.values, out.t)
    ensures depth <= 20 && node.Typed? ==> out.CleanStr? && Bounded(Redacted(rules, node.str), limits.values, out.t)
    ensures depth <= 20 && node.Plain? ==> out == CleanPlain(node.v)
    ensures depth <= 20 && node.Binary? ==>
              exists digits :: Reads(digits) == node.size && out == CleanStr("[BINARY:" + digits + " bytes]")
  {
    if depth <= MAX_DEPTH && node.Binary? {
      DecimalReads(node.size);
      assert Reads(Decimal(node.size)) == node.size;
    }
    hide Redacted;
  }

  // ------------------------------------------------------------------- places

  predicate NodeHas(node: Node, i: nat) {
    (node.Dict? && i < |node.entries|) || (node.Items? && i < |node.items|)
  }

  function NodeChild(node: Node, i: nat): Node
    requires NodeHas(node, i)
  {
    if node.Dict? then node.entries[i].1 else node.items[i]
  }

  /** The part of a record, and of a result, at a place: child by child. */
  function NodeAt(node: Node, place: seq<nat>): Option<Node>
    decreases |place|
  {
    if place == [] then Some(node)
    else if !NodeHas(node, place[0]) then None
    else NodeAt(NodeChild(node, place[0]), place[1..])
  }

  function CleanAt(out: Clean, place: seq<nat>): Option<Clean>
    decreases |place|
  {
    if place == [] then Some(out)
    else if place[0] >= Width(out) then None
    else CleanAt(Child(out, place[0]), place[1..])
  }

  lemma ChildMirrors(rules: seq<Rule>, limits: Limits, node: Node, depth: nat, out: Clean, i: nat)
    requires Mirrors(rules, limits, node, depth, out) && i < Width(out)
    ensures NodeHas(node, i) && Mirrors(rules, limits, NodeChild(node, i), depth + 1, Child(out, i))
  {
    match node {
      case Dict(entries) => assert Mirrors(rules, limits, entries[i].1, depth + 1, out.fields[i].1);
      case Items(items) => assert Mirrors(rules, limits, items[i], depth + 1, out.elements[i]);
      case _ =>
    }
  }

  lemma WidthMirrors(rules: seq<Rule>, limits: Limits, node: Node, depth: nat, out: Clean, i: nat)
    requires Mirrors(rules, limits, node, depth, out)
    ensures i < Width(out) <==> depth <= MAX_DEPTH && NodeHas(node, i) && (node.Items? ==> i < limits.items)
  {
  }

  /** What stands at a place of the result mirrors what stands at that place of
      the record: nothing moves, and nothing is made up. */
  lemma {:induction false} PlacesAreKept(rules: seq<Rule>, limits: Limits, node: Node, depth: nat, out: Clean, place: seq<nat>)
    requires Mirrors(rules, limits, node, depth, out) && CleanAt(out, place).Some?
    ensures NodeAt(node, place).Some? && Mirrors(rules, limits, NodeAt(node, place).value, depth + |place|, CleanAt(out, place).value)
    decreases |place|
  {
    hide Mirrors, Width, Child, NodeHas, NodeChild;
    if place != [] {
      var i := place[0];
      ChildMirrors(rules, limits, node, depth, out, i);
      PlacesAreKept(rules, limits, NodeChild(node, i), depth + 1, Child(out, i), place[1..]);
    }
  }

  /** The place is within the depth limit and, list by list, within the list's. */
  predicate Shown(limits: Limits, node: Node, depth: nat, place: seq<nat>)
    decreases |place|
  {
    if place == [] then true
    else
      && depth <= MAX_DEPTH && NodeHas(node, place[0]) && (node.Items? ==> place[0] < limits.items)
      && Shown(limits, NodeChild(node, place[0]), depth + 1, place[1..])
  }

  /** Which places are shown: all those within the limits. */
  lemma {:induction false} PlacesAreShown(rules: seq<Rule>, limits: Limits, node: Node, depth: nat, out: Clean, place: seq<nat>)
    requires Mirrors(rules, limits, node, depth, out)
    ensures CleanAt(out, place).Some? <==> Shown(limits, node, depth, place)
    decreases |place|
  {
    hide Mirrors, Width, Child, NodeChild;
    if place != [] {
      var i := place[0];
      WidthMirrors(rules, limits, node, depth, out, i);
      if i < Width(out) {
        ChildMirrors(rules, limits, node, depth, out, i);
        PlacesAreShown(rules, limits, NodeChild(node, i), depth + 1, Child(out, i), place[1..]);
      }
    }
  }

  /** So the texts of a record: each that is shown is redacted and bounded, where
      it stood. */
  lemma {:induction false} TextsAreRedacted(rules: seq<Rule>, limits: Limits, node: Node, out: Clean, place: seq<nat>)
    requires Mirrors(rules, limits, node, 0, out) && |place| <= MAX_DEPTH
    requires NodeAt(node, place).Some? && NodeAt(node, place).value.Str? && Shown(limits, node, 0, place)
    ensures CleanAt(out, place).Some? && CleanAt(out, place).value.CleanStr?
    ensures Bounded(Redacted(rules, NodeAt(node, place).value.s), limits.values, CleanAt(out, place).value.t)
  {
    hide Mirrors, Redacted, Bounded;
    PlacesAreShown(rules, limits, node, 0, out, place);
    PlacesAreKept(rules, limits, node, 0, out, place);
    LeafExact(rules, limits, NodeAt(node, place).value, |place|, CleanAt(out, place).value);
  }

  // -------------------------------------------------------------- no leakage

  /** The property holds of every text, the sanitizer's own notices apart. */
  ghost predicate AllTexts(out: Clean, safe: string -> bool) {
    match out
    case CleanDict(fields) => forall i :: 0 <= i < |fields| ==> AllTexts(fields[i].1, safe)
    case CleanList(elements) => forall i :: 0 <= i < |elements| ==> AllTexts(elements[i], safe)
    case CleanStr(t) => safe(t) || Notice(t)
    case CleanPlain(_) => true
  }

  /** A property of texts that the rules establish and that cutting keeps. */
  ghost predicate Established(rules: seq<Rule>, safe: string -> bool) {
    && (forall text :: safe(Redacted(rules, text)))
    && (forall text, n: nat :: n <= |text| && safe(text) ==> safe(text[..n]) && safe(text[..n] + TRUNCATION_MARKER))
  }

  lemma BoundedIsSafe(rules: seq<Rule>, safe: string -> bool, text: string, limit: nat, t: string)
    requires Established(rules, safe) && Bounded(Redacted(rules, text), limit, t)
    ensures safe(t)
  {
    hide Redacted;
    assert safe(Redacted(rules, text));
  }

  /** What the rules take out of every text is in no text that leaves. */
  lemma {:induction false} NothingLeaks(rules: seq<Rule>, limits: Limits, node: Node, depth: nat, out: Clean, safe: string -> bool)
    requires Mirrors(rules, limits, node, depth, out) && Established(rules, safe)
    ensures AllTexts(out, safe)
    decreases node
  {
    LeafExact(rules, limits, node, depth, out);
    if depth <= MAX_DEPTH {
      match node {
        case Dict(entries) =>
          forall i | 0 <= i < |entries| ensures AllTexts(out.fields[i].1, safe) {
            NothingLeaks(rules, limits, entries[i].1, depth + 1, out.fields[i].1, safe);
          }
        case Items(items) =>
          forall i | 0 <= i < |out.elements| ensures AllTexts(out.elements[i], safe) {
            NothingLeaks(rules, limits, items[i], depth + 1, out.elements[i], safe);
          }
        case Str(s) => BoundedIsSafe(rules, safe, s, limits.values, out.t);
        case Typed(s) => BoundedIsSafe(rules, safe, s, limits.values, out.t);
        case Binary(size) => SizeIsNotice(rules, limits, node, depth, out);
        case Plain(_) =>
      }
    }
  }

  lemma SizeIsNotice(rules: seq<Rule>, limits: Limits, node: Node, depth: nat, out: Clean)
    requires Mirrors(rules, limits, node, depth, out) && depth <= MAX_DEPTH && node.Binary?
    ensures out.CleanStr? && Notice(out.t)
  {
    assert out.t == "[BINARY:" + Decimal(node.size) + " bytes]";
  }

  /** The name with the least suffix from 2 that no earlier name has. */
  predicate Suffixed(taken: set<string>, name: string, clean: string, k: nat) {
    && k >= 2 && name == clean + "#" + Decimal(k) && name !in taken
    && forall j: nat :: 2 <= j < k ==> clean + "#" + Decimal(j) in taken
  }

  /** And in no name: a text key leaves under its redacted name, unless an earlier
      key has it; then under that name and a suffix. */
  lemma {:induction false} NamesAreRedacted(rules: seq<Rule>, limits: Limits, node: Node, depth: nat, out: Clean, i: nat)
    requires Mirrors(rules, limits, node, depth, out) && out.CleanDict? && i < |out.fields|
    ensures node.Dict? && i < |node.entries|
    ensures var taken := set j | 0 <= j < i :: out.fields[j].0;
            var clean := match node.entries[i].0
                         case Text(s) => Redacted(rules, s)
                         case Other(str) => str;
            if clean !in taken then out.fields[i].0 == clean else exists k: nat :: Suffixed(taken, out.fields[i].0, clean, k)
  {
    hide Redacted;
    var clean := CleanKey(rules, node.entries[i].0);
    var taken := set j | 0 <= j < i :: out.fields[j].0;
    EarlierNames(out.fields, i);
    assert NameFor(taken, clean, out.fields[i].0);
    if clean in taken {
      var k: nat :| IsLeast(taken, clean, out.fields[i].0, k);
      forall j: nat | 2 <= j < k ensures clean + "#" + Decimal(j) in taken {
        assert Numbered(clean, j) in taken;
      }
      assert Suffixed(taken, out.fields[i].0, clean, k);
    }
  }

  lemma EarlierNames(fields: seq<(string, Clean)>, i: nat)
    requires i < |fields|
    ensures NamesOf(fields[..i]) == set j | 0 <= j < i :: fields[j].0
  {
    assert forall j :: 0 <= j < i ==> fields[..i][j] == fields[j];
  }
}
