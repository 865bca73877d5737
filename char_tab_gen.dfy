/** The character-class table generator genCharTab.py: a table of 256 tag lists, rules
    that add tags to single points and inclusive ranges, composite tags expanded at
    application time, and the emitter that renders one C initializer line per byte. */
module CharTabGen {
  import opened Wrappers
  import opened Format

  /** A tag is a name ("CC::Subsequent") or a tuple of tags. */
  datatype Tag = Atom(name: string) | Composite(parts: seq<Tag>)

  /** A rule endpoint is a one-character string (converted with ord) or an int. */
  datatype Point = Char(c: char) | Code(n: int)

  /** One entry of `tab`: the tag names of one byte, in insertion order. */
  type Entry = seq<string>

  // ---------------------------------------------------------------------------
  // Specification on values

  function Ord(p: Point): int
  {
    match p
    case Char(c) => c as int
    case Code(n) => n
  }

  /** Python indexing of a 256-element list: None where it raises IndexError. */
  function Slot(i: int): (r: Option<nat>)
    ensures r.Some? <==> -256 <= i < 256
    ensures r.Some? ==> r.value < 256
    ensures 0 <= i < 256 ==> r == Some(i)
  {
    if 0 <= i < 256 then Some(i) else if -256 <= i < 0 then Some(i + 256) else None
  }

  predicate NoDup(e: Entry)
  {
    forall i, j :: 0 <= i < j < |e| ==> e[i] != e[j]
  }

  /** addSingleTag on one entry: append unless already present. */
  function Insert(e: Entry, s: string): Entry
  {
    if s in e then e else e + [s]
  }

  /** The names a tag stands for, tuples expanded depth-first, left to right. */
  function Atoms(tag: Tag): seq<string>
    decreases tag
  {
    match tag
    case Atom(s) => [s]
    case Composite(ps) => AtomsOf(ps)
  }

  function AtomsOf(ps: seq<Tag>): seq<string>
    decreases ps
  {
    if ps == [] then [] else Atoms(ps[0]) + AtomsOf(ps[1..])
  }

  /** Inserting names one after the other. */
  function InsertAll(e: Entry, names: seq<string>): Entry
    decreases |names|
  {
    if names == [] then e else InsertAll(Insert(e, names[0]), names[1..])
  }

  /** addTag on one entry. */
  function ApplyTag(e: Entry, tag: Tag): Entry
  {
    InsertAll(e, Atoms(tag))
  }

  /** Applying the constituents of a tuple one after the other. */
  function ApplyParts(e: Entry, ps: seq<Tag>): Entry
    decreases |ps|
  {
    if ps == [] then e else ApplyParts(ApplyTag(e, ps[0]), ps[1..])
  }

  function EmptyTable(): (t: seq<Entry>)
    ensures |t| == 256 && forall k :: 0 <= k < 256 ==> t[k] == []
  {
    seq(256, _ => [])
  }

  /** addTag(tag, i) on the whole table; None where Python raises IndexError, which
      happens at the first name inserted, so before anything changed. */
  function TagAt(t: seq<Entry>, tag: Tag, i: int): Option<seq<Entry>>
    requires |t| == 256
  {
    match Slot(i)
    case Some(k) => Some(t[k := ApplyTag(t[k], tag)])
    case None => if Atoms(tag) == [] then Some(t) else None
  }

  /** The table after a rule, and whether the rule ran to completion. */
  datatype Outcome = Outcome(table: seq<Entry>, ok: bool)

  function RangeFrom(t: seq<Entry>, tag: Tag, i: int, hi: int): (r: Outcome)
    requires |t| == 256
    ensures |r.table| == 256
    decreases hi + 1 - i
  {
    if i > hi then Outcome(t, true)
    else match TagAt(t, tag, i)
      case None => Outcome(t, false)
      case Some(t') => RangeFrom(t', tag, i + 1, hi)
  }

  /** addRange(tag, a, b). */
  function RangeSpec(t: seq<Entry>, tag: Tag, a: Point, b: Point): (r: Outcome)
    requires |t| == 256
    ensures |r.table| == 256
  {
    RangeFrom(t, tag, Ord(a), Ord(b))
  }

  /** add(tag, *elems). */
  function PointsSpec(t: seq<Entry>, tag: Tag, elems: seq<Point>): (r: Outcome)
    requires |t| == 256
    ensures |r.table| == 256
    decreases |elems|
  {
    if elems == [] then Outcome(t, true)
    else match TagAt(t, tag, Ord(elems[0]))
      case None => Outcome(t, false)
      case Some(t') => PointsSpec(t', tag, elems[1..])
  }

  // ---------------------------------------------------------------------------
  // Emission

  /** Python's ordering of str values: lexicographic on code points. */
  predicate StrLt(a: string, b: string)
    decreases |a|
  {
    |b| > 0 && (|a| == 0 || a[0] < b[0] || (a[0] == b[0] && StrLt(a[1..], b[1..])))
  }

  predicate StrLe(a: string, b: string)
  {
    a == b || StrLt(a, b)
  }

  predicate Sorted(s: seq<string>)
  {
    forall i, j :: 0 <= i < j < |s| ==> StrLe(s[i], s[j])
  }

  function InsertSorted(x: string, s: seq<string>): seq<string>
    decreases |s|
  {
    if s == [] || StrLe(x, s[0]) then [x] + s else [s[0]] + InsertSorted(x, s[1..])
  }

  /** list.sort() on an entry. */
  function SortStrings(e: seq<string>): seq<string>
    decreases |e|
  {
    if e == [] then [] else InsertSorted(e[0], SortStrings(e[1..]))
  }

  /** The names of an entry separated by " | ", as the `prev` loop prints them. */
  function Join(names: seq<string>): string
    decreases |names|
  {
    if |names| == 0 then ""
    else if |names| == 1 then names[0]
    else Join(names[..|names| - 1]) + " | " + names[|names| - 1]
  }

  /** The initializer expression of an entry: the names or-ed together, or 0. */
  function Expr(names: seq<string>): string
  {
    if names == [] then "0" else Join(names)
  }

  /** The comment naming a byte: 0x%02x outside printable ASCII, else the character. */
  function Annotation(i: nat): string
    requires i < 256
  {
    if i < 32 || i >= 127 then "0x" + PadLeft(Hex(i), 2, '0') else "'" + [i as char] + "' "
  }

  /** The text before the expression: index (%3d) and annotation in a C comment. */
  function LineHead(i: nat): string
    requires i < 256
  {
    "  /* " + PadLeft(Decimal(i), 3, ' ') + ", " + Annotation(i) + " */ "
  }

  /** One printed line (without its newline) for byte i whose sorted entry is `names`. */
  function Line(i: nat, names: seq<string>): string
    requires i < 256
  {
    LineHead(i) + Expr(names) + ","
  }

  /** Everything genTable prints, one string per line, for table `t`. */
  function EmitLines(t: seq<Entry>): (lines: seq<string>)
    requires |t| == 256
    ensures |lines| == 256
  {
    seq(256, i requires 0 <= i < 256 => Line(i, SortStrings(t[i])))
  }

  /** One more emitted line extends the prefix by line i. */
  lemma EmitLinesStep(t: seq<Entry>, i: nat)
    requires |t| == 256 && i < 256
    ensures EmitLines(t)[..i + 1] == EmitLines(t)[..i] + [LineHead(i) + Expr(SortStrings(t[i])) + ","]
  {
    assert EmitLines(t)[i] == Line(i, SortStrings(t[i]));
  }

  // ---------------------------------------------------------------------------
  // The configuration (lines 58-91)

  const SUBSEQUENT: Tag := Atom("CC::Subsequent")
  const DELIMITER: Tag := Atom("CC::Delimiter")
  const WHITESPACE: Tag := Composite([Atom("CC::WhitespaceClass"), DELIMITER])
  const UTF8: Tag := Atom("CC::UTF8Class")
  const PECULIAR_IDENT: Tag := Atom("CC::PeculiarIdentClass")
  const DOT_SUBSEQUENT: Tag := Atom("CC::DotSubsequent")
  const SIGN_SUBSEQUENT: Tag := Composite([Atom("CC::SignSubsequent"), DOT_SUBSEQUENT])
  const INITIAL: Tag := Composite([Atom("CC::InitialClass"), SIGN_SUBSEQUENT])
  const DIGIT: Tag := Atom("CC::DigitClass")

  function Chars(s: string): seq<Point>
  {
    seq(|s|, i requires 0 <= i < |s| => Char(s[i]))
  }

  const INITIAL_PUNCT: seq<Point> := Chars("!$%&*/:<=>?^_~@")
  const SUBSEQUENT_PUNCT: seq<Point> := Chars("!$%&*/:<=>?^_~")
  const SUBSEQUENT_SIGNS: seq<Point> := Chars("+-.@")
  const WHITESPACE_CHARS: seq<Point> := Chars(" \n\r\U{b}\t")
  const PECULIAR_CHARS: seq<Point> := Chars("+-.")
  const SIGN_CHARS: seq<Point> := Chars("+-@")
  const DOT_CHARS: seq<Point> := Chars(".")
  const DELIMITER_CHARS: seq<Point> := Chars("|()[]{}\";")

  /** One rule application: addRange(tag, a, b) or add(tag, *elems). */
  datatype Rule = RangeRule(tag: Tag, lo: Point, hi: Point) | PointsRule(tag: Tag, elems: seq<Point>)

  function ApplyRule(t: seq<Entry>, r: Rule): (o: Outcome)
    requires |t| == 256
    ensures |o.table| == 256
  {
    match r
    case RangeRule(tag, a, b) => RangeSpec(t, tag, a, b)
    case PointsRule(tag, elems) => PointsSpec(t, tag, elems)
  }

  /** Rules applied in order; the first failing rule ends the script. */
  function ApplyRules(t: seq<Entry>, rs: seq<Rule>): (o: Outcome)
    requires |t| == 256
    ensures |o.table| == 256
    decreases |rs|
  {
    if rs == [] then Outcome(t, true)
    else
      var o := ApplyRule(t, rs[0]);
      if !o.ok then o else ApplyRules(o.table, rs[1..])
  }

  /** Lines 70-73. */
  const INITIAL_RULES: seq<Rule> := [
    RangeRule(INITIAL, Char('a'), Char('z')),
    RangeRule(INITIAL, Char('A'), Char('Z')),
    PointsRule(INITIAL, INITIAL_PUNCT)
  ]

  /** Lines 75-80. */
  const SUBSEQUENT_RULES: seq<Rule> := [
    RangeRule(SUBSEQUENT, Char('a'), Char('z')),
    RangeRule(SUBSEQUENT, Char('A'), Char('Z')),
    PointsRule(SUBSEQUENT, SUBSEQUENT_PUNCT),
    RangeRule(SUBSEQUENT, Char('0'), Char('9')),
    PointsRule(SUBSEQUENT, SUBSEQUENT_SIGNS)
  ]

  /** Lines 82-86. */
  const SIGN_RULES: seq<Rule> := [
    PointsRule(WHITESPACE, WHITESPACE_CHARS),
    PointsRule(PECULIAR_IDENT, PECULIAR_CHARS),
    PointsRule(SIGN_SUBSEQUENT, SIGN_CHARS),
    PointsRule(DOT_SUBSEQUENT, DOT_CHARS)
  ]

  /** Lines 88-91. */
  const LAST_RULES: seq<Rule> := [
    RangeRule(DIGIT, Char('0'), Char('9')),
    PointsRule(DELIMITER, DELIMITER_CHARS),
    RangeRule(UTF8, Code(128), Code(255))
  ]

  /** The rules of lines 70-91, in the order the script applies them. */
  const RULES: seq<Rule> := INITIAL_RULES + SUBSEQUENT_RULES + SIGN_RULES + LAST_RULES

  /** The table the script prints, before sorting. */
  function Configured(t: seq<Entry>): (r: seq<Entry>)
    requires |t| == 256
    ensures |r| == 256
  {
    ApplyRules(t, RULES).table
  }

  // ---------------------------------------------------------------------------
  // The generator's state: the module-level list `tab`

  class Generator {
    const tab: array<Entry>

    /** `tab = [[] for i in range(0, 256)]`. */
    constructor()
      ensures fresh(tab) && tab.Length == 256 && tab[..] == EmptyTable()
    {
      tab := new Entry[256](_ => []);
    }

    /** addSingleTag(tag, i). */
    method AddSingleTag(tag: string, i: int) returns (ok: bool)
      requires tab.Length == 256
      modifies tab
      ensures ok == Slot(i).Some?
      ensures ok ==> tab[..] == old(tab[..])[Slot(i).value := Insert(old(tab[Slot(i).value]), tag)]
      ensures !ok ==> tab[..] == old(tab[..])
    {
      var slot := Slot(i);
      if slot.None? {
        return false;
      }
      var k := slot.value;
      if tag !in tab[k] {
        tab[k] := tab[k] + [tag];
      }
      ok := true;
    }

    /** addTag(tag, i): a tuple is applied constituent by constituent. */
    method AddTag(tag: Tag, i: int) returns (ok: bool)
      requires tab.Length == 256
      modifies tab
      ensures ok == TagAt(old(tab[..]), tag, i).Some?
      ensures ok ==> tab[..] == TagAt(old(tab[..]), tag, i).value
      ensures !ok ==> tab[..] == old(tab[..])
      decreases tag
    {
      match tag
      case Atom(name) =>
        ghost var t0 := tab[..];
        ok := AddSingleTag(name, i);
        if ok {
          assert ApplyTag(t0[Slot(i).value], tag) == Insert(t0[Slot(i).value], name) by {
            var e := t0[Slot(i).value];
            assert Atoms(tag) == [name];
            assert [name][1..] == [];
            assert InsertAll(e, [name]) == InsertAll(Insert(e, name), []);
          }
        }
      case Composite(parts) =>
        ghost var t0 := tab[..];
        for j := 0 to |parts|
          invariant Slot(i).Some? ==>
            tab[..] == t0[Slot(i).value := InsertAll(t0[Slot(i).value], AtomsOf(parts[..j]))]
          invariant Slot(i).None? ==> tab[..] == t0 && AtomsOf(parts[..j]) == []
        {
          AtomsOfSnoc(parts, j);
          ghost var before := tab[..];
          ok := AddTag(parts[j], i);
          if !ok {
            AtomsOfSplit(parts, j);
            return;
          }
          if Slot(i).Some? {
            InsertAllAppend(t0[Slot(i).value], AtomsOf(parts[..j]), Atoms(parts[j]));
          }
        }
        assert parts[..|parts|] == parts;
        assert Atoms(tag) == AtomsOf(parts);
        ok := true;
    }

    /** addRange(tag, a, b): every index of range(ord(a), ord(b) + 1). */
    method AddRange(tag: Tag, a: Point, b: Point) returns (ok: bool)
      requires tab.Length == 256
      modifies tab
      ensures Outcome(tab[..], ok) == RangeSpec(old(tab[..]), tag, a, b)
    {
      var lo, hi := Ord(a), Ord(b);
      var i := lo;
      while i < hi + 1
        invariant RangeFrom(tab[..], tag, i, hi) == RangeSpec(old(tab[..]), tag, a, b)
        decreases hi + 1 - i
      {
        ok := AddTag(tag, i);
        if !ok {
          return;
        }
        i := i + 1;
      }
      ok := true;
    }

    /** add(tag, *elems). */
    method Add(tag: Tag, elems: seq<Point>) returns (ok: bool)
      requires tab.Length == 256
      modifies tab
      ensures Outcome(tab[..], ok) == PointsSpec(old(tab[..]), tag, elems)
    {
      for j := 0 to |elems|
        invariant PointsSpec(tab[..], tag, elems[j..]) == PointsSpec(old(tab[..]), tag, elems)
      {
        ok := AddTag(tag, Ord(elems[j]));
        if !ok {
          return;
        }
      }
      ok := true;
    }

    /** The part of a genTable line before the tags: index and annotation. */
    static method PrintHead(i: nat) returns (line: string)
      requires i < 256
      ensures line == LineHead(i)
    {
      line := "  /* " + PadLeft(Decimal(i), 3, ' ') + ", ";
      if i < 32 || i >= 127 {
        line := line + "0x" + PadLeft(Hex(i), 2, '0');
      } else {
        line := line + "'" + [i as char] + "' ";
      }
      line := line + " */ ";
    }

    /** The `prev` loop of genTable: the tags separated by " | ", or 0 when there are none. */
    static method PrintTags(names: seq<string>) returns (text: string)
      ensures text == Expr(names)
    {
      text := "";
      var prev := false;
      for j := 0 to |names|
        invariant prev <==> j > 0
        invariant text == Join(names[..j])
      {
        if prev {
          text := text + " | ";
        }
        prev := true;
        text := text + names[j];
        assert names[..j + 1][..j] == names[..j];
      }
      assert names[..|names|] == names;
      if !prev {
        text := text + "0";
      }
    }

    /** genTable(): sorts every entry in place and returns the printed lines. */
    method GenTable() returns (lines: seq<string>)
      requires tab.Length == 256
      modifies tab
      ensures lines == EmitLines(old(tab[..]))
      ensures forall k :: 0 <= k < 256 ==> tab[k] == SortStrings(old(tab[k]))
    {
      ghost var orig := tab[..];
      lines := [];
      for i := 0 to 256
        invariant lines == EmitLines(orig)[..i]
        invariant forall k :: 0 <= k < i ==> tab[k] == SortStrings(orig[k])
        invariant forall k :: i <= k < 256 ==> tab[k] == orig[k]
      {
        var line := PrintHead(i);
        var names := SortStrings(tab[i]);
        tab[i] := names;
        var tags := PrintTags(names);
        line := line + tags + ",";
        EmitLinesStep(orig, i);
        lines := lines + [line];
      }
      assert EmitLines(orig)[..256] == EmitLines(orig);
    }

    /** Lines 70-73: the initial characters. */
    method ConfigureInitial() returns (ok: bool)
      requires tab.Length == 256
      modifies tab
      ensures ApplyRules(old(tab[..]), INITIAL_RULES) == Outcome(tab[..], ok) && ok
    {
      RulesInBounds();
      assert INITIAL_RULES[0..] == INITIAL_RULES;
      ghost var t0 := tab[..];
      ok := AddRange(INITIAL, Char('a'), Char('z'));
      Step(INITIAL_RULES, t0, 0);
      ghost var t1 := tab[..];
      ok := AddRange(INITIAL, Char('A'), Char('Z'));
      Step(INITIAL_RULES, t1, 1);
      ghost var t2 := tab[..];
      ok := Add(INITIAL, INITIAL_PUNCT);
      Step(INITIAL_RULES, t2, 2);
      assert INITIAL_RULES[3..] == [];
    }

    /** Lines 75-80: the subsequent characters. */
    method ConfigureSubsequent() returns (ok: bool)
      requires tab.Length == 256
      modifies tab
      ensures ApplyRules(old(tab[..]), SUBSEQUENT_RULES) == Outcome(tab[..], ok) && ok
    {
      RulesInBounds();
      assert SUBSEQUENT_RULES[0..] == SUBSEQUENT_RULES;
      ghost var t3 := tab[..];
      ok := AddRange(SUBSEQUENT, Char('a'), Char('z'));
      Step(SUBSEQUENT_RULES, t3, 0);
      ghost var t4 := tab[..];
      ok := AddRange(SUBSEQUENT, Char('A'), Char('Z'));
      Step(SUBSEQUENT_RULES, t4, 1);
      ghost var t5 := tab[..];
      ok := Add(SUBSEQUENT, SUBSEQUENT_PUNCT);
      Step(SUBSEQUENT_RULES, t5, 2);
      ghost var t6 := tab[..];
      ok := AddRange(SUBSEQUENT, Char('0'), Char('9'));
      Step(SUBSEQUENT_RULES, t6, 3);
      ghost var t7 := tab[..];
      ok := Add(SUBSEQUENT, SUBSEQUENT_SIGNS);
      Step(SUBSEQUENT_RULES, t7, 4);
      assert SUBSEQUENT_RULES[5..] == [];
    }

    /** Lines 82-86: whitespace, the peculiar identifier starts and the sign and dot subsequents. */
    method ConfigureSigns() returns (ok: bool)
      requires tab.Length == 256
      modifies tab
      ensures ApplyRules(old(tab[..]), SIGN_RULES) == Outcome(tab[..], ok) && ok
    {
      RulesInBounds();
      assert SIGN_RULES[0..] == SIGN_RULES;
      ghost var t8 := tab[..];
      ok := Add(WHITESPACE, WHITESPACE_CHARS);
      Step(SIGN_RULES, t8, 0);
      ghost var t9 := tab[..];
      ok := Add(PECULIAR_IDENT, PECULIAR_CHARS);
      Step(SIGN_RULES, t9, 1);
      ghost var t10 := tab[..];
      ok := Add(SIGN_SUBSEQUENT, SIGN_CHARS);
      Step(SIGN_RULES, t10, 2);
      ghost var t11 := tab[..];
      ok := Add(DOT_SUBSEQUENT, DOT_CHARS);
      Step(SIGN_RULES, t11, 3);
      assert SIGN_RULES[4..] == [];
    }

    /** Lines 88-91: digits, delimiters and the UTF-8 bytes. */
    method ConfigureRest() returns (ok: bool)
      requires tab.Length == 256
      modifies tab
      ensures ApplyRules(old(tab[..]), LAST_RULES) == Outcome(tab[..], ok) && ok
    {
      RulesInBounds();
      assert LAST_RULES[0..] == LAST_RULES;
      ghost var t12 := tab[..];
      ok := AddRange(DIGIT, Char('0'), Char('9'));
      Step(LAST_RULES, t12, 0);
      ghost var t13 := tab[..];
      ok := Add(DELIMITER, DELIMITER_CHARS);
      Step(LAST_RULES, t13, 1);
      ghost var t14 := tab[..];
      ok := AddRange(UTF8, Code(128), Code(255));
      Step(LAST_RULES, t14, 2);
      assert LAST_RULES[3..] == [];
    }

    /** The rule applications of lines 70-91, in order; none of them raises. */
    method Configure() returns (ok: bool)
      requires tab.Length == 256
      modifies tab
      ensures ok && tab[..] == Configured(old(tab[..]))
    {
      ghost var t0 := tab[..];
      ok := ConfigureInitial();
      ghost var t1 := tab[..];
      ok := ConfigureSubsequent();
      ghost var t2 := tab[..];
      ok := ConfigureSigns();
      ghost var t3 := tab[..];
      ok := ConfigureRest();
      ApplyRulesAppend(t0, INITIAL_RULES, SUBSEQUENT_RULES);
      ApplyRulesAppend(t0, INITIAL_RULES + SUBSEQUENT_RULES, SIGN_RULES);
      ApplyRulesAppend(t0, INITIAL_RULES + SUBSEQUENT_RULES + SIGN_RULES, LAST_RULES);
    }
  }

  /** The whole script: build the table, apply the rules, print it. */
  method GenerateCharTab() returns (lines: seq<string>)
    ensures lines == EmitLines(Configured(EmptyTable()))
  {
    var g := new Generator();
    var ok := g.Configure();
    lines := g.GenTable();
  }

  // ---------------------------------------------------------------------------
  // Lemmas used by the methods

  lemma {:induction false} AtomsOfAppend(a: seq<Tag>, b: seq<Tag>)
    ensures AtomsOf(a + b) == AtomsOf(a) + AtomsOf(b)
    decreases |a|
  {
    if a == [] {
      assert a + b == b;
    } else {
      assert (a + b)[1..] == a[1..] + b;
      AtomsOfAppend(a[1..], b);
    }
  }

  lemma AtomsOfSnoc(ps: seq<Tag>, j: nat)
    requires j < |ps|
    ensures AtomsOf(ps[..j + 1]) == AtomsOf(ps[..j]) + Atoms(ps[j])
  {
    assert ps[..j + 1] == ps[..j] + [ps[j]];
    AtomsOfAppend(ps[..j], [ps[j]]);
    assert AtomsOf([ps[j]]) == Atoms(ps[j]) + AtomsOf([]);
  }

  /** If the j-th constituent has a name, so does the whole tuple. */
  lemma AtomsOfSplit(ps: seq<Tag>, j: nat)
    requires j < |ps| && Atoms(ps[j]) != []
    ensures AtomsOf(ps) != []
  {
    assert ps == ps[..j] + ps[j..];
    AtomsOfAppend(ps[..j], ps[j..]);
    assert AtomsOf(ps[j..]) == Atoms(ps[j]) + AtomsOf(ps[j + 1..]);
  }

  lemma {:induction false} InsertAllAppend(e: Entry, a: seq<string>, b: seq<string>)
    ensures InsertAll(e, a + b) == InsertAll(InsertAll(e, a), b)
    decreases |a|
  {
    if a == [] {
      assert a + b == b;
    } else {
      assert (a + b)[1..] == a[1..] + b;
      InsertAllAppend(Insert(e, a[0]), a[1..], b);
    }
  }

  /** A rule whose points all lie in 0..255. */
  predicate InBounds(r: Rule)
  {
    match r
    case RangeRule(_, a, b) => 0 <= Ord(a) && Ord(b) < 256
    case PointsRule(_, elems) => forall p :: p in elems ==> 0 <= Ord(p) < 256
  }

  lemma RulesInBounds()
    ensures forall k :: 0 <= k < |INITIAL_RULES| ==> InBounds(INITIAL_RULES[k])
    ensures forall k :: 0 <= k < |SUBSEQUENT_RULES| ==> InBounds(SUBSEQUENT_RULES[k])
    ensures forall k :: 0 <= k < |SIGN_RULES| ==> InBounds(SIGN_RULES[k])
    ensures forall k :: 0 <= k < |LAST_RULES| ==> InBounds(LAST_RULES[k])
  {
    CharsInBounds("!$%&*/:<=>?^_~@");
    CharsInBounds("!$%&*/:<=>?^_~");
    CharsInBounds("+-.@");
    CharsInBounds(" \n\r\U{b}\t");
    CharsInBounds("+-.");
    CharsInBounds("+-@");
    CharsInBounds(".");
    CharsInBounds("|()[]{}\";");
  }

  /** The points of a string of 8-bit characters lie in 0..255. */
  lemma CharsInBounds(s: string)
    requires forall i :: 0 <= i < |s| ==> s[i] as int < 256
    ensures forall p :: p in Chars(s) ==> 0 <= Ord(p) < 256
  {
  }

  /** Running two lists of rules one after the other is running their concatenation. */
  lemma {:induction false} ApplyRulesAppend(t: seq<Entry>, a: seq<Rule>, b: seq<Rule>)
    requires |t| == 256
    ensures ApplyRules(t, a + b)
      == if ApplyRules(t, a).ok then ApplyRules(ApplyRules(t, a).table, b) else ApplyRules(t, a)
    decreases |a|
  {
    if a == [] {
      assert a + b == b;
    } else {
      assert (a + b)[0] == a[0] && (a + b)[1..] == a[1..] + b;
      var o := ApplyRule(t, a[0]);
      if o.ok {
        ApplyRulesAppend(o.table, a[1..], b);
      }
    }
  }

  lemma RuleInBoundsSucceeds(t: seq<Entry>, r: Rule)
    requires |t| == 256 && InBounds(r)
    ensures ApplyRule(t, r).ok
  {
    match r
    case RangeRule(tag, a, b) => RangeInBoundsSucceeds(t, tag, Ord(a), Ord(b));
    case PointsRule(tag, elems) => PointsInBoundsSucceeds(t, tag, elems);
  }

  /** One statement of the script: rule k succeeds, and the rest of the script then
      continues from the table it leaves. */
  lemma Step(rs: seq<Rule>, before: seq<Entry>, k: nat)
    requires |before| == 256 && k < |rs| && InBounds(rs[k])
    ensures ApplyRule(before, rs[k]).ok
    ensures ApplyRules(before, rs[k..]) == ApplyRules(ApplyRule(before, rs[k]).table, rs[k + 1..])
  {
    RuleInBoundsSucceeds(before, rs[k]);
    assert rs[k..][1..] == rs[k + 1..];
  }

  lemma {:induction false} PointsInBoundsSucceeds(t: seq<Entry>, tag: Tag, elems: seq<Point>)
    requires |t| == 256 && forall p :: p in elems ==> 0 <= Ord(p) < 256
    ensures PointsSpec(t, tag, elems).ok
    decreases |elems|
  {
    if elems != [] {
      assert elems[0] in elems;
      assert forall p :: p in elems[1..] ==> p in elems;
      PointsInBoundsSucceeds(TagAt(t, tag, Ord(elems[0])).value, tag, elems[1..]);
    }
  }

  lemma {:induction false} RangeInBoundsSucceeds(t: seq<Entry>, tag: Tag, lo: int, hi: int)
    requires |t| == 256 && 0 <= lo && hi < 256
    ensures RangeFrom(t, tag, lo, hi).ok
    decreases hi + 1 - lo
  {
    if lo <= hi {
      RangeInBoundsSucceeds(TagAt(t, tag, lo).value, tag, lo + 1, hi);
    }
  }
}
