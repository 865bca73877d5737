/** Properties of the generator's operations: insertion without duplicates, tuple
    expansion, the exact effect of a range and of a point list, sorting, and the shape of
    the printed lines. */
module CharTabProps {
  import opened Wrappers
  import opened Format
  import opened CharTabGen

  // ---------------------------------------------------------------------------
  // addSingleTag / addTag

  /** Inserting never removes or reorders a name, adds exactly the missing ones and
      keeps an entry free of duplicates. */
  lemma {:induction false} InsertAllFacts(e: Entry, names: seq<string>)
    ensures forall x :: x in InsertAll(e, names) <==> x in e || x in names
    ensures |e| <= |InsertAll(e, names)| && InsertAll(e, names)[..|e|] == e
    ensures NoDup(e) ==> NoDup(InsertAll(e, names))
    decreases |names|
  {
    if names != [] {
      var e' := Insert(e, names[0]);
      InsertAllFacts(e', names[1..]);
      assert e'[..|e|] == e;
      var r := InsertAll(e', names[1..]);
      assert r[..|e|] == r[..|e'|][..|e|];
      forall x
        ensures x in r <==> x in e || x in names
      {
        assert x in names <==> x == names[0] || x in names[1..];
      }
    }
  }

  /** A name already present leaves the entry as it is. */
  lemma {:induction false} InsertAllPresent(e: Entry, names: seq<string>)
    requires forall x :: x in names ==> x in e
    ensures InsertAll(e, names) == e
    decreases |names|
  {
    if names != [] {
      assert names[0] in names;
      assert forall x :: x in names[1..] ==> x in names;
      InsertAllPresent(e, names[1..]);
    }
  }

  /** A tag applied twice to the same byte has the effect of applying it once. */
  lemma ApplyTagIdempotent(e: Entry, tag: Tag)
    ensures ApplyTag(ApplyTag(e, tag), tag) == ApplyTag(e, tag)
  {
    InsertAllFacts(e, Atoms(tag));
    InsertAllPresent(ApplyTag(e, tag), Atoms(tag));
  }

  /** The names an applied tag contributes. */
  lemma ApplyTagFacts(e: Entry, tag: Tag)
    ensures forall x :: x in ApplyTag(e, tag) <==> x in e || x in Atoms(tag)
    ensures NoDup(e) ==> NoDup(ApplyTag(e, tag))
  {
    InsertAllFacts(e, Atoms(tag));
  }

  /** A tuple tag is its constituents applied one after the other, left to right. */
  lemma {:induction false} TupleIsParts(e: Entry, ps: seq<Tag>)
    ensures ApplyTag(e, Composite(ps)) == ApplyParts(e, ps)
    decreases |ps|
  {
    if ps != [] {
      var e0 := ApplyTag(e, ps[0]);
      calc {
        ApplyTag(e, Composite(ps));
        InsertAll(e, Atoms(Composite(ps)));
        InsertAll(e, AtomsOf(ps));
        InsertAll(e, Atoms(ps[0]) + AtomsOf(ps[1..]));
        { InsertAllAppend(e, Atoms(ps[0]), AtomsOf(ps[1..])); }
        InsertAll(e0, AtomsOf(ps[1..]));
        ApplyTag(e0, Composite(ps[1..]));
        { TupleIsParts(e0, ps[1..]); }
        ApplyParts(e0, ps[1..]);
        ApplyParts(e, ps);
      }
    } else {
      assert Atoms(Composite(ps)) == AtomsOf([]) == [];
    }
  }

  /** INITIAL on an empty entry adds the initial class and both subsequent-after flags. */
  /** The names the tuples of the configuration stand for, in order. */
  lemma TupleAtoms()
    ensures Atoms(SIGN_SUBSEQUENT) == ["CC::SignSubsequent", "CC::DotSubsequent"]
    ensures Atoms(INITIAL) == ["CC::InitialClass", "CC::SignSubsequent", "CC::DotSubsequent"]
    ensures Atoms(WHITESPACE) == ["CC::WhitespaceClass", "CC::Delimiter"]
  {
    var ic, ss, ds := "CC::InitialClass", "CC::SignSubsequent", "CC::DotSubsequent";
    assert AtomsOf([DOT_SUBSEQUENT]) == [ds] by {
      assert [DOT_SUBSEQUENT][1..] == [];
    }
    assert Atoms(SIGN_SUBSEQUENT) == [ss, ds] by {
      var ps := [Atom(ss), DOT_SUBSEQUENT];
      assert ps[1..] == [DOT_SUBSEQUENT];
      assert AtomsOf(ps) == [ss] + AtomsOf([DOT_SUBSEQUENT]);
    }
    assert AtomsOf([SIGN_SUBSEQUENT]) == [ss, ds] by {
      assert [SIGN_SUBSEQUENT][1..] == [];
    }
    assert Atoms(INITIAL) == [ic, ss, ds] by {
      var ps := [Atom(ic), SIGN_SUBSEQUENT];
      assert ps[1..] == [SIGN_SUBSEQUENT];
      assert AtomsOf(ps) == [ic] + AtomsOf([SIGN_SUBSEQUENT]);
    }
    assert AtomsOf([DELIMITER]) == ["CC::Delimiter"] by {
      assert [DELIMITER][1..] == [];
    }
    assert Atoms(WHITESPACE) == ["CC::WhitespaceClass", "CC::Delimiter"] by {
      var ps := [Atom("CC::WhitespaceClass"), DELIMITER];
      assert ps[1..] == [DELIMITER];
      assert AtomsOf(ps) == ["CC::WhitespaceClass"] + AtomsOf([DELIMITER]);
    }
  }

  /** INITIAL on an empty entry adds the initial class and both subsequent-after flags. */
  lemma InitialExpansion()
    ensures ApplyTag([], INITIAL) == ["CC::InitialClass", "CC::SignSubsequent", "CC::DotSubsequent"]
  {
    var ic, ss, ds := "CC::InitialClass", "CC::SignSubsequent", "CC::DotSubsequent";
    TupleAtoms();
    var names := Atoms(INITIAL);
    assert names[1..] == [ss, ds] && names[1..][1..] == [ds] && names[1..][1..][1..] == [];
    assert Insert([], ic) == [ic];
    assert InsertAll([], names) == InsertAll([ic], [ss, ds]);
    assert ss !in [ic] && ds !in [ic, ss];
    assert Insert([ic], ss) == [ic, ss] && Insert([ic, ss], ds) == [ic, ss, ds];
    assert [ss, ds][1..] == [ds] && [ds][1..] == [];
    assert InsertAll([ic], [ss, ds]) == InsertAll([ic, ss], [ds]);
    assert InsertAll([ic, ss], [ds]) == InsertAll([ic, ss, ds], []);
  }

  // ---------------------------------------------------------------------------
  // addRange / add

  /** addRange over in-bounds endpoints succeeds and applies the tag to exactly the
      bytes lo..hi inclusive; an inverted range changes nothing. */
  lemma {:induction false} RangeEffect(t: seq<Entry>, tag: Tag, lo: int, hi: int)
    requires |t| == 256 && 0 <= lo && hi < 256
    ensures RangeFrom(t, tag, lo, hi).ok
    ensures forall k :: 0 <= k < 256 ==>
      RangeFrom(t, tag, lo, hi).table[k] == if lo <= k <= hi then ApplyTag(t[k], tag) else t[k]
    decreases hi + 1 - lo
  {
    if lo <= hi {
      var t' := t[lo := ApplyTag(t[lo], tag)];
      RangeEffect(t', tag, lo + 1, hi);
    }
  }

  /** addRange(tag, 'a', 'z') tags 97..122 and leaves 96 ('`') and 123 ('{') alone. */
  lemma LowercaseRange(t: seq<Entry>, tag: Tag)
    requires |t| == 256
    ensures RangeSpec(t, tag, Char('a'), Char('z')).ok
    ensures forall k :: 97 <= k <= 122 ==> RangeSpec(t, tag, Char('a'), Char('z')).table[k] == ApplyTag(t[k], tag)
    ensures RangeSpec(t, tag, Char('a'), Char('z')).table[96] == t[96]
    ensures RangeSpec(t, tag, Char('a'), Char('z')).table[123] == t[123]
  {
    RangeEffect(t, tag, 97, 122);
  }

  /** Whether one of the listed points names byte k. */
  predicate Touches(elems: seq<Point>, k: int)
  {
    exists j :: 0 <= j < |elems| && Ord(elems[j]) == k
  }

  /** add over in-bounds points applies the tag to exactly the listed bytes; a byte
      listed twice is tagged as if listed once. */
  lemma {:induction false} PointsEffect(t: seq<Entry>, tag: Tag, elems: seq<Point>)
    requires |t| == 256 && forall j :: 0 <= j < |elems| ==> 0 <= Ord(elems[j]) < 256
    ensures PointsSpec(t, tag, elems).ok
    ensures forall k :: 0 <= k < 256 ==>
      PointsSpec(t, tag, elems).table[k] == if Touches(elems, k) then ApplyTag(t[k], tag) else t[k]
    decreases |elems|
  {
    if elems != [] {
      var i := Ord(elems[0]);
      var t' := t[i := ApplyTag(t[i], tag)];
      PointsEffect(t', tag, elems[1..]);
      ApplyTagIdempotent(t[i], tag);
      forall k | 0 <= k < 256
        ensures PointsSpec(t, tag, elems).table[k] == if Touches(elems, k) then ApplyTag(t[k], tag) else t[k]
      {
        if Touches(elems[1..], k) {
          var j :| 0 <= j < |elems[1..]| && Ord(elems[1..][j]) == k;
          assert Ord(elems[j + 1]) == k;
        }
        if Touches(elems, k) && k != i {
          var j :| 0 <= j < |elems| && Ord(elems[j]) == k;
          assert j != 0;
          assert Ord(elems[1..][j - 1]) == k;
        }
      }
    }
  }

  /** An index past the table end raises before anything changes. */
  lemma IndexErrorLeavesTable(t: seq<Entry>, tag: Tag, i: int)
    requires |t| == 256 && Atoms(tag) != [] && (i < -256 || i >= 256)
    ensures !PointsSpec(t, tag, [Code(i)]).ok && PointsSpec(t, tag, [Code(i)]).table == t
  {
  }

  // ---------------------------------------------------------------------------
  // Sorting (tab[i].sort())

  lemma {:induction false} StrLtIrreflexive(a: string)
    ensures !StrLt(a, a)
    decreases |a|
  {
    if |a| > 0 {
      StrLtIrreflexive(a[1..]);
    }
  }

  lemma {:induction false} StrLtTransitive(a: string, b: string, c: string)
    requires StrLt(a, b) && StrLt(b, c)
    ensures StrLt(a, c)
    decreases |a|
  {
    if |a| > 0 && a[0] == b[0] && b[0] == c[0] {
      StrLtTransitive(a[1..], b[1..], c[1..]);
    }
  }

  lemma {:induction false} StrLtTotal(a: string, b: string)
    ensures a == b || StrLt(a, b) || StrLt(b, a)
    decreases |a|
  {
    if |a| > 0 && |b| > 0 && a[0] == b[0] {
      StrLtTotal(a[1..], b[1..]);
      if a[1..] == b[1..] {
        assert a == [a[0]] + a[1..] && b == [b[0]] + b[1..];
      }
    }
  }

  lemma StrLeTransitive(a: string, b: string, c: string)
    requires StrLe(a, b) && StrLe(b, c)
    ensures StrLe(a, c)
  {
    if a != b && b != c {
      StrLtTransitive(a, b, c);
    }
  }

  lemma InsertSortedFacts(x: string, s: seq<string>)
    requires Sorted(s)
    ensures Sorted(InsertSorted(x, s))
    ensures multiset(InsertSorted(x, s)) == multiset(s) + multiset{x}
    ensures forall y :: y in InsertSorted(x, s) <==> y == x || y in s
  {
    InsertSortedMembers(x, s);
    InsertSortedOrder(x, s);
  }

  /** Inserting adds x once and keeps every other name. */
  lemma {:induction false} InsertSortedMultiset(x: string, s: seq<string>)
    ensures multiset(InsertSorted(x, s)) == multiset(s) + multiset{x}
    decreases |s|
  {
    if s != [] && !StrLe(x, s[0]) {
      InsertSortedMultiset(x, s[1..]);
      assert s == [s[0]] + s[1..];
    }
  }

  lemma InsertSortedMembers(x: string, s: seq<string>)
    ensures multiset(InsertSorted(x, s)) == multiset(s) + multiset{x}
    ensures forall y :: y in InsertSorted(x, s) <==> y == x || y in s
  {
    InsertSortedMultiset(x, s);
    forall y
      ensures y in InsertSorted(x, s) <==> y == x || y in s
    {
      assert y in InsertSorted(x, s) <==> y in multiset(InsertSorted(x, s));
      assert y in s <==> y in multiset(s);
    }
  }

  /** Inserting into an ordered list keeps it ordered. */
  lemma {:induction false} InsertSortedOrder(x: string, s: seq<string>)
    requires Sorted(s)
    ensures Sorted(InsertSorted(x, s))
    decreases |s|
  {
    if s != [] && !StrLe(x, s[0]) {
      InsertSortedOrder(x, s[1..]);
      InsertSortedMembers(x, s[1..]);
      var r := InsertSorted(x, s[1..]);
      StrLtTotal(x, s[0]);
      forall i, j | 0 <= i < j < |[s[0]] + r|
        ensures StrLe(([s[0]] + r)[i], ([s[0]] + r)[j])
      {
        if i == 0 {
          var y := r[j - 1];
          assert y == x || y in s[1..];
          if y in s[1..] {
            var m :| 0 <= m < |s[1..]| && s[1..][m] == y;
            assert s[m + 1] == y;
          }
        }
      }
    } else if s != [] {
      forall i, j | 0 <= i < j < |[x] + s|
        ensures StrLe(([x] + s)[i], ([x] + s)[j])
      {
        if i == 0 {
          StrLeTransitive(x, s[0], s[j - 1]);
        }
      }
    }
  }

  /** list.sort() yields an ordered permutation of the entry. */
  lemma {:induction false} SortStringsCorrect(e: seq<string>)
    ensures Sorted(SortStrings(e))
    ensures multiset(SortStrings(e)) == multiset(e)
    decreases |e|
  {
    if e != [] {
      SortStringsCorrect(e[1..]);
      InsertSortedFacts(e[0], SortStrings(e[1..]));
      assert e == [e[0]] + e[1..];
    }
  }

  // ---------------------------------------------------------------------------
  // The printed lines

  /** The first index of character c in s. */
  function IndexOf(s: string, c: char): (r: Option<nat>)
    ensures r.Some? ==> r.value < |s| && s[r.value] == c && c !in s[..r.value]
    ensures r.None? ==> c !in s
    decreases |s|
  {
    if s == [] then None
    else if s[0] == c then Some(0)
    else match IndexOf(s[1..], c)
      case None => None
      case Some(i) => Some(i + 1)
  }

  /** Splits a tag expression at its " | " separators. */
  function Split(s: string): seq<string>
    decreases |s|
  {
    match IndexOf(s, '|')
    case None => [s]
    case Some(p) =>
      if 1 <= p && p + 1 < |s| && s[p - 1] == ' ' && s[p + 1] == ' ' then [s[..p - 1]] + Split(s[p + 2..])
      else [s]
  }

  predicate BarFree(names: seq<string>)
  {
    forall i :: 0 <= i < |names| ==> '|' !in names[i]
  }

  /** A name that prints unambiguously: no bar and not the literal 0. */
  predicate PlainNames(names: seq<string>)
  {
    BarFree(names) && forall i :: 0 <= i < |names| ==> names[i] != "0"
  }

  lemma {:induction false} JoinCons(names: seq<string>)
    requires |names| >= 2
    ensures Join(names) == names[0] + " | " + Join(names[1..])
    decreases |names|
  {
    if |names| > 2 {
      var init := names[..|names| - 1];
      JoinCons(init);
      assert init[1..] == names[1..][..|names[1..]| - 1];
    } else {
      assert names[1..] == [names[1]];
    }
  }

  lemma {:induction false} IndexOfShift(a: string, b: string, c: char)
    requires c !in a
    ensures IndexOf(a + b, c) == match IndexOf(b, c) case None => None case Some(i) => Some(|a| + i)
    decreases |a|
  {
    if a == [] {
      assert a + b == b;
    } else {
      assert (a + b)[1..] == a[1..] + b;
      assert (a + b)[0] == a[0] != c;
      assert c !in a[1..];
      IndexOfShift(a[1..], b, c);
    }
  }

  /** One separator: the name before it comes off whole. */
  lemma SplitSeparator(a: string, rest: string)
    requires '|' !in a
    ensures Split(a + " | " + rest) == [a] + Split(rest)
  {
    var s := a + " | " + rest;
    assert s == (a + " ") + ("| " + rest);
    IndexOfShift(a + " ", "| " + rest, '|');
    var p := |a| + 1;
    assert IndexOf(s, '|') == Some(p);
    assert s[..p - 1] == a;
    assert s[p + 2..] == rest;
  }

  lemma BarFreeTail(names: seq<string>)
    requires |names| > 0 && BarFree(names)
    ensures '|' !in names[0] && BarFree(names[1..])
  {
    forall i | 0 <= i < |names[1..]| ensures '|' !in names[1..][i] {
      assert names[1..][i] == names[i + 1];
    }
  }

  /** The printed expression splits back into the sorted tag names. */
  lemma {:induction false} SplitJoin(names: seq<string>)
    requires |names| > 0 && BarFree(names)
    ensures Split(Join(names)) == names
    decreases |names|
  {
    BarFreeTail(names);
    if |names| == 1 {
      assert Join(names) == names[0];
      NoBarSplit(names[0]);
    } else {
      var rest := names[1..];
      JoinCons(names);
      SplitSeparator(names[0], Join(rest));
      SplitJoin(rest);
      assert names == [names[0]] + rest;
    }
  }

  lemma NoBarSplit(s: string)
    requires '|' !in s
    ensures Split(s) == [s]
  {
    assert IndexOf(s, '|') == None;
  }

  lemma DecimalShort(i: nat)
    requires i < 1000
    ensures 1 <= |Decimal(i)| <= 3
  {
    if i >= 10 {
      DecimalShort(i / 10);
    }
  }

  lemma HexShort(i: nat)
    requires i < 256
    ensures 1 <= |Hex(i)| <= 2
  {
    if i >= 16 {
      assert Hex(i / 16) == [HexDigit(i / 16)];
    }
  }

  /** The head of every line is 18 characters: "  /* ", the index as %3d, ", ", the
      4-character annotation and " */ ". */
  lemma LineHeadLayout(i: nat)
    requires i < 256
    ensures |Annotation(i)| == 4 && |LineHead(i)| == 18
    ensures LineHead(i)[5..8] == PadLeft(Decimal(i), 3, ' ')
    ensures LineHead(i)[10..14] == Annotation(i)
  {
    DecimalShort(i);
    HexShort(i);
    var pad := PadLeft(Decimal(i), 3, ' ');
    var h := LineHead(i);
    assert h == "  /* " + pad + ", " + Annotation(i) + " */ ";
  }

  /** Drops leading spaces. */
  function TrimLeft(s: string): string
    decreases |s|
  {
    if s != [] && s[0] == ' ' then TrimLeft(s[1..]) else s
  }

  predicate AllDigits(s: string)
  {
    forall j :: 0 <= j < |s| ==> '0' <= s[j] <= '9'
  }

  /** A %3d field read back: leading spaces, then one or more digits whose value is i. */
  predicate IndexField(s: string, i: nat)
  {
    var d := TrimLeft(s);
    |d| > 0 && AllDigits(d) && DigitsValue(d) == i
  }

  /** Left padding with spaces comes off again, down to a text that starts otherwise. */
  lemma {:induction false} TrimPadded(r: string, d: string)
    requires |d| > 0 && d[0] != ' ' && |r| >= |d| && r[|r| - |d|..] == d
    requires forall j :: 0 <= j < |r| - |d| ==> r[j] == ' '
    ensures TrimLeft(r) == d
    decreases |r|
  {
    if |r| > |d| {
      var r' := r[1..];
      assert r'[|r'| - |d|..] == d;
      assert forall j :: 0 <= j < |r'| - |d| ==> r'[j] == r[j + 1];
      TrimPadded(r', d);
    } else {
      assert r == r[|r| - |d|..];
    }
  }

  lemma PaddedDecimal(i: nat)
    requires i < 256
    ensures IndexField(PadLeft(Decimal(i), 3, ' '), i)
  {
    var d := Decimal(i);
    DecimalRoundTrip(i);
    TrimPadded(PadLeft(d, 3, ' '), d);
  }

  /** Line i carries i as its index field and the expression of entry i after the
      common head, and ends in ','. Read back, the expression is "0" exactly for an
      empty entry, and otherwise splits into the sorted names. */
  lemma EmittedLine(t: seq<Entry>, i: nat)
    requires |t| == 256 && i < 256 && PlainNames(t[i])
    ensures var line := EmitLines(t)[i];
      |line| >= 19 && line[|line| - 1] == ','
      && IndexField(line[5..8], i)
      && line[10..14] == Annotation(i)
      && line[18..|line| - 1] == Expr(SortStrings(t[i]))
      && (t[i] == [] <==> line[18..|line| - 1] == "0")
      && (t[i] != [] ==> Split(line[18..|line| - 1]) == SortStrings(t[i]))
  {
    var expr := Expr(SortStrings(t[i]));
    assert EmitLines(t)[i] == LineHead(i) + expr + ",";
    LineLayout(i, expr);
    PaddedDecimal(i);
    ExprReadsBack(t[i]);
  }

  /** Where the fields of a line lie: the head is 18 characters, the expression follows
      and a ',' ends the line. */
  lemma LineLayout(i: nat, expr: string)
    requires i < 256
    ensures var line := LineHead(i) + expr + ",";
      |line| == 19 + |expr| && line[|line| - 1] == ','
      && line[5..8] == PadLeft(Decimal(i), 3, ' ')
      && line[10..14] == Annotation(i)
      && line[18..|line| - 1] == expr
  {
    LineHeadLayout(i);
    var head := LineHead(i);
    Pieces(head, expr, ",");
    assert (head + expr + ",")[5..8] == head[5..8];
    assert (head + expr + ",")[10..14] == head[10..14];
  }

  /** The expression of an entry reads back: "0" exactly for an empty entry, and
      otherwise it splits into the sorted names. */
  lemma ExprReadsBack(e: Entry)
    requires PlainNames(e)
    ensures var expr := Expr(SortStrings(e));
      (e == [] <==> expr == "0") && (e != [] ==> Split(expr) == SortStrings(e))
  {
    var names := SortStrings(e);
    SortStringsCorrect(e);
    assert |names| == |multiset(names)| == |multiset(e)| == |e|;
    if names != [] {
      assert PlainNames(names) by {
        forall j | 0 <= j < |names| ensures '|' !in names[j] && names[j] != "0" {
          assert names[j] in multiset(e);
        }
      }
      SplitJoin(names);
      JoinNotZero(names);
    }
  }

  lemma Pieces(a: string, b: string, c: string)
    ensures (a + b + c)[..|a|] == a && (a + b + c)[|a|..|a| + |b|] == b
    ensures (a + b + c)[|a| + |b|..] == c
  {
  }

  /** A non-empty expression is not the literal 0. */
  lemma JoinNotZero(names: seq<string>)
    requires |names| > 0 && PlainNames(names)
    ensures Join(names) != "0"
  {
    if |names| >= 2 {
      JoinCons(names);
      var j := Join(names);
      assert j[|names[0]| + 1] == '|';
    }
  }

  /** The first line of every table: byte 0 carries no tags. */
  lemma FirstLine(t: seq<Entry>)
    requires |t| == 256 && t[0] == []
    ensures EmitLines(t)[0] == "  /*   0, 0x00 */ 0,"
  {
  }
}
