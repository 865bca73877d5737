/** What the configured rules of genCharTab.py put in the table, byte by byte, and how
    the emitted table agrees with the lexer's view of it (CharClass.CharFlags). */
module CharTabConfig {
  import opened Wrappers
  import opened CharClass
  import opened CharTabGen
  import opened CharTabProps

  // ---------------------------------------------------------------------------
  // The names a list of rules contributes to one byte

  predicate Hits(r: Rule, k: int)
  {
    match r
    case RangeRule(_, a, b) => Ord(a) <= k <= Ord(b)
    case PointsRule(_, elems) => Touches(elems, k)
  }

  function AtomSet(tag: Tag): set<string>
  {
    set x | x in Atoms(tag)
  }

  function Contrib(r: Rule, k: int): set<string>
  {
    if Hits(r, k) then AtomSet(r.tag) else {}
  }

  /** The names the rules `rs` apply to byte k. */
  function TagNames(rs: seq<Rule>, k: int): set<string>
    decreases |rs|
  {
    if rs == [] then {} else Contrib(rs[0], k) + TagNames(rs[1..], k)
  }

  lemma RuleEffect(t: seq<Entry>, r: Rule)
    requires |t| == 256 && InBounds(r)
    ensures ApplyRule(t, r).ok
    ensures forall k :: 0 <= k < 256 ==>
      ApplyRule(t, r).table[k] == if Hits(r, k) then ApplyTag(t[k], r.tag) else t[k]
  {
    match r
    case RangeRule(tag, a, b) =>
      RangeEffect(t, tag, Ord(a), Ord(b));
    case PointsRule(tag, elems) =>
      assert forall j :: 0 <= j < |elems| ==> elems[j] in elems;
      PointsEffect(t, tag, elems);
  }

  /** In-bounds rules succeed, and byte k then holds its old names plus exactly the
      names of the rules that hit k, without duplicates. */
  lemma {:induction false} RulesEffect(t: seq<Entry>, rs: seq<Rule>)
    requires |t| == 256 && forall j :: 0 <= j < |rs| ==> InBounds(rs[j])
    ensures ApplyRules(t, rs).ok
    ensures forall k, x :: 0 <= k < 256 ==>
      (x in ApplyRules(t, rs).table[k] <==> x in t[k] || x in TagNames(rs, k))
    ensures (forall k :: 0 <= k < 256 ==> NoDup(t[k])) ==>
      forall k :: 0 <= k < 256 ==> NoDup(ApplyRules(t, rs).table[k])
    decreases |rs|
  {
    if rs != [] {
      var r := rs[0];
      assert InBounds(r);
      RuleEffect(t, r);
      var t' := ApplyRule(t, r).table;
      assert forall j :: 0 <= j < |rs[1..]| ==> rs[1..][j] == rs[j + 1];
      RulesEffect(t', rs[1..]);
      forall k | 0 <= k < 256
        ensures forall x :: x in t'[k] <==> x in t[k] || x in Contrib(r, k)
        ensures NoDup(t[k]) ==> NoDup(t'[k])
      {
        ApplyTagFacts(t[k], r.tag);
      }
    }
  }

  // ---------------------------------------------------------------------------
  // The configured rules, one by one

  const IC := "CC::InitialClass"
  const SS := "CC::SignSubsequent"
  const DS := "CC::DotSubsequent"
  const SUB := "CC::Subsequent"
  const WC := "CC::WhitespaceClass"
  const DEL := "CC::Delimiter"
  const PIC := "CC::PeculiarIdentClass"
  const DC := "CC::DigitClass"
  const U8 := "CC::UTF8Class"

  lemma AtomSets()
    ensures AtomSet(INITIAL) == {IC, SS, DS}
    ensures AtomSet(SIGN_SUBSEQUENT) == {SS, DS}
    ensures AtomSet(WHITESPACE) == {WC, DEL}
    ensures AtomSet(SUBSEQUENT) == {SUB} && AtomSet(DOT_SUBSEQUENT) == {DS}
    ensures AtomSet(PECULIAR_IDENT) == {PIC} && AtomSet(DIGIT) == {DC}
    ensures AtomSet(DELIMITER) == {DEL} && AtomSet(UTF8) == {U8}
  {
    TupleAtoms();
  }

  lemma TouchesChars(s: string, k: nat)
    requires k < 256
    ensures Touches(Chars(s), k) <==> k as char in s
  {
    if Touches(Chars(s), k) {
      var j :| 0 <= j < |Chars(s)| && Ord(Chars(s)[j]) == k;
      assert s[j] == k as char;
    }
    if k as char in s {
      var j :| 0 <= j < |s| && s[j] == k as char;
      assert Ord(Chars(s)[j]) == k;
    }
  }

  lemma TagNamesStep(rs: seq<Rule>, k: nat, b: int)
    requires k < |rs|
    ensures TagNames(rs[k..], b) == Contrib(rs[k], b) + TagNames(rs[k + 1..], b)
  {
    assert rs[k..][1..] == rs[k + 1..];
  }

  lemma {:induction false} TagNamesAppend(r1: seq<Rule>, r2: seq<Rule>, b: int)
    ensures TagNames(r1 + r2, b) == TagNames(r1, b) + TagNames(r2, b)
    decreases |r1|
  {
    if r1 == [] {
      assert r1 + r2 == r2;
    } else {
      assert (r1 + r2)[0] == r1[0] && (r1 + r2)[1..] == r1[1..] + r2;
      TagNamesAppend(r1[1..], r2, b);
    }
  }

  /** Lines 70-73 give the initial bytes the initial class and both flags INITIAL
      stands for. */
  lemma InitialNames(b: byte)
    ensures TagNames(INITIAL_RULES, b) == if IsInitialByte(b) then {IC, SS, DS} else {}
  {
    AtomSets();
    TouchesChars("!$%&*/:<=>?^_~@", b);
    assert IsInitialPunct(b) || b == '@' as int <==> b as char in "!$%&*/:<=>?^_~@";
    assert INITIAL_RULES[0..] == INITIAL_RULES;
    TagNamesStep(INITIAL_RULES, 0, b);
    TagNamesStep(INITIAL_RULES, 1, b);
    TagNamesStep(INITIAL_RULES, 2, b);
    assert INITIAL_RULES[3..] == [];
  }

  /** Lines 75-80 give Subsequent to exactly the subsequent bytes. */
  lemma SubsequentNames(b: byte)
    ensures TagNames(SUBSEQUENT_RULES, b) == if IsSubsequentByte(b) then {SUB} else {}
  {
    AtomSets();
    TouchesChars("!$%&*/:<=>?^_~", b);
    TouchesChars("+-.@", b);
    assert SUBSEQUENT_RULES[0..] == SUBSEQUENT_RULES;
    TagNamesStep(SUBSEQUENT_RULES, 0, b);
    TagNamesStep(SUBSEQUENT_RULES, 1, b);
    TagNamesStep(SUBSEQUENT_RULES, 2, b);
    TagNamesStep(SUBSEQUENT_RULES, 3, b);
    TagNamesStep(SUBSEQUENT_RULES, 4, b);
    assert SUBSEQUENT_RULES[5..] == [];
  }

  /** Lines 82-86. */
  lemma SignNames(b: byte)
    ensures TagNames(SIGN_RULES, b) ==
      (if IsWhitespaceByte(b) then {WC, DEL} else {})
      + (if IsPeculiarByte(b) then {PIC} else {})
      + (if b as char in "+-@" then {SS, DS} else {})
      + (if b == '.' as int then {DS} else {})
  {
    AtomSets();
    TouchesChars(" \n\r\U{b}\t", b);
    TouchesChars("+-.", b);
    TouchesChars("+-@", b);
    TouchesChars(".", b);
    assert SIGN_RULES[0..] == SIGN_RULES;
    TagNamesStep(SIGN_RULES, 0, b);
    TagNamesStep(SIGN_RULES, 1, b);
    TagNamesStep(SIGN_RULES, 2, b);
    TagNamesStep(SIGN_RULES, 3, b);
    assert SIGN_RULES[4..] == [];
  }

  /** Lines 88-91. */
  lemma LastNames(b: byte)
    ensures TagNames(LAST_RULES, b) ==
      (if IsDigitByte(b) then {DC} else {})
      + (if b as char in "|()[]{}\";" then {DEL} else {})
      + (if IsUtf8Byte(b) then {U8} else {})
  {
    AtomSets();
    TouchesChars("|()[]{}\";", b);
    assert LAST_RULES[0..] == LAST_RULES;
    TagNamesStep(LAST_RULES, 0, b);
    TagNamesStep(LAST_RULES, 1, b);
    TagNamesStep(LAST_RULES, 2, b);
    assert LAST_RULES[3..] == [];
  }

  // ---------------------------------------------------------------------------
  // The reference: the names a byte should carry, read off the lexer's flag sets

  /** The tag name of a class value (none for 0). */
  function ClassNames(c: bv8): set<string>
  {
    if c == WhitespaceClass then {WC}
    else if c == InitialClass then {IC}
    else if c == PeculiarIdentClass then {PIC}
    else if c == DigitClass then {DC}
    else if c == UTF8Class then {U8}
    else {}
  }

  /** The names whose or-ed values make CharFlags(b). */
  function ExpectedNames(b: byte): set<string>
  {
    ClassNames(ClassOf(b))
    + (if IsSubsequentByte(b) then {SUB} else {})
    + (if IsSignSubsequentByte(b) then {SS} else {})
    + (if IsDotSubsequentByte(b) then {DS} else {})
    + (if IsDelimiterByte(b) then {DEL} else {})
  }

  /** The five classes are pairwise disjoint byte sets. */
  lemma ClassesDisjoint(b: byte)
    ensures IsWhitespaceByte(b) ==> !IsInitialByte(b) && !IsPeculiarByte(b) && !IsDigitByte(b) && !IsUtf8Byte(b)
    ensures IsInitialByte(b) ==> !IsPeculiarByte(b) && !IsDigitByte(b) && !IsUtf8Byte(b)
    ensures IsPeculiarByte(b) ==> !IsDigitByte(b) && !IsUtf8Byte(b)
    ensures IsDigitByte(b) ==> !IsUtf8Byte(b)
  {
  }

  /** The four blocks' names, summed, are the reference names. */
  lemma BlocksMakeExpected(b: byte)
    ensures (if IsInitialByte(b) then {IC, SS, DS} else {})
      + (if IsSubsequentByte(b) then {SUB} else {})
      + ((if IsWhitespaceByte(b) then {WC, DEL} else {})
        + (if IsPeculiarByte(b) then {PIC} else {})
        + (if b as char in "+-@" then {SS, DS} else {})
        + (if b == '.' as int then {DS} else {}))
      + ((if IsDigitByte(b) then {DC} else {})
        + (if b as char in "|()[]{}\";" then {DEL} else {})
        + (if IsUtf8Byte(b) then {U8} else {}))
      == ExpectedNames(b)
  {
    ClassesDisjoint(b);
  }

  /** The rules give every byte exactly the names the lexer's flag sets call for. */
  lemma ConfiguredNames(b: byte)
    ensures TagNames(RULES, b) == ExpectedNames(b)
  {
    TagNamesAppend(INITIAL_RULES, SUBSEQUENT_RULES, b);
    TagNamesAppend(INITIAL_RULES + SUBSEQUENT_RULES, SIGN_RULES, b);
    TagNamesAppend(INITIAL_RULES + SUBSEQUENT_RULES + SIGN_RULES, LAST_RULES, b);
    InitialNames(b);
    SubsequentNames(b);
    SignNames(b);
    LastNames(b);
    BlocksMakeExpected(b);
  }

  // ---------------------------------------------------------------------------
  // The configured table

  /** The table the script starts from: 256 empty entries. */
  predicate Fresh(t: seq<Entry>)
  {
    |t| == 256 && forall k :: 0 <= k < 256 ==> t[k] == []
  }

  lemma AllRulesInBounds()
    ensures forall j :: 0 <= j < |RULES| ==> InBounds(RULES[j])
  {
    RulesInBounds();
  }

  /** Every byte of the configured table holds exactly its reference names, once each. */
  lemma ConfiguredTable(t: seq<Entry>, b: byte)
    requires Fresh(t)
    ensures forall x :: x in Configured(t)[b] <==> x in ExpectedNames(b)
    ensures NoDup(Configured(t)[b])
  {
    AllRulesInBounds();
    RulesEffect(t, RULES);
    ConfiguredNames(b);
  }

  lemma FlagNamesAreNotClasses()
    ensures !IsClassName(SUB) && !IsClassName(SS) && !IsClassName(DS) && !IsClassName(DEL)
  {
  }

  /** The class names among a class value's name and some flag names. */
  lemma ClassPart(c: bv8, s1: bool, s2: bool, s3: bool, s4: bool, x: string)
    requires IsClassName(x)
    requires x in ClassNames(c) + (if s1 then {SUB} else {}) + (if s2 then {SS} else {})
      + (if s3 then {DS} else {}) + (if s4 then {DEL} else {})
    ensures x in ClassNames(c)
  {
    FlagNamesAreNotClasses();
  }

  /** No byte carries two different class names, so the low three bits of its or-ed
      flags are one class value. */
  lemma SingleClass(t: seq<Entry>, b: byte)
    requires Fresh(t)
    ensures forall x, y ::
      (x in Configured(t)[b] && y in Configured(t)[b] && IsClassName(x) && IsClassName(y)) ==> x == y
  {
    ConfiguredTable(t, b);
    var e := Configured(t)[b];
    var c := ClassOf(b);
    var s1, s2, s3, s4 := IsSubsequentByte(b), IsSignSubsequentByte(b), IsDotSubsequentByte(b), IsDelimiterByte(b);
    forall x, y | x in e && y in e && IsClassName(x) && IsClassName(y)
      ensures x == y
    {
      ClassPart(c, s1, s2, s3, s4, x);
      ClassPart(c, s1, s2, s3, s4, y);
    }
  }

  /** Every byte INITIAL tags is also Subsequent, and every WHITESPACE byte is also a
      delimiter. */
  lemma ImpliedFlags(t: seq<Entry>, b: byte)
    requires Fresh(t)
    ensures IC in Configured(t)[b] ==> SUB in Configured(t)[b]
    ensures WC in Configured(t)[b] ==> DEL in Configured(t)[b]
  {
    ConfiguredTable(t, b);
    ClassesDisjoint(b);
  }

  // ---------------------------------------------------------------------------
  // The emitted initializer evaluated as C

  /** The value of an emitted expression: 0 for no names, else the enumerators or-ed;
      None if a name is not an enumerator of CC. */
  function EvalOr(names: seq<string>): Option<bv8>
    decreases |names|
  {
    if names == [] then Some(0)
    else match (EnumValue(names[0]), EvalOr(names[1..]))
      case (Some(v), Some(w)) => Some(v | w)
      case _ => None
  }

  /** The or of the enumerators named in a set. */
  function OrOfNames(s: set<string>): bv8
  {
    (if WC in s then WhitespaceClass else 0) | (if IC in s then InitialClass else 0)
    | (if PIC in s then PeculiarIdentClass else 0) | (if DC in s then DigitClass else 0)
    | (if U8 in s then UTF8Class else 0) | (if SUB in s then Subsequent else 0)
    | (if SS in s then SignSubsequent else 0) | (if DS in s then DotSubsequent else 0)
    | (if DEL in s then Delimiter else 0)
  }

  lemma NamesDistinct()
    ensures WC != IC && WC != PIC && WC != DC && WC != U8 && WC != SUB && WC != SS && WC != DS && WC != DEL
    ensures IC != PIC && IC != DC && IC != U8 && IC != SUB && IC != SS && IC != DS && IC != DEL
    ensures PIC != DC && PIC != U8 && PIC != SUB && PIC != SS && PIC != DS && PIC != DEL
    ensures DC != U8 && DC != SUB && DC != SS && DC != DS && DC != DEL
    ensures U8 != SUB && U8 != SS && U8 != DS && U8 != DEL
    ensures SUB != SS && SUB != DS && SUB != DEL
    ensures SS != DS && SS != DEL && DS != DEL
  {
  }

  lemma EnumNames(x: string)
    ensures EnumValue(x).Some? <==> x in {WC, IC, PIC, DC, U8, SUB, SS, DS, DEL}
  {
  }

  lemma OrOfNamesAdd(x: string, s: set<string>)
    requires EnumValue(x).Some?
    ensures OrOfNames(s + {x}) == EnumValue(x).value | OrOfNames(s)
  {
    EnumNames(x);
    NamesDistinct();
  }

  /** The or of a list of enumerators depends only on which names it contains. */
  lemma {:induction false} EvalOrIsOrOfSet(names: seq<string>)
    requires forall i :: 0 <= i < |names| ==> EnumValue(names[i]).Some?
    ensures EvalOr(names) == Some(OrOfNames(set x | x in names))
    decreases |names|
  {
    if names != [] {
      EvalOrIsOrOfSet(names[1..]);
      OrOfNamesAdd(names[0], set x | x in names[1..]);
      assert (set x | x in names) == (set x | x in names[1..]) + {names[0]};
    } else {
      NamesDistinct();
      assert (set x: string | x in names) == {};
    }
  }

  lemma OrOfUnion(a: set<string>, c: set<string>)
    ensures OrOfNames(a + c) == OrOfNames(a) | OrOfNames(c)
  {
  }

  lemma OrOfSingletons()
    ensures OrOfNames({}) == 0
    ensures OrOfNames({SUB}) == Subsequent && OrOfNames({SS}) == SignSubsequent
    ensures OrOfNames({DS}) == DotSubsequent && OrOfNames({DEL}) == Delimiter
  {
    NamesDistinct();
  }

  lemma OrOfClassNames(c: bv8)
    requires c <= UTF8Class
    ensures OrOfNames(ClassNames(c)) == c
  {
    NamesDistinct();
  }

  /** The reference names or-ed are CharFlags. */
  lemma ExpectedOr(b: byte)
    ensures OrOfNames(ExpectedNames(b)) == CharFlags(b)
  {
    var c := ClassOf(b);
    var f1: set<string> := if IsSubsequentByte(b) then {SUB} else {};
    var f2: set<string> := if IsSignSubsequentByte(b) then {SS} else {};
    var f3: set<string> := if IsDotSubsequentByte(b) then {DS} else {};
    var f4: set<string> := if IsDelimiterByte(b) then {DEL} else {};
    assert ExpectedNames(b) == ClassNames(c) + f1 + f2 + f3 + f4;
    OrOfUnion(ClassNames(c) + f1 + f2 + f3, f4);
    OrOfUnion(ClassNames(c) + f1 + f2, f3);
    OrOfUnion(ClassNames(c) + f1, f2);
    OrOfUnion(ClassNames(c), f1);
    OrOfClassNames(c);
    OrOfSingletons();
  }

  lemma ExpectedAreEnums(b: byte, x: string)
    requires x in ExpectedNames(b)
    ensures EnumValue(x).Some?
  {
    var c := ClassOf(b);
    if x in ClassNames(c) {
      ClassNamesAreEnums(c, x);
    } else {
      assert x in {SUB, SS, DS, DEL};
      EnumNames(x);
    }
  }

  lemma ClassNamesAreEnums(c: bv8, x: string)
    requires x in ClassNames(c)
    ensures EnumValue(x).Some?
  {
    EnumNames(x);
  }

  lemma SortedSameNames(e: seq<string>)
    ensures forall x :: x in SortStrings(e) <==> x in e
  {
    SortStringsCorrect(e);
    assert forall x :: x in SortStrings(e) <==> x in multiset(SortStrings(e));
    assert forall x :: x in e <==> x in multiset(e);
  }

  /** The line genTable emits for byte b evaluates, as a C initializer, to the flag
      byte the lexer reads for b. */
  lemma EmittedFlags(t: seq<Entry>, b: byte)
    requires Fresh(t)
    ensures EvalOr(SortStrings(Configured(t)[b])) == Some(CharFlags(b))
  {
    var e := Configured(t)[b];
    var sorted := SortStrings(e);
    ConfiguredTable(t, b);
    SortedSameNames(e);
    assert (set x | x in sorted) == ExpectedNames(b);
    forall i | 0 <= i < |sorted|
      ensures EnumValue(sorted[i]).Some?
    {
      ExpectedAreEnums(b, sorted[i]);
    }
    EvalOrIsOrOfSet(sorted);
    ExpectedOr(b);
  }

  /** What the script prints: for every byte, the expression of its line evaluates to
      CharFlags, which is what s_charTab holds once the output is included. */
  lemma ScriptOutput(b: byte)
    ensures var t := Configured(EmptyTable());
      EvalOr(SortStrings(t[b])) == Some(CharFlags(b))
      && SingleClassIn(t[b])
  {
    EmittedFlags(EmptyTable(), b);
    SingleClass(EmptyTable(), b);
  }

  predicate SingleClassIn(e: Entry)
  {
    forall x, y :: (x in e && y in e && IsClassName(x) && IsClassName(y)) ==> x == y
  }
}
