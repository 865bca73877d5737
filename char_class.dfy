/** The character-class flags of the lexer (struct CC in Lexer.cpp) and the contents of
    the generated table s_charTab, written as one flag byte per input byte.

    The low three bits of a flag byte hold one class value; bits 3..6 are independent
    flags. CharFlags below is the table the generator produces for the configured rules;
    CharTabGen proves that the emitted table evaluates to exactly these values. */
module CharClass {
  import opened Wrappers

  const ClassMask: bv8 := 7

  const WhitespaceClass: bv8 := 1
  const InitialClass: bv8 := 2
  const PeculiarIdentClass: bv8 := 3
  const DigitClass: bv8 := 4
  const UTF8Class: bv8 := 5

  const Subsequent: bv8 := 1 << 3
  const SignSubsequent: bv8 := 2 << 3
  const DotSubsequent: bv8 := 4 << 3
  const Delimiter: bv8 := 8 << 3

  /** CC::getClass. */
  function GetClass(f: bv8): (c: bv8)
    ensures c <= ClassMask
    ensures c == f & ClassMask
  {
    f & ClassMask
  }

  predicate TestSubsequent(f: bv8) { f & Subsequent != 0 }
  predicate TestSignSubsequent(f: bv8) { f & SignSubsequent != 0 }
  predicate TestDotSubsequent(f: bv8) { f & DotSubsequent != 0 }
  predicate TestDelimiter(f: bv8) { f & Delimiter != 0 }

  /** The class values fit in the mask and the four flag bits lie outside it and are
      pairwise distinct, so a flag byte decomposes into one class and a set of flags. */
  lemma FlagLayout()
    ensures WhitespaceClass & ClassMask == WhitespaceClass && InitialClass & ClassMask == InitialClass
    ensures PeculiarIdentClass & ClassMask == PeculiarIdentClass && DigitClass & ClassMask == DigitClass
    ensures UTF8Class & ClassMask == UTF8Class
    ensures Subsequent & ClassMask == 0 && SignSubsequent & ClassMask == 0
    ensures DotSubsequent & ClassMask == 0 && Delimiter & ClassMask == 0
    ensures Subsequent & SignSubsequent == 0 && Subsequent & DotSubsequent == 0
    ensures Subsequent & Delimiter == 0 && SignSubsequent & DotSubsequent == 0
    ensures SignSubsequent & Delimiter == 0 && DotSubsequent & Delimiter == 0
  {
  }

  /** The enumerator named by a tag string of the generator ("CC::Subsequent", ...). */
  function EnumValue(name: string): Option<bv8>
  {
    if name == "CC::WhitespaceClass" then Some(WhitespaceClass)
    else if name == "CC::InitialClass" then Some(InitialClass)
    else if name == "CC::PeculiarIdentClass" then Some(PeculiarIdentClass)
    else if name == "CC::DigitClass" then Some(DigitClass)
    else if name == "CC::UTF8Class" then Some(UTF8Class)
    else if name == "CC::Subsequent" then Some(Subsequent)
    else if name == "CC::SignSubsequent" then Some(SignSubsequent)
    else if name == "CC::DotSubsequent" then Some(DotSubsequent)
    else if name == "CC::Delimiter" then Some(Delimiter)
    else None
  }

  /** The tag names that are class values (as opposed to flag bits). */
  predicate IsClassName(name: string)
  {
    name in {"CC::WhitespaceClass", "CC::InitialClass", "CC::PeculiarIdentClass",
             "CC::DigitClass", "CC::UTF8Class"}
  }

  // Byte sets the configured rules talk about.

  predicate IsLetter(b: byte)
  {
    'a' as int <= b <= 'z' as int || 'A' as int <= b <= 'Z' as int
  }

  /** The punctuation that may start an identifier, except '@'. */
  predicate IsInitialPunct(b: byte)
  {
    b as char in "!$%&*/:<=>?^_~"
  }

  predicate IsInitialByte(b: byte)
  {
    IsLetter(b) || IsInitialPunct(b) || b == '@' as int
  }

  predicate IsDigitByte(b: byte)
  {
    '0' as int <= b <= '9' as int
  }

  predicate IsWhitespaceByte(b: byte)
  {
    b as char in " \n\r\U{b}\t"
  }

  predicate IsPeculiarByte(b: byte)
  {
    b as char in "+-."
  }

  predicate IsUtf8Byte(b: byte)
  {
    128 <= b
  }

  predicate IsSubsequentByte(b: byte)
  {
    IsLetter(b) || IsInitialPunct(b) || IsDigitByte(b) || b as char in "+-.@"
  }

  predicate IsSignSubsequentByte(b: byte)
  {
    IsInitialByte(b) || b as char in "+-@"
  }

  predicate IsDotSubsequentByte(b: byte)
  {
    IsInitialByte(b) || b as char in "+-@."
  }

  predicate IsDelimiterByte(b: byte)
  {
    IsWhitespaceByte(b) || b as char in "|()[]{}\";"
  }

  /** The class value the table gives a byte (0 for bytes of no class). */
  function ClassOf(b: byte): (c: bv8)
    ensures c <= UTF8Class
  {
    if IsWhitespaceByte(b) then WhitespaceClass
    else if IsInitialByte(b) then InitialClass
    else if IsPeculiarByte(b) then PeculiarIdentClass
    else if IsDigitByte(b) then DigitClass
    else if IsUtf8Byte(b) then UTF8Class
    else 0
  }

  /** s_charTab[b]: the flag byte of b. */
  function CharFlags(b: byte): bv8
  {
    ClassOf(b)
    | (if IsSubsequentByte(b) then Subsequent else 0)
    | (if IsSignSubsequentByte(b) then SignSubsequent else 0)
    | (if IsDotSubsequentByte(b) then DotSubsequent else 0)
    | (if IsDelimiterByte(b) then Delimiter else 0)
  }

  /** s_charTab, indexed by byte. */
  function CharTable(): (tab: seq<bv8>)
    ensures |tab| == 256 && forall b: byte :: tab[b] == CharFlags(b)
  {
    seq(256, (b: int) requires 0 <= b < 256 => CharFlags(b))
  }

  /** The accessors of CC read back exactly the byte sets above. */
  lemma FlagsDecode(b: byte)
    ensures GetClass(CharFlags(b)) == ClassOf(b)
    ensures TestSubsequent(CharFlags(b)) <==> IsSubsequentByte(b)
    ensures TestSignSubsequent(CharFlags(b)) <==> IsSignSubsequentByte(b)
    ensures TestDotSubsequent(CharFlags(b)) <==> IsDotSubsequentByte(b)
    ensures TestDelimiter(CharFlags(b)) <==> IsDelimiterByte(b)
  {
  }
}
