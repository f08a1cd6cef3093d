/**
 * Protein point locations and ranges in variant nomenclature. Positions are
 * stored zero-based and printed one-based, followed by the residue in the
 * one-letter or the three-letter amino-acid code the caller selects.
 */
module ProteinRange {
  import opened Wrappers
  import opened Numerals

  /** The two amino-acid codes a caller can choose for rendering. */
  datatype AminoAcidCode = ONE_LETTER | THREE_LETTER

  /** The twenty standard residues and the translation stop. */
  datatype AminoAcid =
    | Ala | Arg | Asn | Asp | Cys | Gln | Glu | Gly | His | Ile
    | Leu | Lys | Met | Phe | Pro | Ser | Thr | Trp | Tyr | Val | Ter

  function OneLetter(aa: AminoAcid): char {
    match aa
    case Ala => 'A' case Arg => 'R' case Asn => 'N' case Asp => 'D' case Cys => 'C'
    case Gln => 'Q' case Glu => 'E' case Gly => 'G' case His => 'H' case Ile => 'I'
    case Leu => 'L' case Lys => 'K' case Met => 'M' case Phe => 'F' case Pro => 'P'
    case Ser => 'S' case Thr => 'T' case Trp => 'W' case Tyr => 'Y' case Val => 'V'
    case Ter => '*'
  }

  function ThreeLetter(aa: AminoAcid): string {
    match aa
    case Ala => "Ala" case Arg => "Arg" case Asn => "Asn" case Asp => "Asp" case Cys => "Cys"
    case Gln => "Gln" case Glu => "Glu" case Gly => "Gly" case His => "His" case Ile => "Ile"
    case Leu => "Leu" case Lys => "Lys" case Met => "Met" case Phe => "Phe" case Pro => "Pro"
    case Ser => "Ser" case Thr => "Thr" case Trp => "Trp" case Tyr => "Tyr" case Val => "Val"
    case Ter => "Ter"
  }

  /** The residue spelled in the chosen code. */
  function ResidueText(aa: AminoAcid, code: AminoAcidCode): string {
    if code == ONE_LETTER then [OneLetter(aa)] else ThreeLetter(aa)
  }

  function FromOneLetter(c: char): Option<AminoAcid> {
    match c
    case 'A' => Some(Ala) case 'R' => Some(Arg) case 'N' => Some(Asn) case 'D' => Some(Asp)
    case 'C' => Some(Cys) case 'Q' => Some(Gln) case 'E' => Some(Glu) case 'G' => Some(Gly)
    case 'H' => Some(His) case 'I' => Some(Ile) case 'L' => Some(Leu) case 'K' => Some(Lys)
    case 'M' => Some(Met) case 'F' => Some(Phe) case 'P' => Some(Pro) case 'S' => Some(Ser)
    case 'T' => Some(Thr) case 'W' => Some(Trp) case 'Y' => Some(Tyr) case 'V' => Some(Val)
    case '*' => Some(Ter)
    case _ => None
  }

  function FromThreeLetter(s: seq<char>): Option<AminoAcid> {
    if |s| != 3 then None
    else
      match (s[0], s[1], s[2])
      case ('A', 'l', 'a') => Some(Ala) case ('A', 'r', 'g') => Some(Arg) case ('A', 's', 'n') => Some(Asn)
      case ('A', 's', 'p') => Some(Asp) case ('C', 'y', 's') => Some(Cys) case ('G', 'l', 'n') => Some(Gln)
      case ('G', 'l', 'u') => Some(Glu) case ('G', 'l', 'y') => Some(Gly) case ('H', 'i', 's') => Some(His)
      case ('I', 'l', 'e') => Some(Ile) case ('L', 'e', 'u') => Some(Leu) case ('L', 'y', 's') => Some(Lys)
      case ('M', 'e', 't') => Some(Met) case ('P', 'h', 'e') => Some(Phe) case ('P', 'r', 'o') => Some(Pro)
      case ('S', 'e', 'r') => Some(Ser) case ('T', 'h', 'r') => Some(Thr) case ('T', 'r', 'p') => Some(Trp)
      case ('T', 'y', 'r') => Some(Tyr) case ('V', 'a', 'l') => Some(Val) case ('T', 'e', 'r') => Some(Ter)
      case _ => None
  }

  /** A residue at a zero-based position of the protein. */
  datatype ProteinPointLocation = ProteinPointLocation(pos: nat, aa: AminoAcid)

  datatype ProteinRange = ProteinRange(first: ProteinPointLocation, last: ProteinPointLocation)

  /** No residue spelling contains the range separator or a digit. */
  lemma ResidueTextIsPlain(aa: AminoAcid, code: AminoAcidCode)
    ensures |ResidueText(aa, code)| > 0 && !IsDigit(ResidueText(aa, code)[0])
    ensures '_' !in ResidueText(aa, code)
  {
    match aa { case _ => }
  }

  /** The one-based number, then the residue. */
  function LocationToHGVSString(loc: ProteinPointLocation, code: AminoAcidCode): (s: string)
    ensures |s| > 0 && IsDigit(s[0])
    ensures '_' !in s
  {
    ResidueTextIsPlain(loc.aa, code);
    var ds := NatToString(loc.pos + 1);
    assert IsDigit(ds[0]) && '_' !in ds;
    ds + ResidueText(loc.aa, code)
  }

  /** `first_last`, or the single location when both endpoints are the same. */
  function ToHGVSString(r: ProteinRange, code: AminoAcidCode): (s: string)
    ensures '_' in s <==> r.first != r.last
    ensures r.first == r.last ==> s == LocationToHGVSString(r.first, code)
  {
    var a := LocationToHGVSString(r.first, code);
    if r.first == r.last then a
    else
      assert (a + "_" + LocationToHGVSString(r.last, code))[|a|] == '_';
      a + "_" + LocationToHGVSString(r.last, code)
  }

  /** Reads a residue in the chosen code at the head of `s`. */
  function ParseResidue(s: seq<char>, code: AminoAcidCode): (r: Option<(AminoAcid, seq<char>)>)
    ensures r.Some? ==> |r.value.1| < |s| && r.value.1 == s[|s| - |r.value.1|..]
  {
    if code == ONE_LETTER then
      if |s| >= 1 && FromOneLetter(s[0]).Some? then Some((FromOneLetter(s[0]).value, s[1..])) else None
    else
      if |s| >= 3 && FromThreeLetter(s[..3]).Some? then Some((FromThreeLetter(s[..3]).value, s[3..])) else None
  }

  /** Reads a one-based number and a residue; the number 0 names no residue. */
  function ParseLocation(s: seq<char>, code: AminoAcidCode): (r: Option<(ProteinPointLocation, seq<char>)>)
    ensures r.Some? ==> |r.value.1| < |s| && r.value.1 == s[|s| - |r.value.1|..]
  {
    var (n, rest) :- ParseNat(s);
    if n == 0 then None
    else
      var (aa, rest') :- ParseResidue(rest, code);
      Some((ProteinPointLocation(n - 1, aa), rest'))
  }

  /** Reads a whole range text; a single location denotes the range with equal endpoints. */
  function ParseProteinRange(s: seq<char>, code: AminoAcidCode): (r: Option<ProteinRange>)
    ensures r.Some? && r.value.first != r.value.last ==> '_' in s
  {
    var (first, rest) :- ParseLocation(s, code);
    if rest == [] then Some(ProteinRange(first, first))
    else if rest[0] == '_' then
      assert s[|s| - |rest|] == '_';
      var (last, rest') :- ParseLocation(rest[1..], code);
      if rest' == [] then Some(ProteinRange(first, last)) else None
    else None
  }

  /** Reading a one-letter code back gives the residue it spells. */
  lemma FromOneLetterOfOneLetter(aa: AminoAcid)
    ensures FromOneLetter(OneLetter(aa)) == Some(aa)
  {
  }

  /** Reading a three-letter code back gives the residue it spells. */
  lemma FromThreeLetterOfThreeLetter(aa: AminoAcid)
    ensures FromThreeLetter(ThreeLetter(aa)) == Some(aa)
  {
  }

  lemma ParseResidueOfText(aa: AminoAcid, code: AminoAcidCode, rest: seq<char>)
    ensures ParseResidue(ResidueText(aa, code) + rest, code) == Some((aa, rest))
  {
    var t := ResidueText(aa, code) + rest;
    if code == ONE_LETTER {
      assert t[0] == OneLetter(aa) && t[1..] == rest;
      FromOneLetterOfOneLetter(aa);
    } else {
      assert |ThreeLetter(aa)| == 3;
      assert t[..3] == ThreeLetter(aa) && t[3..] == rest;
      FromThreeLetterOfThreeLetter(aa);
    }
  }

  lemma ParseLocationStep(s: seq<char>, code: AminoAcidCode, loc: ProteinPointLocation, s1: seq<char>, rest: seq<char>)
    requires ParseNat(s) == Some((loc.pos + 1, s1))
    requires ParseResidue(s1, code) == Some((loc.aa, rest))
    ensures ParseLocation(s, code) == Some((loc, rest))
  {
  }

  lemma {:induction false} ParseLocationOfText(loc: ProteinPointLocation, code: AminoAcidCode, rest: seq<char>)
    ensures ParseLocation(LocationToHGVSString(loc, code) + rest, code) == Some((loc, rest))
  {
    var res := ResidueText(loc.aa, code);
    var ds := NatToString(loc.pos + 1);
    assert LocationToHGVSString(loc, code) + rest == ds + (res + rest);
    assert ParseNat(ds + (res + rest)) == Some((loc.pos + 1, res + rest)) by {
      ResidueTextIsPlain(loc.aa, code);
      assert NoDigitAhead(res + rest);
      ParseNatOfNatToString(loc.pos + 1, res + rest);
    }
    assert ParseResidue(res + rest, code) == Some((loc.aa, rest)) by {
      ParseResidueOfText(loc.aa, code, rest);
    }
    ParseLocationStep(ds + (res + rest), code, loc, res + rest, rest);
  }

  /** Reading back a rendered range gives the range, in either amino-acid code. */
  lemma {:induction false} ParseOfToHGVSString(r: ProteinRange, code: AminoAcidCode)
    ensures ParseProteinRange(ToHGVSString(r, code), code) == Some(r)
  {
    var a := LocationToHGVSString(r.first, code);
    var b := LocationToHGVSString(r.last, code);
    if r.first == r.last {
      assert a == a + [];
      ParseLocationOfText(r.first, code, []);
    } else {
      assert a + "_" + b == a + ("_" + b);
      ParseLocationOfText(r.first, code, "_" + b);
      assert ("_" + b)[1..] == b + [];
      ParseLocationOfText(r.last, code, []);
    }
  }

  /** Two ranges print alike in one code exactly when they are equal: rendering loses nothing. */
  lemma ToHGVSStringInjective(r: ProteinRange, r': ProteinRange, code: AminoAcidCode)
    ensures ToHGVSString(r, code) == ToHGVSString(r', code) <==> r == r'
  {
    ParseOfToHGVSString(r, code);
    ParseOfToHGVSString(r', code);
  }

  /** Locations are equal exactly when position and residue agree, and then they print alike. */
  lemma LocationEquality(a: ProteinPointLocation, b: ProteinPointLocation, code: AminoAcidCode)
    ensures a == b <==> a.pos == b.pos && a.aa == b.aa
    ensures a == b <==> LocationToHGVSString(a, code) == LocationToHGVSString(b, code)
  {
    ParseLocationOfText(a, code, []);
    ParseLocationOfText(b, code, []);
    assert LocationToHGVSString(a, code) + [] == LocationToHGVSString(a, code);
    assert LocationToHGVSString(b, code) + [] == LocationToHGVSString(b, code);
  }

  /** A range with equal endpoints prints exactly as its single location, with no `_`. */
  lemma DegenerateRangePrintsAsLocation(loc: ProteinPointLocation, code: AminoAcidCode)
    ensures ToHGVSString(ProteinRange(loc, loc), code) == LocationToHGVSString(loc, code)
    ensures '_' !in ToHGVSString(ProteinRange(loc, loc), code)
  {
    var res := ResidueText(loc.aa, code);
    assert '_' !in res by { match loc.aa { case _ => } }
    var ds := NatToString(loc.pos + 1);
    assert AllDigits(ds);
    assert '_' !in ds + res;
  }

  /** The two codes print the same number; only the residue spelling differs. */
  lemma CodesShareNumbering(loc: ProteinPointLocation)
    ensures LocationToHGVSString(loc, ONE_LETTER) == NatToString(loc.pos + 1) + [OneLetter(loc.aa)]
    ensures LocationToHGVSString(loc, THREE_LETTER) == NatToString(loc.pos + 1) + ThreeLetter(loc.aa)
    ensures var k := |NatToString(loc.pos + 1)|;
      LocationToHGVSString(loc, ONE_LETTER)[..k] == LocationToHGVSString(loc, THREE_LETTER)[..k]
    ensures |LocationToHGVSString(loc, THREE_LETTER)| == |LocationToHGVSString(loc, ONE_LETTER)| + 2
  {
    var n := NatToString(loc.pos + 1);
    assert (n + [OneLetter(loc.aa)])[..|n|] == n;
    assert (n + ThreeLetter(loc.aa))[..|n|] == n;
    assert |ThreeLetter(loc.aa)| == 3 by { match loc.aa { case _ => } }
  }

  lemma Numerals124And126()
    ensures NatToString(124) == "124" && NatToString(126) == "126"
  {
    assert NatToString(12) == "12" by { assert NatToString(1) == "1"; }
  }

  /** The test locations 123A and 125G print one-based, in both codes. */
  lemma ExampleLocationTexts()
    ensures LocationToHGVSString(ProteinPointLocation(123, Ala), ONE_LETTER) == "124A"
    ensures LocationToHGVSString(ProteinPointLocation(123, Ala), THREE_LETTER) == "124Ala"
    ensures LocationToHGVSString(ProteinPointLocation(125, Gly), ONE_LETTER) == "126G"
    ensures LocationToHGVSString(ProteinPointLocation(125, Gly), THREE_LETTER) == "126Gly"
  {
    Numerals124And126();
  }

  lemma ExampleRangeSpellings()
    ensures "124A" + "_" + "126G" == "124A_126G"
    ensures "124Ala" + "_" + "126Gly" == "124Ala_126Gly"
  {
  }

  /** The renderings of the tests: 123A..125G and 123A..123A, in both codes. */
  lemma ToHGVSStringExamples()
    ensures ProteinPointLocation(123, Ala) == ProteinPointLocation(123, Ala)
    ensures ProteinPointLocation(125, Gly) != ProteinPointLocation(123, Ala)
    ensures ToHGVSString(ProteinRange(ProteinPointLocation(123, Ala), ProteinPointLocation(125, Gly)), ONE_LETTER) == "124A_126G"
    ensures ToHGVSString(ProteinRange(ProteinPointLocation(123, Ala), ProteinPointLocation(125, Gly)), THREE_LETTER) == "124Ala_126Gly"
    ensures ToHGVSString(ProteinRange(ProteinPointLocation(123, Ala), ProteinPointLocation(123, Ala)), ONE_LETTER) == "124A"
    ensures ToHGVSString(ProteinRange(ProteinPointLocation(123, Ala), ProteinPointLocation(123, Ala)), THREE_LETTER) == "124Ala"
  {
    ExampleLocationTexts();
    ExampleRangeSpellings();
  }
}
