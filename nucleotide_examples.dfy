/**
 * The concrete descriptions of the indel, multi-allele and driver tests,
 * checked against the parser and the printer. A whole description is written
 * as its reference-and-coordinate prefix followed by its body.
 */
module NucleotideExamples {
  import opened Wrappers
  import opened Numerals
  import opened NucleotideVariant
  import opened NucleotideParser
  import opened NucleotideRoundTrip

  // The spellings of the numbers the tests use.

  lemma Numeral123()
    ensures NatToString(123) == "123"
  {
    assert NatToString(12) == "12";
  }

  lemma Numeral124()
    ensures NatToString(124) == "124"
  {
    assert NatToString(12) == "12";
  }

  lemma Numeral156()
    ensures NatToString(156) == "156"
  {
    assert NatToString(15) == "15";
  }

  lemma Numeral247()
    ensures NatToString(247) == "247"
  {
    assert NatToString(24) == "24";
  }

  lemma Numeral248()
    ensures NatToString(248) == "248"
  {
    assert NatToString(24) == "24";
  }

  function Pt(n: nat): NtPoint { NtPoint(NoUtr, n, NoOffset) }

  /** A canonical variant printed as `s` parses back to itself. */
  lemma ParsePrintIdentity(v: NtVariant, s: seq<char>)
    requires Canonical(v) && ToHGVSString(v) == s
    ensures ParseHGVSString(s) == Some(v)
  {
    CanonicalParseOfToHGVSString(v);
  }

  /** A canonical change printed as `s` is what the change grammar reads from `s`. */
  lemma ChangeStringIdentity(c: Change, s: seq<char>)
    requires CanonicalChange(c) && ChangeText(c) == s
    ensures ParseChangeString(s) == Some(c)
  {
    assert ChangeText(c) + [] == s;
    ParseChangeOfText(c, []);
  }

  /** An indel prints as its location, `del`, the deleted payload, `ins`, the inserted payload. */
  lemma IndelText(l: NtLocation, d: Payload, i: Payload, lt: string, dt: string, it: string)
    requires LocationText(l) == lt && PayloadText(d) == dt && PayloadText(i) == it
    ensures ChangeText(Indel(l, d, i)) == lt + "del" + dt + "ins" + it
  {
  }

  // ------------------------------------------------------------ indel tests

  const Loc123: NtLocation := Point(Pt(123))
  const Loc123To124: NtLocation := Range(Pt(123), Pt(124))

  lemma Loc123Text()
    ensures LocationText(Loc123) == "123"
  {
    Numeral123();
  }

  lemma Loc123To124Text()
    ensures LocationText(Loc123To124) == "123_124"
  {
    Numeral123();
    Numeral124();
  }

  lemma IndelPositionWithStringsText()
    ensures ChangeText(Indel(Loc123, Sequence("C"), Sequence("TCG"))) == "123delCinsTCG"
  {
    assert "123delCinsTCG" == "123" + "del" + "C" + "ins" + "TCG";
    Loc123Text();
    IndelText(Loc123, Sequence("C"), Sequence("TCG"), "123", "C", "TCG");
  }

  /** `123delCinsTCG`: deleted and inserted sequences at a point. */
  lemma IndelPositionWithStrings()
    ensures ParseChangeString("123delCinsTCG") == Some(Indel(Loc123, Sequence("C"), Sequence("TCG")))
  {
    IndelPositionWithStringsText();
    ChangeStringIdentity(Indel(Loc123, Sequence("C"), Sequence("TCG")), "123delCinsTCG");
  }

  lemma IndelPositionWithLengthsText()
    ensures ChangeText(Indel(Loc123, Length(1), Length(23))) == "123del1ins23"
  {
    assert "123del1ins23" == "123" + "del" + "1" + "ins" + "23";
    Loc123Text();
    assert NatToString(23) == "23";
    IndelText(Loc123, Length(1), Length(23), "123", "1", "23");
  }

  /** `123del1ins23`: deleted and inserted lengths at a point, read as numbers. */
  lemma IndelPositionWithLengths()
    ensures ParseChangeString("123del1ins23") == Some(Indel(Loc123, Length(1), Length(23)))
  {
    IndelPositionWithLengthsText();
    ChangeStringIdentity(Indel(Loc123, Length(1), Length(23)), "123del1ins23");
  }

  lemma IndelPositionWithoutStringsText()
    ensures ChangeText(Indel(Loc123, NoPayload, NoPayload)) == "123delins"
  {
    assert "123delins" == "123" + "del" + "" + "ins" + "";
    Loc123Text();
    IndelText(Loc123, NoPayload, NoPayload, "123", "", "");
  }

  /** `123delins`: neither sequence nor length, at a point. */
  lemma IndelPositionWithoutStrings()
    ensures ParseChangeString("123delins") == Some(Indel(Loc123, NoPayload, NoPayload))
  {
    IndelPositionWithoutStringsText();
    ChangeStringIdentity(Indel(Loc123, NoPayload, NoPayload), "123delins");
  }

  lemma IndelRangeWithStringsText()
    ensures ChangeText(Indel(Loc123To124, Sequence("AT"), Sequence("GGTAT"))) == "123_124delATinsGGTAT"
  {
    assert "123_124delATinsGGTAT" == "123_124" + "del" + "AT" + "ins" + "GGTAT";
    Loc123To124Text();
    IndelText(Loc123To124, Sequence("AT"), Sequence("GGTAT"), "123_124", "AT", "GGTAT");
  }

  /** `123_124delATinsGGTAT`: deleted and inserted sequences on a range. */
  lemma IndelRangeWithStrings()
    ensures ParseChangeString("123_124delATinsGGTAT") == Some(Indel(Loc123To124, Sequence("AT"), Sequence("GGTAT")))
  {
    IndelRangeWithStringsText();
    ChangeStringIdentity(Indel(Loc123To124, Sequence("AT"), Sequence("GGTAT")), "123_124delATinsGGTAT");
  }

  lemma IndelRangeWithLengthsText()
    ensures ChangeText(Indel(Loc123To124, Length(2), Length(4))) == "123_124del2ins4"
  {
    assert "123_124del2ins4" == "123_124" + "del" + "2" + "ins" + "4";
    Loc123To124Text();
    IndelText(Loc123To124, Length(2), Length(4), "123_124", "2", "4");
  }

  /** `123_124del2ins4`: deleted and inserted lengths on a range. */
  lemma IndelRangeWithLengths()
    ensures ParseChangeString("123_124del2ins4") == Some(Indel(Loc123To124, Length(2), Length(4)))
  {
    IndelRangeWithLengthsText();
    ChangeStringIdentity(Indel(Loc123To124, Length(2), Length(4)), "123_124del2ins4");
  }

  lemma IndelRangeWithoutStringsText()
    ensures ChangeText(Indel(Loc123To124, NoPayload, NoPayload)) == "123_124delins"
  {
    assert "123_124delins" == "123_124" + "del" + "" + "ins" + "";
    Loc123To124Text();
    IndelText(Loc123To124, NoPayload, NoPayload, "123_124", "", "");
  }

  /** `123_124delins`: neither sequence nor length, on a range. */
  lemma IndelRangeWithoutStrings()
    ensures ParseChangeString("123_124delins") == Some(Indel(Loc123To124, NoPayload, NoPayload))
  {
    IndelRangeWithoutStringsText();
    ChangeStringIdentity(Indel(Loc123To124, NoPayload, NoPayload), "123_124delins");
  }

  // ----------------------------------------------------- multi-allele tests

  const NM_000109: ReferenceId := "NM_000109.3"

  const Sub123AC: Change := Substitution(Pt(123), 'A', 'C')
  const Sub156CT: Change := Substitution(Pt(156), 'C', 'T')

  lemma Sub123ACText()
    ensures ChangeText(Sub123AC) == "123A>C"
  {
    Numeral123();
  }

  lemma Sub156CTText()
    ensures ChangeText(Sub156CT) == "156C>T"
  {
    Numeral156();
  }

  lemma NM_000109Prefix()
    ensures NM_000109 + ":" + CoordText(Coding) == "NM_000109.3:c."
  {
  }

  /** Two copies of an allele printed as `at` on NM_000109.3 in coding coordinates print as `at;at`. */
  lemma TwoAllelesText(a: Allele, at: string)
    requires AlleleText(a) == at
    ensures ToHGVSString(MultiAllele(NM_000109, Coding, [a, a])) == "NM_000109.3:c." + (at + ";" + at)
  {
    var als: seq<Allele> := [a, a];
    assert als[1..][0] == a && als[1..][1..] == [];
    assert MoreAllelesText(als[1..]) == ";" + at;
    ConcatAssoc(at, ";", at);
    NM_000109Prefix();
  }

  lemma OneChangeAlleleText()
    ensures AlleleText([Sub123AC]) == "[123A>C]"
  {
    Sub123ACText();
    assert "[123A>C]" == "[" + "123A>C" + "]";
  }

  /** Two identical alleles of one substitution each: both are kept, in order. */
  lemma OneChangePerAllele()
    ensures ParseHGVSString("NM_000109.3:c." + ("[123A>C]" + ";" + "[123A>C]"))
      == Some(MultiAllele(NM_000109, Coding, [[Sub123AC], [Sub123AC]]))
  {
    OneChangeAlleleText();
    TwoAllelesText([Sub123AC], "[123A>C]");
    ParsePrintIdentity(MultiAllele(NM_000109, Coding, [[Sub123AC], [Sub123AC]]), "NM_000109.3:c." + ("[123A>C]" + ";" + "[123A>C]"));
  }

  lemma TwoChangesSpelling()
    ensures "[" + ("123A>C" + "," + "156C>T") + "]" == "[123A>C,156C>T]"
  {
  }

  lemma TwoChangesAlleleText()
    ensures AlleleText([Sub123AC, Sub156CT]) == "[123A>C,156C>T]"
  {
    var a: Allele := [Sub123AC, Sub156CT];
    var mid := "123A>C" + "," + "156C>T";
    assert ChangesText(a) == mid by {
      assert a[1..] == [Sub156CT];
      Sub123ACText();
      Sub156CTText();
      assert ChangesText(a[1..]) == "156C>T";
    }
    assert AlleleText(a) == "[" + mid + "]";
    TwoChangesSpelling();
  }

  /** Two identical alleles of two substitutions each, the changes kept in the order written. */
  lemma TwoChangesPerAllele()
    ensures ParseHGVSString("NM_000109.3:c." + ("[123A>C,156C>T]" + ";" + "[123A>C,156C>T]"))
      == Some(MultiAllele(NM_000109, Coding, [[Sub123AC, Sub156CT], [Sub123AC, Sub156CT]]))
  {
    TwoChangesAlleleText();
    TwoAllelesText([Sub123AC, Sub156CT], "[123A>C,156C>T]");
    ParsePrintIdentity(MultiAllele(NM_000109, Coding, [[Sub123AC, Sub156CT], [Sub123AC, Sub156CT]]),
      "NM_000109.3:c." + ("[123A>C,156C>T]" + ";" + "[123A>C,156C>T]"));
  }

  // ----------------------------------------------------------- driver tests

  const NM_000138: ReferenceId := "NM_000138.4"

  lemma NM_000138Prefix()
    ensures NM_000138 + ":" + CoordText(Coding) == "NM_000138.4:c."
  {
  }

  /** A single change on NM_000138.4 in coding coordinates prints as the prefix and the change. */
  lemma DriverText(c: Change, body: string)
    requires ChangeText(c) == body
    ensures ToHGVSString(SingleAllele(NM_000138, Coding, [c])) == "NM_000138.4:c." + body
  {
    NM_000138Prefix();
  }

  // The five locations of the driver tests.
  const Loc1: NtLocation := Range(Pt(247), Pt(248))
  const Loc2: NtLocation := Range(NtPoint(NoUtr, 247, Plus(1)), NtPoint(NoUtr, 247, Plus(3)))
  const Loc3: NtLocation := Range(NtPoint(NoUtr, 247, Minus(3)), NtPoint(NoUtr, 247, Minus(1)))
  const Loc4: NtLocation := Range(NtPoint(Downstream, 247, NoOffset), NtPoint(Downstream, 247, Plus(3)))
  const Loc5: NtLocation := Range(NtPoint(Upstream, 247, NoOffset), NtPoint(Upstream, 247, Minus(3)))

  lemma Loc1Text()
    ensures LocationText(Loc1) == "247_248"
  {
    Numeral247();
    Numeral248();
    assert PointText(Pt(247)) == "247";
    assert PointText(Pt(248)) == "248";
  }

  lemma Loc2Text()
    ensures LocationText(Loc2) == "247+1_247+3"
  {
    Numeral247();
    assert PointText(NtPoint(NoUtr, 247, Plus(1))) == "247+1";
    assert PointText(NtPoint(NoUtr, 247, Plus(3))) == "247+3";
  }

  lemma Loc3Text()
    ensures LocationText(Loc3) == "247-3_247-1"
  {
    Numeral247();
    assert PointText(NtPoint(NoUtr, 247, Minus(3))) == "247-3";
    assert PointText(NtPoint(NoUtr, 247, Minus(1))) == "247-1";
  }

  lemma Loc4Text()
    ensures LocationText(Loc4) == "*247_*247+3"
  {
    Numeral247();
    assert PointText(NtPoint(Downstream, 247, NoOffset)) == "*247";
    assert PointText(NtPoint(Downstream, 247, Plus(3))) == "*247+3";
  }

  lemma Loc5Text()
    ensures LocationText(Loc5) == "-247_-247-3"
  {
    Numeral247();
    assert PointText(NtPoint(Upstream, 247, NoOffset)) == "-247";
    assert PointText(NtPoint(Upstream, 247, Minus(3))) == "-247-3";
  }

  lemma DriverWithoutSequence1Text()
    ensures ChangeText(Indel(Loc1, NoPayload, NoPayload)) == "247_248delins"
  {
    assert "247_248delins" == "247_248" + "del" + "" + "ins" + "";
    Loc1Text();
    IndelText(Loc1, NoPayload, NoPayload, "247_248", "", "");
  }

  /** `NM_000138.4:c.247_248delins` is a single-allele variant and prints back unchanged. */
  lemma DriverWithoutSequence1()
    ensures var v := SingleAllele(NM_000138, Coding, [Indel(Loc1, NoPayload, NoPayload)]);
      ParseHGVSString("NM_000138.4:c." + "247_248delins") == Some(v) && ToHGVSString(v) == "NM_000138.4:c." + "247_248delins"
  {
    DriverWithoutSequence1Text();
    DriverText(Indel(Loc1, NoPayload, NoPayload), "247_248delins");
    ParsePrintIdentity(SingleAllele(NM_000138, Coding, [Indel(Loc1, NoPayload, NoPayload)]), "NM_000138.4:c." + "247_248delins");
  }

  lemma DriverWithoutSequence2Text()
    ensures ChangeText(Indel(Loc2, NoPayload, NoPayload)) == "247+1_247+3delins"
  {
    assert "247+1_247+3delins" == "247+1_247+3" + "del" + "" + "ins" + "";
    Loc2Text();
    IndelText(Loc2, NoPayload, NoPayload, "247+1_247+3", "", "");
  }

  /** `NM_000138.4:c.247+1_247+3delins` is a single-allele variant and prints back unchanged. */
  lemma DriverWithoutSequence2()
    ensures var v := SingleAllele(NM_000138, Coding, [Indel(Loc2, NoPayload, NoPayload)]);
      ParseHGVSString("NM_000138.4:c." + "247+1_247+3delins") == Some(v) && ToHGVSString(v) == "NM_000138.4:c." + "247+1_247+3delins"
  {
    DriverWithoutSequence2Text();
    DriverText(Indel(Loc2, NoPayload, NoPayload), "247+1_247+3delins");
    ParsePrintIdentity(SingleAllele(NM_000138, Coding, [Indel(Loc2, NoPayload, NoPayload)]), "NM_000138.4:c." + "247+1_247+3delins");
  }

  lemma DriverWithoutSequence3Text()
    ensures ChangeText(Indel(Loc3, NoPayload, NoPayload)) == "247-3_247-1delins"
  {
    assert "247-3_247-1delins" == "247-3_247-1" + "del" + "" + "ins" + "";
    Loc3Text();
    IndelText(Loc3, NoPayload, NoPayload, "247-3_247-1", "", "");
  }

  /** `NM_000138.4:c.247-3_247-1delins` is a single-allele variant and prints back unchanged. */
  lemma DriverWithoutSequence3()
    ensures var v := SingleAllele(NM_000138, Coding, [Indel(Loc3, NoPayload, NoPayload)]);
      ParseHGVSString("NM_000138.4:c." + "247-3_247-1delins") == Some(v) && ToHGVSString(v) == "NM_000138.4:c." + "247-3_247-1delins"
  {
    DriverWithoutSequence3Text();
    DriverText(Indel(Loc3, NoPayload, NoPayload), "247-3_247-1delins");
    ParsePrintIdentity(SingleAllele(NM_000138, Coding, [Indel(Loc3, NoPayload, NoPayload)]), "NM_000138.4:c." + "247-3_247-1delins");
  }

  lemma DriverWithoutSequence4Text()
    ensures ChangeText(Indel(Loc4, NoPayload, NoPayload)) == "*247_*247+3delins"
  {
    assert "*247_*247+3delins" == "*247_*247+3" + "del" + "" + "ins" + "";
    Loc4Text();
    IndelText(Loc4, NoPayload, NoPayload, "*247_*247+3", "", "");
  }

  /** `NM_000138.4:c.*247_*247+3delins` is a single-allele variant and prints back unchanged. */
  lemma DriverWithoutSequence4()
    ensures var v := SingleAllele(NM_000138, Coding, [Indel(Loc4, NoPayload, NoPayload)]);
      ParseHGVSString("NM_000138.4:c." + "*247_*247+3delins") == Some(v) && ToHGVSString(v) == "NM_000138.4:c." + "*247_*247+3delins"
  {
    DriverWithoutSequence4Text();
    DriverText(Indel(Loc4, NoPayload, NoPayload), "*247_*247+3delins");
    ParsePrintIdentity(SingleAllele(NM_000138, Coding, [Indel(Loc4, NoPayload, NoPayload)]), "NM_000138.4:c." + "*247_*247+3delins");
  }

  lemma DriverWithoutSequence5Text()
    ensures ChangeText(Indel(Loc5, NoPayload, NoPayload)) == "-247_-247-3delins"
  {
    assert "-247_-247-3delins" == "-247_-247-3" + "del" + "" + "ins" + "";
    Loc5Text();
    IndelText(Loc5, NoPayload, NoPayload, "-247_-247-3", "", "");
  }

  /** `NM_000138.4:c.-247_-247-3delins` is a single-allele variant and prints back unchanged. */
  lemma DriverWithoutSequence5()
    ensures var v := SingleAllele(NM_000138, Coding, [Indel(Loc5, NoPayload, NoPayload)]);
      ParseHGVSString("NM_000138.4:c." + "-247_-247-3delins") == Some(v) && ToHGVSString(v) == "NM_000138.4:c." + "-247_-247-3delins"
  {
    DriverWithoutSequence5Text();
    DriverText(Indel(Loc5, NoPayload, NoPayload), "-247_-247-3delins");
    ParsePrintIdentity(SingleAllele(NM_000138, Coding, [Indel(Loc5, NoPayload, NoPayload)]), "NM_000138.4:c." + "-247_-247-3delins");
  }

  lemma DriverWithSequence1Text()
    ensures ChangeText(Indel(Loc1, Sequence("AT"), Sequence("CAT"))) == "247_248delATinsCAT"
  {
    assert "247_248delATinsCAT" == "247_248" + "del" + "AT" + "ins" + "CAT";
    Loc1Text();
    IndelText(Loc1, Sequence("AT"), Sequence("CAT"), "247_248", "AT", "CAT");
  }

  /** `NM_000138.4:c.247_248delATinsCAT` is a single-allele variant and prints back unchanged. */
  lemma DriverWithSequence1()
    ensures var v := SingleAllele(NM_000138, Coding, [Indel(Loc1, Sequence("AT"), Sequence("CAT"))]);
      ParseHGVSString("NM_000138.4:c." + "247_248delATinsCAT") == Some(v) && ToHGVSString(v) == "NM_000138.4:c." + "247_248delATinsCAT"
  {
    DriverWithSequence1Text();
    DriverText(Indel(Loc1, Sequence("AT"), Sequence("CAT")), "247_248delATinsCAT");
    ParsePrintIdentity(SingleAllele(NM_000138, Coding, [Indel(Loc1, Sequence("AT"), Sequence("CAT"))]), "NM_000138.4:c." + "247_248delATinsCAT");
  }

  lemma DriverWithSequence2Text()
    ensures ChangeText(Indel(Loc2, Sequence("ATA"), Sequence("CAT"))) == "247+1_247+3delATAinsCAT"
  {
    assert "247+1_247+3delATAinsCAT" == "247+1_247+3" + "del" + "ATA" + "ins" + "CAT";
    Loc2Text();
    IndelText(Loc2, Sequence("ATA"), Sequence("CAT"), "247+1_247+3", "ATA", "CAT");
  }

  /** `NM_000138.4:c.247+1_247+3delATAinsCAT` is a single-allele variant and prints back unchanged. */
  lemma DriverWithSequence2()
    ensures var v := SingleAllele(NM_000138, Coding, [Indel(Loc2, Sequence("ATA"), Sequence("CAT"))]);
      ParseHGVSString("NM_000138.4:c." + "247+1_247+3delATAinsCAT") == Some(v) && ToHGVSString(v) == "NM_000138.4:c." + "247+1_247+3delATAinsCAT"
  {
    DriverWithSequence2Text();
    DriverText(Indel(Loc2, Sequence("ATA"), Sequence("CAT")), "247+1_247+3delATAinsCAT");
    ParsePrintIdentity(SingleAllele(NM_000138, Coding, [Indel(Loc2, Sequence("ATA"), Sequence("CAT"))]), "NM_000138.4:c." + "247+1_247+3delATAinsCAT");
  }

  lemma DriverWithSequence3Text()
    ensures ChangeText(Indel(Loc3, Sequence("ATA"), Sequence("CAT"))) == "247-3_247-1delATAinsCAT"
  {
    assert "247-3_247-1delATAinsCAT" == "247-3_247-1" + "del" + "ATA" + "ins" + "CAT";
    Loc3Text();
    IndelText(Loc3, Sequence("ATA"), Sequence("CAT"), "247-3_247-1", "ATA", "CAT");
  }

  /** `NM_000138.4:c.247-3_247-1delATAinsCAT` is a single-allele variant and prints back unchanged. */
  lemma DriverWithSequence3()
    ensures var v := SingleAllele(NM_000138, Coding, [Indel(Loc3, Sequence("ATA"), Sequence("CAT"))]);
      ParseHGVSString("NM_000138.4:c." + "247-3_247-1delATAinsCAT") == Some(v) && ToHGVSString(v) == "NM_000138.4:c." + "247-3_247-1delATAinsCAT"
  {
    DriverWithSequence3Text();
    DriverText(Indel(Loc3, Sequence("ATA"), Sequence("CAT")), "247-3_247-1delATAinsCAT");
    ParsePrintIdentity(SingleAllele(NM_000138, Coding, [Indel(Loc3, Sequence("ATA"), Sequence("CAT"))]), "NM_000138.4:c." + "247-3_247-1delATAinsCAT");
  }

  lemma DriverWithSequence4Text()
    ensures ChangeText(Indel(Loc4, Sequence("ATAT"), Sequence("CAT"))) == "*247_*247+3delATATinsCAT"
  {
    assert "*247_*247+3delATATinsCAT" == "*247_*247+3" + "del" + "ATAT" + "ins" + "CAT";
    Loc4Text();
    IndelText(Loc4, Sequence("ATAT"), Sequence("CAT"), "*247_*247+3", "ATAT", "CAT");
  }

  /** `NM_000138.4:c.*247_*247+3delATATinsCAT` is a single-allele variant and prints back unchanged. */
  lemma DriverWithSequence4()
    ensures var v := SingleAllele(NM_000138, Coding, [Indel(Loc4, Sequence("ATAT"), Sequence("CAT"))]);
      ParseHGVSString("NM_000138.4:c." + "*247_*247+3delATATinsCAT") == Some(v) && ToHGVSString(v) == "NM_000138.4:c." + "*247_*247+3delATATinsCAT"
  {
    DriverWithSequence4Text();
    DriverText(Indel(Loc4, Sequence("ATAT"), Sequence("CAT")), "*247_*247+3delATATinsCAT");
    ParsePrintIdentity(SingleAllele(NM_000138, Coding, [Indel(Loc4, Sequence("ATAT"), Sequence("CAT"))]), "NM_000138.4:c." + "*247_*247+3delATATinsCAT");
  }

  lemma DriverWithSequence5Text()
    ensures ChangeText(Indel(Loc5, Sequence("ATAT"), Sequence("CAT"))) == "-247_-247-3delATATinsCAT"
  {
    assert "-247_-247-3delATATinsCAT" == "-247_-247-3" + "del" + "ATAT" + "ins" + "CAT";
    Loc5Text();
    IndelText(Loc5, Sequence("ATAT"), Sequence("CAT"), "-247_-247-3", "ATAT", "CAT");
  }

  /** `NM_000138.4:c.-247_-247-3delATATinsCAT` is a single-allele variant and prints back unchanged. */
  lemma DriverWithSequence5()
    ensures var v := SingleAllele(NM_000138, Coding, [Indel(Loc5, Sequence("ATAT"), Sequence("CAT"))]);
      ParseHGVSString("NM_000138.4:c." + "-247_-247-3delATATinsCAT") == Some(v) && ToHGVSString(v) == "NM_000138.4:c." + "-247_-247-3delATATinsCAT"
  {
    DriverWithSequence5Text();
    DriverText(Indel(Loc5, Sequence("ATAT"), Sequence("CAT")), "-247_-247-3delATATinsCAT");
    ParsePrintIdentity(SingleAllele(NM_000138, Coding, [Indel(Loc5, Sequence("ATAT"), Sequence("CAT"))]), "NM_000138.4:c." + "-247_-247-3delATATinsCAT");
  }

  lemma DriverWithSequenceLength1Text()
    ensures ChangeText(Indel(Loc1, Length(2), Length(3))) == "247_248del2ins3"
  {
    assert "247_248del2ins3" == "247_248" + "del" + "2" + "ins" + "3";
    Loc1Text();
    IndelText(Loc1, Length(2), Length(3), "247_248", "2", "3");
  }

  /** `NM_000138.4:c.247_248del2ins3` is a single-allele variant and prints back unchanged. */
  lemma DriverWithSequenceLength1()
    ensures var v := SingleAllele(NM_000138, Coding, [Indel(Loc1, Length(2), Length(3))]);
      ParseHGVSString("NM_000138.4:c." + "247_248del2ins3") == Some(v) && ToHGVSString(v) == "NM_000138.4:c." + "247_248del2ins3"
  {
    DriverWithSequenceLength1Text();
    DriverText(Indel(Loc1, Length(2), Length(3)), "247_248del2ins3");
    ParsePrintIdentity(SingleAllele(NM_000138, Coding, [Indel(Loc1, Length(2), Length(3))]), "NM_000138.4:c." + "247_248del2ins3");
  }

  lemma DriverWithSequenceLength2Text()
    ensures ChangeText(Indel(Loc2, Length(3), Length(3))) == "247+1_247+3del3ins3"
  {
    assert "247+1_247+3del3ins3" == "247+1_247+3" + "del" + "3" + "ins" + "3";
    Loc2Text();
    IndelText(Loc2, Length(3), Length(3), "247+1_247+3", "3", "3");
  }

  /** `NM_000138.4:c.247+1_247+3del3ins3` is a single-allele variant and prints back unchanged. */
  lemma DriverWithSequenceLength2()
    ensures var v := SingleAllele(NM_000138, Coding, [Indel(Loc2, Length(3), Length(3))]);
      ParseHGVSString("NM_000138.4:c." + "247+1_247+3del3ins3") == Some(v) && ToHGVSString(v) == "NM_000138.4:c." + "247+1_247+3del3ins3"
  {
    DriverWithSequenceLength2Text();
    DriverText(Indel(Loc2, Length(3), Length(3)), "247+1_247+3del3ins3");
    ParsePrintIdentity(SingleAllele(NM_000138, Coding, [Indel(Loc2, Length(3), Length(3))]), "NM_000138.4:c." + "247+1_247+3del3ins3");
  }

  lemma DriverWithSequenceLength3Text()
    ensures ChangeText(Indel(Loc3, Length(3), Length(3))) == "247-3_247-1del3ins3"
  {
    assert "247-3_247-1del3ins3" == "247-3_247-1" + "del" + "3" + "ins" + "3";
    Loc3Text();
    IndelText(Loc3, Length(3), Length(3), "247-3_247-1", "3", "3");
  }

  /** `NM_000138.4:c.247-3_247-1del3ins3` is a single-allele variant and prints back unchanged. */
  lemma DriverWithSequenceLength3()
    ensures var v := SingleAllele(NM_000138, Coding, [Indel(Loc3, Length(3), Length(3))]);
      ParseHGVSString("NM_000138.4:c." + "247-3_247-1del3ins3") == Some(v) && ToHGVSString(v) == "NM_000138.4:c." + "247-3_247-1del3ins3"
  {
    DriverWithSequenceLength3Text();
    DriverText(Indel(Loc3, Length(3), Length(3)), "247-3_247-1del3ins3");
    ParsePrintIdentity(SingleAllele(NM_000138, Coding, [Indel(Loc3, Length(3), Length(3))]), "NM_000138.4:c." + "247-3_247-1del3ins3");
  }

  lemma DriverWithSequenceLength4Text()
    ensures ChangeText(Indel(Loc4, Length(4), Length(3))) == "*247_*247+3del4ins3"
  {
    assert "*247_*247+3del4ins3" == "*247_*247+3" + "del" + "4" + "ins" + "3";
    Loc4Text();
    IndelText(Loc4, Length(4), Length(3), "*247_*247+3", "4", "3");
  }

  /** `NM_000138.4:c.*247_*247+3del4ins3` is a single-allele variant and prints back unchanged. */
  lemma DriverWithSequenceLength4()
    ensures var v := SingleAllele(NM_000138, Coding, [Indel(Loc4, Length(4), Length(3))]);
      ParseHGVSString("NM_000138.4:c." + "*247_*247+3del4ins3") == Some(v) && ToHGVSString(v) == "NM_000138.4:c." + "*247_*247+3del4ins3"
  {
    DriverWithSequenceLength4Text();
    DriverText(Indel(Loc4, Length(4), Length(3)), "*247_*247+3del4ins3");
    ParsePrintIdentity(SingleAllele(NM_000138, Coding, [Indel(Loc4, Length(4), Length(3))]), "NM_000138.4:c." + "*247_*247+3del4ins3");
  }

  lemma DriverWithSequenceLength5Text()
    ensures ChangeText(Indel(Loc5, Length(4), Length(3))) == "-247_-247-3del4ins3"
  {
    assert "-247_-247-3del4ins3" == "-247_-247-3" + "del" + "4" + "ins" + "3";
    Loc5Text();
    IndelText(Loc5, Length(4), Length(3), "-247_-247-3", "4", "3");
  }

  /** `NM_000138.4:c.-247_-247-3del4ins3` is a single-allele variant and prints back unchanged. */
  lemma DriverWithSequenceLength5()
    ensures var v := SingleAllele(NM_000138, Coding, [Indel(Loc5, Length(4), Length(3))]);
      ParseHGVSString("NM_000138.4:c." + "-247_-247-3del4ins3") == Some(v) && ToHGVSString(v) == "NM_000138.4:c." + "-247_-247-3del4ins3"
  {
    DriverWithSequenceLength5Text();
    DriverText(Indel(Loc5, Length(4), Length(3)), "-247_-247-3del4ins3");
    ParsePrintIdentity(SingleAllele(NM_000138, Coding, [Indel(Loc5, Length(4), Length(3))]), "NM_000138.4:c." + "-247_-247-3del4ins3");
  }
}
