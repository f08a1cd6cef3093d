/**
 * Further properties of nucleotide variant descriptions: the canonical form,
 * printing the parse of a printed variant, injectivity of the printer on
 * canonical variants, when a location is a range, and when a description is a
 * single change.
 */
module NucleotideProperties {
  import opened Wrappers
  import opened Numerals
  import opened NucleotideVariant
  import opened NucleotideParser
  import opened NucleotideRoundTrip

  // ---------------------------------------------------------- canonical form

  /** Normalizing any variant yields a canonical one. */
  lemma NormalizeIsCanonical(v: NtVariant)
    ensures Canonical(Normalize(v))
  {
    match v
    case SingleAllele(_, _, a) =>
      assert forall i :: 0 <= i < |a| ==> CanonicalChange(NormalizeChanges(a)[i]);
    case MultiAllele(_, _, als) =>
      forall i | 0 <= i < |als| ensures CanonicalChanges(NormalizeAlleles(als)[i]) {
        assert forall j :: 0 <= j < |als[i]| ==> CanonicalChange(NormalizeChanges(als[i])[j]);
      }
  }

  /** Normalizing twice is normalizing once. */
  lemma NormalizeIdempotent(v: NtVariant)
    ensures Normalize(Normalize(v)) == Normalize(v)
  {
    NormalizeIsCanonical(v);
    NormalizeCanonical(Normalize(v));
  }

  // -------------------------------------------- printing ignores normal form

  lemma ChangeTextOfNormalize(c: Change)
    ensures ChangeText(NormalizeChange(c)) == ChangeText(c)
  {
    if !c.Substitution? {
      assert LocationText(NormalizeLocation(c.loc)) == LocationText(c.loc);
    }
  }

  lemma {:induction false} ChangesTextOfNormalize(cs: seq<Change>)
    requires |cs| > 0
    ensures ChangesText(NormalizeChanges(cs)) == ChangesText(cs)
    decreases |cs|
  {
    var n := NormalizeChanges(cs);
    ChangeTextOfNormalize(cs[0]);
    if |cs| > 1 {
      assert n[1..] == NormalizeChanges(cs[1..]);
      ChangesTextOfNormalize(cs[1..]);
    }
  }

  lemma {:induction false} MoreAllelesTextOfNormalize(als: seq<Allele>)
    ensures MoreAllelesText(NormalizeAlleles(als)) == MoreAllelesText(als)
    decreases |als|
  {
    if als != [] {
      var n := NormalizeAlleles(als);
      assert n[1..] == NormalizeAlleles(als[1..]);
      ChangesTextOfNormalize(als[0]);
      MoreAllelesTextOfNormalize(als[1..]);
    }
  }

  /** A variant and its canonical form print the same. */
  lemma ToHGVSStringOfNormalize(v: NtVariant)
    ensures ToHGVSString(Normalize(v)) == ToHGVSString(v)
  {
    match v
    case SingleAllele(_, _, a) =>
      if |a| == 1 {
        ChangeTextOfNormalize(a[0]);
      } else {
        ChangesTextOfNormalize(a);
      }
    case MultiAllele(_, _, als) =>
      var n := NormalizeAlleles(als);
      assert n[1..] == NormalizeAlleles(als[1..]);
      ChangesTextOfNormalize(als[0]);
      MoreAllelesTextOfNormalize(als[1..]);
  }

  /** Every printed variant parses, and printing what was parsed gives the same text back. */
  lemma PrintOfParseOfPrint(v: NtVariant)
    ensures ParseHGVSString(ToHGVSString(v)).Some?
    ensures ToHGVSString(ParseHGVSString(ToHGVSString(v)).value) == ToHGVSString(v)
  {
    ParseOfToHGVSString(v);
    ToHGVSStringOfNormalize(v);
  }

  /** Two canonical variants with the same text are the same variant. */
  lemma ToHGVSStringInjective(v: NtVariant, w: NtVariant)
    requires Canonical(v) && Canonical(w)
    requires ToHGVSString(v) == ToHGVSString(w)
    ensures v == w
  {
    CanonicalParseOfToHGVSString(v);
    CanonicalParseOfToHGVSString(w);
  }

  /** A printed variant is its reference, a colon, the two-character coordinate marker, then the body. */
  lemma ToHGVSStringLayout(v: NtVariant)
    ensures var r := ToHGVSString(v);
      |r| > |v.ref| + 2 && r[..|v.ref|] == v.ref && r[|v.ref|] == ':' &&
      r[|v.ref| + 1..|v.ref| + 3] == CoordText(v.coord)
  {
    ConcatAssoc(v.ref + ":", CoordText(v.coord), BodyText(v));
    ConcatAssoc(v.ref, ":", CoordText(v.coord) + BodyText(v));
    ChangeTextStart(if v.SingleAllele? then v.allele[0] else v.alleles[0][0]);
  }

  // ------------------------------------------------- ranges and underscores

  /** `rest` is what is left of `s` after reading a prefix that does not contain `ch`. */
  predicate ReadsWithout(s: seq<char>, rest: seq<char>, ch: char) {
    |rest| <= |s| && rest == s[|s| - |rest|..] && ch !in s[..|s| - |rest|]
  }

  lemma ReadsWithoutChain(s: seq<char>, t: seq<char>, u: seq<char>, ch: char)
    requires ReadsWithout(s, t, ch) && ReadsWithout(t, u, ch)
    ensures ReadsWithout(s, u, ch)
  {
    var i, j := |s| - |t|, |t| - |u|;
    assert s[..i + j] == s[..i] + t[..j];
  }

  lemma ReadsWithoutDigits(s: seq<char>, rest: seq<char>)
    requires |rest| <= |s| && rest == s[|s| - |rest|..] && AllDigits(s[..|s| - |rest|])
    ensures ReadsWithout(s, rest, '_')
  {
  }

  lemma ReadsWithoutSign(s: seq<char>)
    requires |s| > 0 && s[0] != '_'
    ensures ReadsWithout(s, s[1..], '_')
  {
    assert s[..1] == [s[0]];
  }

  lemma ParseNatReadsWithout(s: seq<char>)
    requires ParseNat(s).Some?
    ensures ReadsWithout(s, ParseNat(s).value.1, '_')
  {
    ReadsWithoutDigits(s, ParseNat(s).value.1);
  }

  lemma ParseIntronOffsetReadsWithout(s: seq<char>)
    ensures ReadsWithout(s, ParseIntronOffset(s).1, '_')
  {
    if |s| > 0 && (s[0] == '+' || s[0] == '-') && ParseNat(s[1..]).Some? {
      ReadsWithoutSign(s);
      ParseNatReadsWithout(s[1..]);
      ReadsWithoutChain(s, s[1..], ParseNat(s[1..]).value.1, '_');
    } else {
      assert s[..0] == [];
    }
  }

  lemma ParseUtrPrefixReadsWithout(s: seq<char>)
    ensures ReadsWithout(s, ParseUtrPrefix(s).1, '_')
  {
    if |s| > 0 && (s[0] == '-' || s[0] == '*') {
      ReadsWithoutSign(s);
    } else {
      assert s[..0] == [];
    }
  }

  /** A point location is read without passing a `_`. */
  lemma ParsePointReadsWithout(s: seq<char>)
    requires ParsePoint(s).Some?
    ensures ReadsWithout(s, ParsePoint(s).value.1, '_')
  {
    var s1 := ParseUtrPrefix(s).1;
    var s2 := ParseNat(s1).value.1;
    var s3 := ParseIntronOffset(s2).1;
    assert ParsePoint(s).value.1 == s3;
    ParseUtrPrefixReadsWithout(s);
    ParseNatReadsWithout(s1);
    ParseIntronOffsetReadsWithout(s2);
    ReadsWithoutChain(s, s1, s2, '_');
    ReadsWithoutChain(s, s2, s3, '_');
  }

  predicate IsSuffix(s: seq<char>, t: seq<char>) {
    |t| <= |s| && t == s[|s| - |t|..]
  }

  lemma IsSuffixChain(s: seq<char>, t: seq<char>, u: seq<char>)
    requires IsSuffix(s, t) && IsSuffix(t, u)
    ensures IsSuffix(s, u)
  {
  }

  lemma ParseLocationStep(s: seq<char>)
    requires ParseLocation(s).Some?
    ensures ParsePoint(s).Some?
    ensures var s1 := ParsePoint(s).value.1;
      if |s1| > 0 && s1[0] == '_' then
        ParsePoint(s1[1..]).Some? && ParseLocation(s).value == (Range(ParsePoint(s).value.0, ParsePoint(s1[1..]).value.0), ParsePoint(s1[1..]).value.1)
      else ParseLocation(s).value == (Point(ParsePoint(s).value.0), s1)
  {
  }

  /** A location is read as a range exactly when the text it was read from contains `_`. */
  lemma ParseLocationRangeIffUnderscore(s: seq<char>)
    requires ParseLocation(s).Some?
    ensures IsSuffix(s, ParseLocation(s).value.1)
    ensures ParseLocation(s).value.0.Range? <==> '_' in s[..|s| - |ParseLocation(s).value.1|]
  {
    var rest := ParseLocation(s).value.1;
    ParseLocationStep(s);
    var s1 := ParsePoint(s).value.1;
    assert ReadsWithout(s, s1, '_') by {
      ParsePointReadsWithout(s);
    }
    if |s1| > 0 && s1[0] == '_' {
      assert rest == ParsePoint(s1[1..]).value.1;
      assert ReadsWithout(s1[1..], rest, '_') by {
        ParsePointReadsWithout(s1[1..]);
      }
      assert IsSuffix(s, rest) by {
        IsSuffixChain(s1, s1[1..], rest);
        IsSuffixChain(s, s1, rest);
      }
      var i := |s| - |s1|;
      assert s[i] == '_';
      assert s[..|s| - |rest|][i] == '_';
    } else {
      assert rest == s1;
    }
  }

  // ----------------------------------------------------- unbracketed texts

  lemma ParseBodyUnbracketed(ref: ReferenceId, t: CoordType, s: seq<char>)
    requires ParseBody(ref, t, s).Some? && !(|s| > 0 && s[0] == '[')
    ensures ParseBody(ref, t, s).value.SingleAllele?
    ensures |ParseBody(ref, t, s).value.allele| == 1
  {
  }

  lemma ParseCoordTypeRest(s: seq<char>)
    requires ParseCoordType(s).Some?
    ensures |s| >= 2 && ParseCoordType(s).value.1 == s[2..]
  {
  }

  /** A description without `[` is a single allele of exactly one change. */
  lemma UnbracketedIsSingleChange(s: seq<char>)
    requires ParseHGVSString(s).Some? && '[' !in s
    ensures ParseHGVSString(s).value.SingleAllele?
    ensures |ParseHGVSString(s).value.allele| == 1
  {
    var k := LeadingReferenceChars(s);
    assert 0 < k < |s| && s[k] == ':' && ParseCoordType(s[k + 1..]).Some?;
    var r := ParseCoordType(s[k + 1..]).value;
    assert ParseHGVSString(s) == ParseBody(s[..k], r.0, r.1) by {
      ParseHGVSStringStep(s, k, r.0, r.1);
    }
    assert r.1 == s[k + 3..] by {
      ParseCoordTypeRest(s[k + 1..]);
    }
    if |r.1| > 0 {
      assert r.1[0] == s[k + 3];
    }
    ParseBodyUnbracketed(s[..k], r.0, r.1);
  }

  // -------------------------------------------------------------- rejection

  /** A change followed by more text is not a change text: the whole input must be consumed. */
  lemma TrailingTextRejected(c: Change, rest: seq<char>)
    requires |rest| > 0 && ChangeStop(rest)
    ensures ParseChangeString(ChangeText(c) + rest) == None
  {
    ParseChangeOfText(c, rest);
  }

  /** Without a `:` after the reference there is no variant. */
  lemma NoColonRejected(s: seq<char>)
    requires ':' !in s
    ensures ParseHGVSString(s) == None
  {
    var k := LeadingReferenceChars(s);
    if 0 < k < |s| {
      assert s[k] in s;
    }
  }

  /**
   * The parser keeps a range as written: equal endpoints are not merged, even
   * though such a range prints as its single point.
   */
  lemma DegenerateRangeKept(a: NtPoint, rest: seq<char>)
    requires LocationStop(rest)
    ensures ParseLocation(PointText(a) + "_" + PointText(a) + rest) == Some((Range(a, a), rest))
    ensures LocationText(Range(a, a)) == PointText(a)
    ensures Range(a, a) != NormalizeLocation(Range(a, a))
  {
    ParseRangeOfText(a, a, rest);
  }
}
