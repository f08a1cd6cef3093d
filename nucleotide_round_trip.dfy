/**
 * The round-trip law between the nucleotide printer and parser: reading back a
 * printed variant gives the variant itself, up to the one thing printing
 * forgets (whether a one-base location was written as a range).
 */
module NucleotideRoundTrip {
  import opened Wrappers
  import opened Numerals
  import opened NucleotideVariant
  import opened NucleotideParser

  /** What may follow a point location without being read as part of it. */
  predicate PointStop(rest: seq<char>) {
    rest == [] || !(IsDigit(rest[0]) || rest[0] == '+' || rest[0] == '-')
  }

  predicate LocationStop(rest: seq<char>) {
    PointStop(rest) && (rest == [] || rest[0] != '_')
  }

  predicate PayloadStop(rest: seq<char>) {
    rest == [] || !(IsDigit(rest[0]) || IsBase(rest[0]))
  }

  /** What follows a change inside a variant: the end, `,` or `]`. */
  predicate ChangeStop(rest: seq<char>) {
    rest == [] || rest[0] == ',' || rest[0] == ']'
  }

  lemma {:induction false} LeadingBasesOfConcat(bs: seq<char>, rest: seq<char>)
    requires AllBases(bs) && PayloadStop(rest)
    ensures LeadingBases(bs + rest) == |bs|
    decreases |bs|
  {
    if bs != [] {
      assert (bs + rest)[1..] == bs[1..] + rest;
      LeadingBasesOfConcat(bs[1..], rest);
    }
  }

  lemma {:induction false} LeadingReferenceCharsOfConcat(id: seq<char>, rest: seq<char>)
    requires AllReferenceChars(id) && |rest| > 0 && !IsReferenceChar(rest[0])
    ensures LeadingReferenceChars(id + rest) == |id|
    decreases |id|
  {
    if id != [] {
      assert (id + rest)[1..] == id[1..] + rest;
      LeadingReferenceCharsOfConcat(id[1..], rest);
    }
  }

  /** One signed-offset step on an abstract string. */
  lemma ParseIntronOffsetStep(s: seq<char>, n: nat, rest: seq<char>)
    requires |s| > 0 && (s[0] == '+' || s[0] == '-')
    requires ParseNat(s[1..]) == Some((n, rest))
    ensures ParseIntronOffset(s) == (if s[0] == '+' then Plus(n) else Minus(n), rest)
  {
  }

  lemma ParseIntronOffsetOfText(o: IntronOffset, rest: seq<char>)
    requires PointStop(rest)
    ensures ParseIntronOffset(OffsetText(o) + rest) == (o, rest)
  {
    match o
    case NoOffset =>
      assert OffsetText(o) + rest == rest;
    case Plus(n) =>
      var s := "+" + (NatToString(n) + rest);
      assert OffsetText(o) + rest == s by {
        ConcatAssoc("+", NatToString(n), rest);
      }
      assert ParseIntronOffset(s) == (o, rest) by {
        assert s[0] == '+' && s[1..] == NatToString(n) + rest;
        ParseNatOfNatToString(n, rest);
        ParseIntronOffsetStep(s, n, rest);
      }
    case Minus(n) =>
      var s := "-" + (NatToString(n) + rest);
      assert OffsetText(o) + rest == s by {
        ConcatAssoc("-", NatToString(n), rest);
      }
      assert ParseIntronOffset(s) == (o, rest) by {
        assert s[0] == '-' && s[1..] == NatToString(n) + rest;
        ParseNatOfNatToString(n, rest);
        ParseIntronOffsetStep(s, n, rest);
      }
  }

  lemma ParsePointStep(s: seq<char>, x: seq<char>, y: seq<char>, p: NtPoint, rest: seq<char>)
    requires ParseUtrPrefix(s) == (p.utr, x)
    requires ParseNat(x) == Some((p.basePos, y))
    requires ParseIntronOffset(y) == (p.offset, rest)
    ensures ParsePoint(s) == Some((p, rest))
  {
  }

  lemma ParsePointOfText(p: NtPoint, rest: seq<char>)
    requires PointStop(rest)
    ensures ParsePoint(PointText(p) + rest) == Some((p, rest))
  {
    var u, ds, o := UtrText(p.utr), NatToString(p.basePos), OffsetText(p.offset);
    var x := ds + (o + rest);
    assert PointText(p) + rest == u + x by {
      ConcatAssoc(u + ds, o, rest);
      ConcatAssoc(u, ds, o + rest);
    }
    assert ParseUtrPrefix(u + x) == (p.utr, x) by {
      assert IsDigit(x[0]);
      if u != [] { assert (u + x)[1..] == x; } else { assert u + x == x; }
    }
    assert ParseNat(x) == Some((p.basePos, o + rest)) by {
      assert NoDigitAhead(o + rest);
      ParseNatOfNatToString(p.basePos, o + rest);
    }
    assert ParseIntronOffset(o + rest) == (p.offset, rest) by {
      ParseIntronOffsetOfText(p.offset, rest);
    }
    ParsePointStep(u + x, x, o + rest, p, rest);
  }

  lemma ParseLocationOfPoint(s: seq<char>, p: NtPoint, rest: seq<char>)
    requires ParsePoint(s) == Some((p, rest)) && (rest == [] || rest[0] != '_')
    ensures ParseLocation(s) == Some((Point(p), rest))
  {
  }

  lemma ParseLocationOfRange(s: seq<char>, a: NtPoint, b: NtPoint, tail: seq<char>, rest: seq<char>)
    requires ParsePoint(s) == Some((a, tail)) && |tail| > 0 && tail[0] == '_'
    requires ParsePoint(tail[1..]) == Some((b, rest))
    ensures ParseLocation(s) == Some((Range(a, b), rest))
  {
  }

  lemma ParseRangeOfText(a: NtPoint, b: NtPoint, rest: seq<char>)
    requires LocationStop(rest)
    ensures ParseLocation(PointText(a) + "_" + PointText(b) + rest) == Some((Range(a, b), rest))
  {
    var tail := "_" + (PointText(b) + rest);
    assert PointText(a) + "_" + PointText(b) + rest == PointText(a) + tail;
    assert ParsePoint(PointText(a) + tail) == Some((a, tail)) by {
      ParsePointOfText(a, tail);
    }
    assert ParsePoint(tail[1..]) == Some((b, rest)) by {
      assert tail[1..] == PointText(b) + rest;
      ParsePointOfText(b, rest);
    }
    ParseLocationOfRange(PointText(a) + tail, a, b, tail, rest);
  }

  lemma ParseLocationOfText(l: NtLocation, rest: seq<char>)
    requires LocationStop(rest)
    ensures ParseLocation(LocationText(l) + rest) == Some((NormalizeLocation(l), rest))
  {
    if l.Range? && l.first != l.last {
      ParseRangeOfText(l.first, l.last, rest);
    } else {
      var p := if l.Point? then l.p else l.first;
      assert LocationText(l) == PointText(p);
      assert NormalizeLocation(l) == Point(p);
      assert ParsePoint(PointText(p) + rest) == Some((p, rest)) by {
        ParsePointOfText(p, rest);
      }
      ParseLocationOfPoint(PointText(p) + rest, p, rest);
    }
  }

  lemma ParsePayloadOfText(pl: Payload, rest: seq<char>)
    requires PayloadStop(rest)
    ensures ParsePayload(PayloadText(pl) + rest) == (pl, rest)
  {
    match pl
    case NoPayload =>
      assert PayloadText(pl) + rest == rest;
    case Sequence(bs) =>
      assert IsBase(bs[0]);
      assert (bs + rest)[0] == bs[0];
      LeadingBasesOfConcat(bs, rest);
      assert (bs + rest)[..|bs|] == bs && (bs + rest)[|bs|..] == rest;
    case Length(n) =>
      ParseNatOfNatToString(n, rest);
  }

  /** The text of a payload followed by `rest`, after a three-letter keyword. */
  lemma KeywordThenPayload(kw: string, pl: Payload, rest: seq<char>)
    requires |kw| == 3 && PayloadStop(rest)
    ensures StartsWith(kw + (PayloadText(pl) + rest), kw)
    ensures (kw + (PayloadText(pl) + rest))[3..] == PayloadText(pl) + rest
    ensures ParsePayload((kw + (PayloadText(pl) + rest))[3..]) == (pl, rest)
  {
    assert (kw + (PayloadText(pl) + rest))[..3] == kw;
    ParsePayloadOfText(pl, rest);
  }

  lemma ConcatAssoc(a: seq<char>, b: seq<char>, c: seq<char>)
    ensures (a + b) + c == a + (b + c)
  {
  }

  /** The text of a change other than a substitution, followed by `rest`, as location then tail. */
  lemma KeywordChangeTextSplit(c: Change, rest: seq<char>)
    requires c.Deletion? || c.Insertion? || c.Duplication? || c.Inversion?
    ensures ChangeText(c) + rest == LocationText(c.loc) + (Keyword(c) + (PayloadText(FirstPayload(c)) + rest))
  {
    var l, k, p := LocationText(c.loc), Keyword(c), PayloadText(FirstPayload(c));
    assert ChangeText(c) == l + k + p;
    ConcatAssoc(l + k, p, rest);
    ConcatAssoc(l, k, p + rest);
  }

  lemma IndelTextSplit(c: Change, rest: seq<char>)
    requires c.Indel?
    ensures ChangeText(c) + rest
      == LocationText(c.loc) + ("del" + (PayloadText(c.deleted) + ("ins" + (PayloadText(c.inserted) + rest))))
  {
    var l, d, i := LocationText(c.loc), PayloadText(c.deleted), PayloadText(c.inserted);
    assert ChangeText(c) == l + "del" + d + "ins" + i;
    ConcatAssoc(l + "del" + d + "ins", i, rest);
    ConcatAssoc(l + "del" + d, "ins", i + rest);
    ConcatAssoc(l + "del", d, "ins" + (i + rest));
    ConcatAssoc(l, "del", d + ("ins" + (i + rest)));
  }

  lemma ParseChangeStep(s: seq<char>, loc: NtLocation, s1: seq<char>)
    requires ParseLocation(s) == Some((loc, s1))
    ensures ParseChange(s) == ParseEdit(loc, s1)
  {
  }

  lemma ParseSubstitutionOfText(c: Change, rest: seq<char>)
    requires c.Substitution?
    ensures ParseChange(ChangeText(c) + rest) == Some((c, rest))
  {
    var edit := [c.fromBase, '>', c.toBase];
    var tail := edit + rest;
    var s := PointText(c.pos) + tail;
    assert ChangeText(c) + rest == s by {
      assert ChangeText(c) == PointText(c.pos) + edit;
      ConcatAssoc(PointText(c.pos), edit, rest);
    }
    assert ParseLocation(s) == Some((Point(c.pos), tail)) by {
      ParseLocationOfText(Point(c.pos), tail);
    }
    assert ParseChange(s) == ParseEdit(Point(c.pos), tail) by {
      ParseChangeStep(s, Point(c.pos), tail);
    }
    assert tail[0] == c.fromBase && tail[1] == '>' && tail[2] == c.toBase && tail[3..] == rest;
  }

  /** The keyword that follows the location of a change other than a substitution. */
  function Keyword(c: Change): string
    requires !c.Substitution?
  {
    match c
    case Deletion(_, _) => "del"
    case Insertion(_, _) => "ins"
    case Duplication(_, _) => "dup"
    case Inversion(_, _) => "inv"
    case Indel(_, _, _) => "del"
  }

  /** The payload after the keyword (for an indel, the deleted one). */
  function FirstPayload(c: Change): Payload
    requires !c.Substitution?
  {
    match c
    case Deletion(_, d) => d
    case Insertion(_, i) => i
    case Duplication(_, d) => d
    case Inversion(_, i) => i
    case Indel(_, d, _) => d
  }

  /** The edit part of a change other than a substitution reads back as that change. */
  lemma ParseEditOfKeywordText(c: Change, rest: seq<char>)
    requires c.Deletion? || c.Insertion? || c.Duplication? || c.Inversion?
    requires ChangeStop(rest)
    ensures ParseEdit(NormalizeLocation(c.loc), Keyword(c) + (PayloadText(FirstPayload(c)) + rest))
      == Some((NormalizeChange(c), rest))
  {
    var kw, pl := Keyword(c), FirstPayload(c);
    var tail := kw + (PayloadText(pl) + rest);
    assert StartsWith(tail, kw) && tail[3..] == PayloadText(pl) + rest && ParsePayload(tail[3..]) == (pl, rest) by {
      KeywordThenPayload(kw, pl, rest);
    }
    assert !IsBase(tail[0]);
    if c.Deletion? {
      assert !StartsWith(rest, "ins");
    }
  }

  lemma ParseSingleKeywordChangeOfText(c: Change, rest: seq<char>)
    requires c.Deletion? || c.Insertion? || c.Duplication? || c.Inversion?
    requires ChangeStop(rest)
    ensures ParseChange(ChangeText(c) + rest) == Some((NormalizeChange(c), rest))
  {
    var tail := Keyword(c) + (PayloadText(FirstPayload(c)) + rest);
    var s := LocationText(c.loc) + tail;
    assert ChangeText(c) + rest == s by {
      KeywordChangeTextSplit(c, rest);
    }
    assert ParseLocation(s) == Some((NormalizeLocation(c.loc), tail)) by {
      ParseLocationOfText(c.loc, tail);
    }
    assert ParseChange(s) == ParseEdit(NormalizeLocation(c.loc), tail) by {
      ParseChangeStep(s, NormalizeLocation(c.loc), tail);
    }
    ParseEditOfKeywordText(c, rest);
  }

  /** The `del` branch of the edit parser, on an abstract string. */
  lemma ParseEditDelStep(loc: NtLocation, s: seq<char>)
    requires StartsWith(s, "del") && !IsBase(s[0])
    ensures ParseEdit(loc, s) == Some(ParseDeletion(loc, s[3..]))
  {
  }

  /** A deletion payload followed by `ins` and a payload reads as one indel. */
  lemma ParseDeletionIndelStep(loc: NtLocation, s: seq<char>, d: Payload, s1: seq<char>, i: Payload, s2: seq<char>)
    requires ParsePayload(s) == (d, s1) && StartsWith(s1, "ins") && ParsePayload(s1[3..]) == (i, s2)
    ensures ParseDeletion(loc, s) == (Indel(loc, d, i), s2)
  {
  }

  lemma ParseEditOfIndelText(c: Change, rest: seq<char>)
    requires c.Indel? && ChangeStop(rest)
    ensures ParseEdit(NormalizeLocation(c.loc), "del" + (PayloadText(c.deleted) + ("ins" + (PayloadText(c.inserted) + rest))))
      == Some((NormalizeChange(c), rest))
  {
    var loc := NormalizeLocation(c.loc);
    var insPart := "ins" + (PayloadText(c.inserted) + rest);
    var tail := "del" + (PayloadText(c.deleted) + insPart);
    assert StartsWith(tail, "del") && ParsePayload(tail[3..]) == (c.deleted, insPart) by {
      KeywordThenPayload("del", c.deleted, insPart);
    }
    assert StartsWith(insPart, "ins") && ParsePayload(insPart[3..]) == (c.inserted, rest) by {
      KeywordThenPayload("ins", c.inserted, rest);
    }
    assert ParseDeletion(loc, tail[3..]) == (Indel(loc, c.deleted, c.inserted), rest) by {
      ParseDeletionIndelStep(loc, tail[3..], c.deleted, insPart, c.inserted, rest);
    }
    assert ParseEdit(loc, tail) == Some(ParseDeletion(loc, tail[3..])) by {
      assert !IsBase(tail[0]);
      ParseEditDelStep(loc, tail);
    }
  }

  lemma ParseIndelOfText(c: Change, rest: seq<char>)
    requires c.Indel? && ChangeStop(rest)
    ensures ParseChange(ChangeText(c) + rest) == Some((NormalizeChange(c), rest))
  {
    var tail := "del" + (PayloadText(c.deleted) + ("ins" + (PayloadText(c.inserted) + rest)));
    var s := LocationText(c.loc) + tail;
    assert ChangeText(c) + rest == s by {
      IndelTextSplit(c, rest);
    }
    assert ParseLocation(s) == Some((NormalizeLocation(c.loc), tail)) by {
      ParseLocationOfText(c.loc, tail);
    }
    assert ParseChange(s) == ParseEdit(NormalizeLocation(c.loc), tail) by {
      ParseChangeStep(s, NormalizeLocation(c.loc), tail);
    }
    ParseEditOfIndelText(c, rest);
  }

  /** Printing a change and reading it back gives the change, its location in canonical form. */
  lemma ParseChangeOfText(c: Change, rest: seq<char>)
    requires ChangeStop(rest)
    ensures ParseChange(ChangeText(c) + rest) == Some((NormalizeChange(c), rest))
  {
    match c
    case Substitution(_, _, _) => ParseSubstitutionOfText(c, rest);
    case Deletion(_, _) => ParseSingleKeywordChangeOfText(c, rest);
    case Insertion(_, _) => ParseSingleKeywordChangeOfText(c, rest);
    case Duplication(_, _) => ParseSingleKeywordChangeOfText(c, rest);
    case Inversion(_, _) => ParseSingleKeywordChangeOfText(c, rest);
    case Indel(_, _, _) => ParseIndelOfText(c, rest);
  }

  /** A printed change, read on its own, is its canonical form. */
  lemma ParseChangeStringOfText(c: Change)
    ensures ParseChangeString(ChangeText(c)) == Some(NormalizeChange(c))
  {
    assert ChangeText(c) + [] == ChangeText(c);
    ParseChangeOfText(c, []);
  }

  lemma ParseChangesLastStep(s: seq<char>, c: Change, s1: seq<char>)
    requires ParseChange(s) == Some((c, s1)) && !(|s1| > 0 && s1[0] == ',')
    ensures ParseChanges(s) == Some(([c], s1))
  {
  }

  lemma ParseChangesMoreStep(s: seq<char>, c: Change, s1: seq<char>, cs: seq<Change>, s2: seq<char>)
    requires ParseChange(s) == Some((c, s1)) && |s1| > 0 && s1[0] == ','
    requires ParseChanges(s1[1..]) == Some((cs, s2))
    ensures ParseChanges(s) == Some(([c] + cs, s2))
  {
  }

  lemma {:induction false} ParseChangesOfText(cs: seq<Change>, rest: seq<char>)
    requires |cs| > 0 && (rest == [] || rest[0] == ']')
    ensures ParseChanges(ChangesText(cs) + rest) == Some((NormalizeChanges(cs), rest))
    decreases |cs|
  {
    if |cs| == 1 {
      assert ChangesText(cs) == ChangeText(cs[0]);
      ParseChangeOfText(cs[0], rest);
      ParseChangesLastStep(ChangesText(cs) + rest, NormalizeChange(cs[0]), rest);
      assert NormalizeChanges(cs) == [NormalizeChange(cs[0])];
    } else {
      var more := ChangesText(cs[1..]) + rest;
      var tail := "," + more;
      assert ChangesText(cs) + rest == ChangeText(cs[0]) + tail by {
        assert ChangesText(cs) == ChangeText(cs[0]) + "," + ChangesText(cs[1..]);
        ConcatAssoc(ChangeText(cs[0]) + ",", ChangesText(cs[1..]), rest);
        ConcatAssoc(ChangeText(cs[0]), ",", more);
      }
      assert ParseChange(ChangesText(cs) + rest) == Some((NormalizeChange(cs[0]), tail)) by {
        ParseChangeOfText(cs[0], tail);
      }
      assert tail[1..] == more;
      assert ParseChanges(more) == Some((NormalizeChanges(cs[1..]), rest)) by {
        ParseChangesOfText(cs[1..], rest);
      }
      ParseChangesMoreStep(ChangesText(cs) + rest, NormalizeChange(cs[0]), tail, NormalizeChanges(cs[1..]), rest);
      assert NormalizeChanges(cs) == [NormalizeChange(cs[0])] + NormalizeChanges(cs[1..]);
    }
  }

  lemma ParseAlleleStep(s: seq<char>, cs: seq<Change>, s1: seq<char>)
    requires |s| > 0 && s[0] == '['
    requires ParseChanges(s[1..]) == Some((cs, s1)) && |s1| > 0 && s1[0] == ']'
    ensures ParseAllele(s) == Some((cs, s1[1..]))
  {
  }

  lemma ParseAlleleOfText(a: Allele, rest: seq<char>)
    ensures ParseAllele(AlleleText(a) + rest) == Some((NormalizeChanges(a), rest))
  {
    var close := "]" + rest;
    var inner := ChangesText(a) + close;
    assert AlleleText(a) + rest == "[" + inner by {
      ConcatAssoc("[" + ChangesText(a), "]", rest);
      ConcatAssoc("[", ChangesText(a), close);
    }
    assert ("[" + inner)[1..] == inner;
    assert ParseChanges(inner) == Some((NormalizeChanges(a), close)) by {
      ParseChangesOfText(a, close);
    }
    assert close[1..] == rest;
    ParseAlleleStep("[" + inner, NormalizeChanges(a), close);
  }

  lemma ParseMoreAllelesStep(s: seq<char>, a: Allele, s1: seq<char>, more: seq<Allele>, s2: seq<char>)
    requires |s| > 0 && s[0] == ';'
    requires ParseAllele(s[1..]) == Some((a, s1)) && ParseMoreAlleles(s1) == Some((more, s2))
    ensures ParseMoreAlleles(s) == Some(([a] + more, s2))
  {
  }

  lemma {:induction false} ParseMoreAllelesOfText(als: seq<Allele>, rest: seq<char>)
    requires rest == [] || rest[0] != ';'
    ensures ParseMoreAlleles(MoreAllelesText(als) + rest) == Some((NormalizeAlleles(als), rest))
    decreases |als|
  {
    if als == [] {
      assert MoreAllelesText(als) + rest == rest;
    } else {
      var tail := MoreAllelesText(als[1..]) + rest;
      var s := ";" + (AlleleText(als[0]) + tail);
      assert MoreAllelesText(als) + rest == s by {
        assert MoreAllelesText(als) == ";" + AlleleText(als[0]) + MoreAllelesText(als[1..]);
        ConcatAssoc(";" + AlleleText(als[0]), MoreAllelesText(als[1..]), rest);
        ConcatAssoc(";", AlleleText(als[0]), tail);
      }
      assert s[1..] == AlleleText(als[0]) + tail;
      assert ParseAllele(s[1..]) == Some((NormalizeChanges(als[0]), tail)) by {
        ParseAlleleOfText(als[0], tail);
      }
      assert ParseMoreAlleles(tail) == Some((NormalizeAlleles(als[1..]), rest)) by {
        ParseMoreAllelesOfText(als[1..], rest);
      }
      ParseMoreAllelesStep(s, NormalizeChanges(als[0]), tail, NormalizeAlleles(als[1..]), rest);
      assert NormalizeAlleles(als) == [NormalizeChanges(als[0])] + NormalizeAlleles(als[1..]);
    }
  }

  lemma ChangeTextStart(c: Change)
    ensures |ChangeText(c)| > 0 && ChangeText(c)[0] != '['
  {
    var p := match c case Substitution(p, _, _) => p case _ => (if c.loc.Point? then c.loc.p else c.loc.first);
    assert PointText(p) == UtrText(p.utr) + NatToString(p.basePos) + OffsetText(p.offset);
    assert |PointText(p)| > 0 && PointText(p)[0] != '[';
    assert ChangeText(c)[0] == PointText(p)[0];
  }

  lemma ParseBodyChangeStep(ref: ReferenceId, t: CoordType, s: seq<char>, c: Change)
    requires !(|s| > 0 && s[0] == '[') && ParseChange(s) == Some((c, []))
    ensures ParseBody(ref, t, s) == Some(SingleAllele(ref, t, [c]))
  {
  }

  lemma ParseBodyAlleleStep(ref: ReferenceId, t: CoordType, s: seq<char>, a: Allele)
    requires |s| > 0 && s[0] == '[' && ParseAllele(s) == Some((a, []))
    ensures ParseBody(ref, t, s) == Some(SingleAllele(ref, t, a))
  {
  }

  lemma ParseBodyMultiStep(ref: ReferenceId, t: CoordType, s: seq<char>, a: Allele, s1: seq<char>, more: seq<Allele>)
    requires |s| > 0 && s[0] == '[' && ParseAllele(s) == Some((a, s1))
    requires |s1| > 0 && s1[0] == ';' && ParseMoreAlleles(s1) == Some((more, [])) && |more| > 0
    ensures ParseBody(ref, t, s) == Some(MultiAllele(ref, t, JoinAlleles(a, more)))
  {
  }

  lemma ParseBodyOfText(v: NtVariant)
    ensures ParseBody(v.ref, v.coord, BodyText(v)) == Some(Normalize(v))
  {
    match v
    case SingleAllele(ref, t, a) =>
      if |a| == 1 {
        var s := ChangeText(a[0]);
        assert ParseChange(s) == Some((NormalizeChange(a[0]), [])) by {
          assert s + [] == s;
          ParseChangeOfText(a[0], []);
        }
        assert !(|s| > 0 && s[0] == '[') by {
          ChangeTextStart(a[0]);
        }
        ParseBodyChangeStep(ref, t, s, NormalizeChange(a[0]));
        assert NormalizeChanges(a) == [NormalizeChange(a[0])];
      } else {
        var s := AlleleText(a);
        assert ParseAllele(s) == Some((NormalizeChanges(a), [])) by {
          assert s + [] == s;
          ParseAlleleOfText(a, []);
        }
        ParseBodyAlleleStep(ref, t, s, NormalizeChanges(a));
      }
    case MultiAllele(ref, t, als) =>
      var first := AlleleText(als[0]);
      var more := MoreAllelesText(als[1..]);
      assert ParseAllele(first + more) == Some((NormalizeChanges(als[0]), more)) by {
        ParseAlleleOfText(als[0], more);
      }
      assert |more| > 0 && more[0] == ';' by {
        assert more == ";" + AlleleText(als[1..][0]) + MoreAllelesText(als[1..][1..]);
      }
      assert ParseMoreAlleles(more) == Some((NormalizeAlleles(als[1..]), [])) by {
        assert more + [] == more;
        ParseMoreAllelesOfText(als[1..], []);
      }
      assert BodyText(v) == first + more;
      ParseBodyMultiStep(ref, t, first + more, NormalizeChanges(als[0]), more, NormalizeAlleles(als[1..]));
      assert NormalizeAlleles(als) == JoinAlleles(NormalizeChanges(als[0]), NormalizeAlleles(als[1..]));
  }

  lemma ParseHGVSStringStep(s: seq<char>, k: nat, t: CoordType, s1: seq<char>)
    requires LeadingReferenceChars(s) == k && 0 < k < |s| && s[k] == ':'
    requires ParseCoordType(s[k + 1..]) == Some((t, s1))
    ensures ParseHGVSString(s) == ParseBody(s[..k], t, s1)
  {
  }

  lemma ParseCoordTypeOfText(t: CoordType, rest: seq<char>)
    ensures ParseCoordType(CoordText(t) + rest) == Some((t, rest))
  {
    assert (CoordText(t) + rest)[2..] == rest;
  }

  lemma SplitAtColon(ref: seq<char>, body: seq<char>)
    ensures var s := ref + (":" + body);
      s[|ref|] == ':' && s[..|ref|] == ref && s[|ref| + 1..] == body
  {
  }

  lemma ParseOfToHGVSString(v: NtVariant)
    ensures ParseHGVSString(ToHGVSString(v)) == Some(Normalize(v))
  {
    var s := ToHGVSString(v);
    var body := CoordText(v.coord) + BodyText(v);
    var k := |v.ref|;
    assert s == v.ref + (":" + body) by {
      ConcatAssoc(v.ref + ":", CoordText(v.coord), BodyText(v));
      ConcatAssoc(v.ref, ":", body);
    }
    assert LeadingReferenceChars(s) == k by {
      LeadingReferenceCharsOfConcat(v.ref, ":" + body);
    }
    assert s[k] == ':' && s[..k] == v.ref && s[k + 1..] == body by {
      SplitAtColon(v.ref, body);
    }
    assert ParseCoordType(body) == Some((v.coord, BodyText(v))) by {
      ParseCoordTypeOfText(v.coord, BodyText(v));
    }
    assert ParseHGVSString(s) == ParseBody(v.ref, v.coord, BodyText(v)) by {
      ParseHGVSStringStep(s, k, v.coord, BodyText(v));
    }
    assert ParseBody(v.ref, v.coord, BodyText(v)) == Some(Normalize(v)) by {
      ParseBodyOfText(v);
    }
  }

  /** A canonical variant is its own canonical form, so it survives the round trip unchanged. */
  lemma NormalizeCanonical(v: NtVariant)
    requires Canonical(v)
    ensures Normalize(v) == v
  {
    match v
    case SingleAllele(_, _, a) =>
      assert NormalizeChanges(a) == a;
    case MultiAllele(_, _, als) =>
      forall i | 0 <= i < |als| ensures NormalizeChanges(als[i]) == als[i] {
        assert CanonicalChanges(als[i]);
      }
      assert NormalizeAlleles(als) == als;
  }

  lemma CanonicalParseOfToHGVSString(v: NtVariant)
    requires Canonical(v)
    ensures ParseHGVSString(ToHGVSString(v)) == Some(v)
  {
    ParseOfToHGVSString(v);
    NormalizeCanonical(v);
  }
}
