/**
 * The parser of nucleotide variant nomenclature. Each production is a function
 * from the remaining input to the value read and the input after it; a
 * production that does not match gives None. The whole text must be consumed.
 * The parser checks syntax only: it does not order range endpoints and does not
 * compare a written length with the range it applies to.
 */
module NucleotideParser {
  import opened Wrappers
  import opened Numerals
  import opened NucleotideVariant

  /** `s` begins with the three-letter keyword `kw`. */
  predicate StartsWith(s: seq<char>, kw: string)
    requires |kw| == 3
  {
    |s| >= 3 && s[0] == kw[0] && s[1] == kw[1] && s[2] == kw[2]
  }

  /** An optional `-` or `*` in front of the number. */
  function ParseUtrPrefix(s: seq<char>): (r: (UtrPrefix, seq<char>))
    ensures |r.1| <= |s|
  {
    if |s| > 0 && s[0] == '-' then (Upstream, s[1..])
    else if |s| > 0 && s[0] == '*' then (Downstream, s[1..])
    else (NoUtr, s)
  }

  /** An optional `+n` or `-n` after the number; a sign not followed by a digit is not an offset. */
  function ParseIntronOffset(s: seq<char>): (r: (IntronOffset, seq<char>))
    ensures |r.1| <= |s|
  {
    if |s| > 0 && (s[0] == '+' || s[0] == '-') then
      match ParseNat(s[1..])
      case Some((n, rest)) => (if s[0] == '+' then Plus(n) else Minus(n), rest)
      case None => (NoOffset, s)
    else (NoOffset, s)
  }

  function ParsePoint(s: seq<char>): (r: Option<(NtPoint, seq<char>)>)
    ensures r.Some? ==> |r.value.1| < |s|
  {
    var (utr, s1) := ParseUtrPrefix(s);
    var (n, s2) :- ParseNat(s1);
    var (off, s3) := ParseIntronOffset(s2);
    Some((NtPoint(utr, n, off), s3))
  }

  /** A point location, or two of them joined by `_`. */
  function ParseLocation(s: seq<char>): (r: Option<(NtLocation, seq<char>)>)
    ensures r.Some? ==> |r.value.1| < |s|
  {
    var (first, s1) :- ParsePoint(s);
    if |s1| > 0 && s1[0] == '_' then
      var (last, s2) :- ParsePoint(s1[1..]);
      Some((Range(first, last), s2))
    else Some((Point(first), s1))
  }

  /** Length of the run of bases that starts `s`. */
  function LeadingBases(s: seq<char>): (k: nat)
    ensures 0 < k <= |s| ==> |s[..k]| > 0 && AllBases(s[..k])
    ensures k <= |s| && (k < |s| ==> !IsBase(s[k]))
  {
    if |s| > 0 && IsBase(s[0]) then
      var k' := LeadingBases(s[1..]);
      assert s[..1 + k'] == [s[0]] + s[1..][..k'];
      1 + k'
    else 0
  }

  /** What follows `del`, `ins`, `dup` or `inv`: a number, a run of bases, or nothing. */
  function ParsePayload(s: seq<char>): (r: (Payload, seq<char>))
    ensures |r.1| <= |s|
  {
    match ParseNat(s)
    case Some((n, rest)) => (Length(n), rest)
    case None =>
      var k := LeadingBases(s);
      if k == 0 then (NoPayload, s) else (Sequence(s[..k]), s[k..])
  }

  /** One change: a location followed by its edit. */
  function ParseChange(s: seq<char>): (r: Option<(Change, seq<char>)>)
    ensures r.Some? ==> |r.value.1| < |s|
  {
    var (loc, s1) :- ParseLocation(s);
    ParseEdit(loc, s1)
  }

  /** What follows the location: `A>C`, `del…`, `del…ins…`, `ins…`, `dup…` or `inv…`. */
  function ParseEdit(loc: NtLocation, s: seq<char>): (r: Option<(Change, seq<char>)>)
    ensures r.Some? ==> |r.value.1| < |s|
  {
    if |s| >= 3 && IsBase(s[0]) && s[1] == '>' && IsBase(s[2]) then
      if loc.Point? then Some((Substitution(loc.p, s[0], s[2]), s[3..])) else None
    else if StartsWith(s, "del") then Some(ParseDeletion(loc, s[3..]))
    else if StartsWith(s, "ins") then
      var (i, s1) := ParsePayload(s[3..]);
      Some((Insertion(loc, i), s1))
    else if StartsWith(s, "dup") then
      var (d, s1) := ParsePayload(s[3..]);
      Some((Duplication(loc, d), s1))
    else if StartsWith(s, "inv") then
      var (i, s1) := ParsePayload(s[3..]);
      Some((Inversion(loc, i), s1))
    else None
  }

  /** After `del`: the deleted payload, then optionally `ins` and the inserted payload. */
  function ParseDeletion(loc: NtLocation, s: seq<char>): (r: (Change, seq<char>))
    ensures |r.1| <= |s|
  {
    var (d, s1) := ParsePayload(s);
    if StartsWith(s1, "ins") then
      var (i, s2) := ParsePayload(s1[3..]);
      (Indel(loc, d, i), s2)
    else (Deletion(loc, d), s1)
  }

  /** One or more changes separated by `,`, kept in the order written. */
  function ParseChanges(s: seq<char>): (r: Option<(seq<Change>, seq<char>)>)
    ensures r.Some? ==> |r.value.0| > 0 && |r.value.1| < |s|
    decreases |s|
  {
    var (c, s1) :- ParseChange(s);
    if |s1| > 0 && s1[0] == ',' then
      var (cs, s2) :- ParseChanges(s1[1..]);
      Some(([c] + cs, s2))
    else Some(([c], s1))
  }

  /** `[` changes `]`. */
  function ParseAllele(s: seq<char>): (r: Option<(Allele, seq<char>)>)
    ensures r.Some? ==> |r.value.1| < |s|
  {
    if |s| > 0 && s[0] == '[' then
      var (cs, s1) :- ParseChanges(s[1..]);
      if |s1| > 0 && s1[0] == ']' then Some((cs, s1[1..])) else None
    else None
  }

  /** Zero or more further alleles, each preceded by `;`. */
  function ParseMoreAlleles(s: seq<char>): (r: Option<(seq<Allele>, seq<char>)>)
    ensures r.Some? ==> |r.value.1| <= |s|
    decreases |s|
  {
    if |s| > 0 && s[0] == ';' then
      var (a, s1) :- ParseAllele(s[1..]);
      var (more, s2) :- ParseMoreAlleles(s1);
      Some(([a] + more, s2))
    else Some(([], s))
  }

  /** Length of the run of reference-identifier characters that starts `s`. */
  function LeadingReferenceChars(s: seq<char>): (k: nat)
    ensures k <= |s| && AllReferenceChars(s[..k])
    ensures k < |s| ==> !IsReferenceChar(s[k])
  {
    if |s| > 0 && IsReferenceChar(s[0]) then
      var k' := LeadingReferenceChars(s[1..]);
      assert s[..1 + k'] == [s[0]] + s[1..][..k'];
      1 + k'
    else 0
  }

  function ParseCoordType(s: seq<char>): Option<(CoordType, seq<char>)> {
    if |s| >= 2 && s[1] == '.' then
      if s[0] == 'c' then Some((Coding, s[2..]))
      else if s[0] == 'g' then Some((Genomic, s[2..]))
      else if s[0] == 'm' then Some((Mitochondrial, s[2..]))
      else if s[0] == 'n' then Some((NonCoding, s[2..]))
      else None
    else None
  }

  /** The body after the coordinate marker, for a variant on `ref` in space `t`. */
  function ParseBody(ref: ReferenceId, t: CoordType, s: seq<char>): Option<NtVariant>
  {
    if |s| > 0 && s[0] == '[' then
      var (a, s1) :- ParseAllele(s);
      if s1 == [] then Some(SingleAllele(ref, t, a))
      else if s1[0] == ';' then
        var (more, s2) :- ParseMoreAlleles(s1);
        if s2 == [] && |more| > 0 then Some(MultiAllele(ref, t, JoinAlleles(a, more))) else None
      else None
    else
      var (c, s1) :- ParseChange(s);
      if s1 == [] then Some(SingleAllele(ref, t, [c])) else None
  }

  /** A whole variant text: `reference:` coordinate marker, body; nothing may follow. */
  /** The body parser keeps the reference and coordinate type it is given. */
  lemma ParseBodyKeepsReference(ref: ReferenceId, t: CoordType, s: seq<char>)
    ensures ParseBody(ref, t, s).Some? ==> ParseBody(ref, t, s).value.ref == ref
    ensures ParseBody(ref, t, s).Some? ==> ParseBody(ref, t, s).value.coord == t
  {
    if |s| > 0 && s[0] == '[' {
      var pa := ParseAllele(s);
      if pa.None? {
        assert ParseBody(ref, t, s) == None;
      } else if pa.value.1 == [] {
        assert ParseBody(ref, t, s) == Some(SingleAllele(ref, t, pa.value.0));
      } else if pa.value.1[0] == ';' {
        var pm := ParseMoreAlleles(pa.value.1);
        if pm.Some? && pm.value.1 == [] && |pm.value.0| > 0 {
          assert ParseBody(ref, t, s) == Some(MultiAllele(ref, t, JoinAlleles(pa.value.0, pm.value.0)));
        } else {
          assert ParseBody(ref, t, s) == None;
        }
      } else {
        assert ParseBody(ref, t, s) == None;
      }
    } else {
      var pc := ParseChange(s);
      if pc.Some? && pc.value.1 == [] {
        assert ParseBody(ref, t, s) == Some(SingleAllele(ref, t, [pc.value.0]));
      } else {
        assert ParseBody(ref, t, s) == None;
      }
    }
  }

  function ParseHGVSString(s: seq<char>): (r: Option<NtVariant>)
    ensures r.Some? ==> 0 < |r.value.ref| < |s| && s[..|r.value.ref|] == r.value.ref && s[|r.value.ref|] == ':'
    ensures r.Some? ==> ':' !in r.value.ref
  {
    var k := LeadingReferenceChars(s);
    if 0 < k < |s| && s[k] == ':' then
      var (t, s1) :- ParseCoordType(s[k + 1..]);
      ParseBodyKeepsReference(s[..k], t, s1);
      ParseBody(s[..k], t, s1)
    else None
  }

  /** A whole text that is exactly one change (the change grammar used on its own). */
  function ParseChangeString(s: seq<char>): (r: Option<Change>)
    ensures r.Some? ==> ParseChange(s) == Some((r.value, []))
  {
    var (c, s1) :- ParseChange(s);
    if s1 == [] then Some(c) else None
  }
}
