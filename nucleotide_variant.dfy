/**
 * The nucleotide sequence-variant model of variant nomenclature: point
 * locations with their UTR prefix and intronic offset, ranges, the change
 * kinds, alleles and variants, and the canonical printer.
 *
 * A location is printed as `-247`, `*247`, `247+1`, `-247-3`; a range as
 * `first_last`, collapsing to the single location when both endpoints are the
 * same. A variant is `reference:c.` followed by a bare change, a bracketed
 * `,`-separated allele, or two or more bracketed alleles separated by `;`.
 */
module NucleotideVariant {
  import opened Numerals

  predicate IsBase(c: char) { c == 'A' || c == 'C' || c == 'G' || c == 'T' || c == 'N' }

  type Base = c: char | IsBase(c) witness 'A'

  predicate AllBases(s: seq<char>) { forall i :: 0 <= i < |s| ==> IsBase(s[i]) }

  /** A literal nucleotide sequence as it appears in a change. */
  type Bases = s: seq<char> | |s| > 0 && AllBases(s) witness "A"

  predicate IsReferenceChar(c: char) {
    ('A' <= c <= 'Z') || ('a' <= c <= 'z') || IsDigit(c) || c == '_' || c == '.'
  }

  predicate AllReferenceChars(s: seq<char>) { forall i :: 0 <= i < |s| ==> IsReferenceChar(s[i]) }

  /** A reference-sequence identifier such as a transcript accession with its version. */
  type ReferenceId = s: seq<char> | |s| > 0 && AllReferenceChars(s) witness "NM"

  /** `-` in front of the number: upstream of the CDS start; `*`: downstream of the CDS end. */
  datatype UtrPrefix = NoUtr | Upstream | Downstream

  /** `+n` or `-n` after the number: that many bases into the intron after or before the anchor base. */
  datatype IntronOffset = NoOffset | Plus(n: nat) | Minus(n: nat)

  datatype NtPoint = NtPoint(utr: UtrPrefix, basePos: nat, offset: IntronOffset)

  datatype NtLocation = Point(p: NtPoint) | Range(first: NtPoint, last: NtPoint)

  /** What a change says of an affected sequence: nothing, the literal bases, or only their number. */
  datatype Payload = NoPayload | Sequence(bases: Bases) | Length(len: nat)

  datatype Change =
    | Substitution(pos: NtPoint, fromBase: Base, toBase: Base)
    | Deletion(loc: NtLocation, deleted: Payload)
    | Insertion(loc: NtLocation, inserted: Payload)
    | Duplication(loc: NtLocation, duplicated: Payload)
    | Inversion(loc: NtLocation, inverted: Payload)
    | Indel(loc: NtLocation, deleted: Payload, inserted: Payload)

  /** The changes of one allele, in the order the author wrote them. */
  type Allele = cs: seq<Change> | |cs| > 0 witness [Deletion(Point(NtPoint(NoUtr, 1, NoOffset)), NoPayload)]

  /** Two or more alleles. */
  type AlleleList = s: seq<Allele> | |s| >= 2
    witness [[Deletion(Point(NtPoint(NoUtr, 1, NoOffset)), NoPayload)], [Deletion(Point(NtPoint(NoUtr, 1, NoOffset)), NoPayload)]]

  /** The allele list that starts with `a` and goes on with `more`. */
  function JoinAlleles(a: Allele, more: seq<Allele>): (r: AlleleList)
    requires |more| > 0
    ensures |r| == |more| + 1 && r[0] == a && r[1..] == more
  {
    [a] + more
  }

  /** The coordinate marker: `c.` coding, `g.` genomic, `m.` mitochondrial, `n.` non-coding. */
  datatype CoordType = Coding | Genomic | Mitochondrial | NonCoding

  datatype NtVariant =
    | SingleAllele(ref: ReferenceId, coord: CoordType, allele: Allele)
    | MultiAllele(ref: ReferenceId, coord: CoordType, alleles: AlleleList)

  // ---------------------------------------------------------------- printing

  function UtrText(u: UtrPrefix): string {
    match u
    case NoUtr => ""
    case Upstream => "-"
    case Downstream => "*"
  }

  function OffsetText(o: IntronOffset): string {
    match o
    case NoOffset => ""
    case Plus(n) => "+" + NatToString(n)
    case Minus(n) => "-" + NatToString(n)
  }

  function PointText(p: NtPoint): string {
    UtrText(p.utr) + NatToString(p.basePos) + OffsetText(p.offset)
  }

  function LocationText(l: NtLocation): string {
    match l
    case Point(p) => PointText(p)
    case Range(a, b) => if a == b then PointText(a) else PointText(a) + "_" + PointText(b)
  }

  function PayloadText(pl: Payload): string {
    match pl
    case NoPayload => ""
    case Sequence(bs) => bs
    case Length(n) => NatToString(n)
  }

  function ChangeText(c: Change): string {
    match c
    case Substitution(p, x, y) => PointText(p) + [x] + ">" + [y]
    case Deletion(l, d) => LocationText(l) + "del" + PayloadText(d)
    case Insertion(l, i) => LocationText(l) + "ins" + PayloadText(i)
    case Duplication(l, d) => LocationText(l) + "dup" + PayloadText(d)
    case Inversion(l, i) => LocationText(l) + "inv" + PayloadText(i)
    case Indel(l, d, i) => LocationText(l) + "del" + PayloadText(d) + "ins" + PayloadText(i)
  }

  /** The changes separated by `,`. */
  function ChangesText(cs: seq<Change>): string
    requires |cs| > 0
  {
    if |cs| == 1 then ChangeText(cs[0]) else ChangeText(cs[0]) + "," + ChangesText(cs[1..])
  }

  function AlleleText(a: Allele): string {
    "[" + ChangesText(a) + "]"
  }

  /** Each allele after the first, preceded by `;`. */
  function MoreAllelesText(als: seq<Allele>): string {
    if als == [] then "" else ";" + AlleleText(als[0]) + MoreAllelesText(als[1..])
  }

  function CoordText(t: CoordType): string {
    match t
    case Coding => "c."
    case Genomic => "g."
    case Mitochondrial => "m."
    case NonCoding => "n."
  }

  /** A single allele of one change is printed bare; otherwise every allele is bracketed. */
  function BodyText(v: NtVariant): string {
    match v
    case SingleAllele(_, _, a) => if |a| == 1 then ChangeText(a[0]) else AlleleText(a)
    case MultiAllele(_, _, als) => AlleleText(als[0]) + MoreAllelesText(als[1..])
  }

  /** The reference, a colon, the two-character coordinate marker, then the body. */
  function ToHGVSString(v: NtVariant): string {
    v.ref + ":" + CoordText(v.coord) + BodyText(v)
  }

  // ---------------------------------------------------------- canonical form

  /** A range whose endpoints are the same denotes that single location. */
  function NormalizeLocation(l: NtLocation): NtLocation {
    if l.Range? && l.first == l.last then Point(l.first) else l
  }

  function NormalizeChange(c: Change): Change {
    match c
    case Substitution(_, _, _) => c
    case Deletion(l, d) => Deletion(NormalizeLocation(l), d)
    case Insertion(l, i) => Insertion(NormalizeLocation(l), i)
    case Duplication(l, d) => Duplication(NormalizeLocation(l), d)
    case Inversion(l, i) => Inversion(NormalizeLocation(l), i)
    case Indel(l, d, i) => Indel(NormalizeLocation(l), d, i)
  }

  function NormalizeChanges(cs: seq<Change>): (r: seq<Change>)
    ensures |r| == |cs|
    ensures forall i :: 0 <= i < |cs| ==> r[i] == NormalizeChange(cs[i])
  {
    if cs == [] then [] else [NormalizeChange(cs[0])] + NormalizeChanges(cs[1..])
  }

  function NormalizeAlleles(als: seq<Allele>): (r: seq<Allele>)
    ensures |r| == |als|
    ensures forall i :: 0 <= i < |als| ==> r[i] == NormalizeChanges(als[i])
  {
    if als == [] then [] else [NormalizeChanges(als[0])] + NormalizeAlleles(als[1..])
  }

  /** Keeps reference, coordinate space, shape and every count; only equal-endpoint ranges change. */
  function Normalize(v: NtVariant): (r: NtVariant)
    ensures r.ref == v.ref && r.coord == v.coord && r.SingleAllele? == v.SingleAllele?
    ensures r.SingleAllele? ==> |r.allele| == |v.allele|
    ensures r.MultiAllele? ==> |r.alleles| == |v.alleles|
    ensures r.MultiAllele? ==> forall i :: 0 <= i < |v.alleles| ==> |r.alleles[i]| == |v.alleles[i]|
  {
    match v
    case SingleAllele(ref, t, a) => SingleAllele(ref, t, NormalizeChanges(a))
    case MultiAllele(ref, t, als) => MultiAllele(ref, t, NormalizeAlleles(als))
  }

  predicate CanonicalLocation(l: NtLocation) { !(l.Range? && l.first == l.last) }

  predicate CanonicalChange(c: Change) { !c.Substitution? ==> CanonicalLocation(c.loc) }

  predicate CanonicalChanges(cs: seq<Change>) { forall i :: 0 <= i < |cs| ==> CanonicalChange(cs[i]) }

  /** No change of the variant is anchored at a range with equal endpoints. */
  predicate Canonical(v: NtVariant) {
    match v
    case SingleAllele(_, _, a) => CanonicalChanges(a)
    case MultiAllele(_, _, als) => forall i :: 0 <= i < |als| ==> CanonicalChanges(als[i])
  }
}
