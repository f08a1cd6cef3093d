/**
 * Splice-site classification and annotation for a variant against one exon of a
 * transcript on the forward strand, with the reverse-strand entry points as the
 * unimplemented stubs they are.
 *
 * Coordinates are genomic integers as the transcript model gives them; `k` is the
 * zero-based number of the exon under consideration.
 */
module SpliceAnnotation {

  /** The transcript model: only the parts the splice code reads. */
  datatype KnownGene = KnownGene(
    name: string,              // transcript accession
    name2: string,             // gene symbol
    exonCount: int,
    exonStarts: seq<int>,
    exonEnds: seq<int>,
    cdsStart: int)

  /** Number of bases on either side of an exon/intron boundary that count as splice region. */
  const SPLICING_THRESHOLD: int := 2

  /** True when exon `k` exists in both coordinate lists, so its bounds can be read. */
  predicate HasExon(g: KnownGene, k: int) {
    0 <= k < |g.exonStarts| && k < |g.exonEnds|
  }

  /** The donor window of an exon ending at `exonEnd`: its last T bases and the first T intron bases. */
  predicate InDonorWindow(x: int, exonEnd: int) {
    exonEnd - SPLICING_THRESHOLD + 1 <= x <= exonEnd + SPLICING_THRESHOLD
  }

  /** The acceptor window of an exon starting at `exonStart`: the last T intron bases and its first T bases. */
  predicate InAcceptorWindow(x: int, exonStart: int) {
    exonStart - SPLICING_THRESHOLD <= x <= exonStart + SPLICING_THRESHOLD - 1
  }

  /** The locus `start..end` touches the boundary at `b`: an endpoint in the window, or the locus spans `b`. */
  predicate DonorHit(start: int, end: int, exonEnd: int) {
    InDonorWindow(start, exonEnd) || InDonorWindow(end, exonEnd) || (start <= exonEnd && end >= exonEnd)
  }

  predicate AcceptorHit(start: int, end: int, exonStart: int) {
    InAcceptorWindow(start, exonStart) || InAcceptorWindow(end, exonStart) || (start <= exonStart && end >= exonStart)
  }

  /** Which boundaries of exon `k` are tested: the donor side unless it is the last exon, the acceptor side unless it is the first. */
  predicate TestsDonor(g: KnownGene, k: int) {
    k == 0 || (0 < k < g.exonCount - 1)
  }

  predicate TestsAcceptor(g: KnownGene, k: int) {
    k == g.exonCount - 1 || (0 < k < g.exonCount - 1)
  }

  /**
   * The classification by boundary role: a gene with more than one exon, and a
   * tested boundary of exon `k` that the locus touches.
   */
  predicate IsSpliceRegion(g: KnownGene, start: int, end: int, k: int)
    requires g.exonCount == 1 || HasExon(g, k)
    ensures IsSpliceRegion(g, start, end, k) ==> 0 <= k && (k == 0 || k < g.exonCount)
  {
    g.exonCount != 1 &&
    ((TestsDonor(g, k) && DonorHit(start, end, g.exonEnds[k])) ||
     (TestsAcceptor(g, k) && AcceptorHit(start, end, g.exonStarts[k])))
  }

  /**
   * Forward-strand splice test, in the order the classifier checks: the window
   * tests on `start`, the same tests on `end`, then a locus straddling a boundary.
   * `ref` and `alt` are accepted and not consulted.
   */
  function IsSpliceVariantPlusStrand(g: KnownGene, start: int, end: int, ref: string, alt: string, k: int): (r: bool)
    requires g.exonCount == 1 || HasExon(g, k)
    ensures r <==> IsSpliceRegion(g, start, end, k)
  {
    if g.exonCount == 1 then false
    else
      var exonEnd := g.exonEnds[k];
      var exonStart := g.exonStarts[k];
      var T := SPLICING_THRESHOLD;
      if k == 0 && start >= exonEnd - T + 1 && start <= exonEnd + T then true
      else if k == g.exonCount - 1 && start >= exonStart - T && start <= exonStart + T - 1 then true
      else if k > 0 && k < g.exonCount - 1 && start >= exonStart - T && start <= exonStart + T - 1 then true
      else if k > 0 && k < g.exonCount - 1 && start >= exonEnd - T + 1 && start <= exonEnd + T then true
      else if k == 0 && end >= exonEnd - T + 1 && end <= exonEnd + T then true
      else if k == g.exonCount - 1 && end >= exonStart - T && end <= exonStart + T - 1 then true
      else if k > 0 && k < g.exonCount - 1 && end >= exonStart - T && end <= exonStart + T - 1 then true
      else if k > 0 && k < g.exonCount - 1 && end >= exonEnd - T + 1 && end <= exonEnd + T then true
      else if k == 0 && start <= exonEnd && end >= exonEnd then true
      else if k == g.exonCount - 1 && start <= exonStart && end >= exonStart then true
      else if k > 0 && k < g.exonCount - 1 && start <= exonStart && end >= exonStart then true
      else if k > 0 && k < g.exonCount - 1 && start <= exonEnd && end >= exonEnd then true
      else false
  }

  /** A result of a strand-specific entry point: computed, or not implemented for this strand. */
  datatype StrandOutcome<T> = Computed(value: T) | NotImplemented

  /** Reverse-strand classification is not implemented; it never reports a splice variant. */
  function IsSpliceVariantMinusStrand(g: KnownGene, start: int, end: int, ref: string, alt: string, k: int): (r: StrandOutcome<bool>)
    ensures r.NotImplemented?
  {
    NotImplemented
  }

  /** The structured splice annotation (the source renders these as text). */
  datatype SpliceRecord =
    | Acceptor(gene: string, tx: string, exonNo: int, cpos: int, dist: int, ref: string, alt: string)
        // c.<cpos>-<dist><ref>><alt>: <dist> bases in front of the exon that starts at coding position <cpos>
    | Donor(gene: string, tx: string, exonNo: int, cpos: int, dist: int, ref: string, alt: string)
        // c.<cpos>+<dist><ref>><alt>: <dist> bases after the exon that ends at coding position <cpos>
    | Complicated(gene: string, tx: string, exonNo: int)
        // any other splice variant: only gene, transcript and exon number

  /** A single-nucleotide variant at or after the CDS start: the only kind given a precise record. */
  predicate IsPreciseCandidate(g: KnownGene, start: int, end: int) {
    start == end && start >= g.cdsStart
  }

  /**
   * Forward-strand splice annotation. `cumlenexon` is the coding length up to the
   * end of exon `k`; the acceptor case takes back all but one base of exon `k` to
   * reach the coding number of its first base.
   */
  function GetSpliceAnnotationPlusStrand(g: KnownGene, start: int, end: int, ref: string, alt: string, k: int, cumlenexon: int): (r: SpliceRecord)
    requires IsPreciseCandidate(g, start, end) ==> HasExon(g, k)
    ensures r.gene == g.name2 && r.tx == g.name && r.exonNo == k + 1
    ensures r.Acceptor? <==>
      IsPreciseCandidate(g, start, end) && g.exonStarts[k] - SPLICING_THRESHOLD <= start < g.exonStarts[k]
    ensures r.Donor? <==>
      IsPreciseCandidate(g, start, end) && !(g.exonStarts[k] - SPLICING_THRESHOLD <= start < g.exonStarts[k]) &&
      g.exonEnds[k] < start <= g.exonEnds[k] + SPLICING_THRESHOLD
    ensures r.Acceptor? ==>
      r.cpos == cumlenexon - (g.exonEnds[k] - g.exonStarts[k]) && r.dist == g.exonStarts[k] - start &&
      r.ref == ref && r.alt == alt
    ensures r.Donor? ==> r.cpos == cumlenexon && r.dist == start - g.exonEnds[k] && r.ref == ref && r.alt == alt
  {
    if start == end && start >= g.cdsStart then
      var exonEnd := g.exonEnds[k];
      var exonStart := g.exonStarts[k];
      if start >= exonStart - SPLICING_THRESHOLD && start < exonStart then
        var firstBase := cumlenexon - (exonEnd - exonStart);
        Acceptor(g.name2, g.name, k + 1, firstBase, exonStart - start, ref, alt)
      else if start > exonEnd && start <= exonEnd + SPLICING_THRESHOLD then
        Donor(g.name2, g.name, k + 1, cumlenexon, start - exonEnd, ref, alt)
      else
        Complicated(g.name2, g.name, k + 1)
    else
      Complicated(g.name2, g.name, k + 1)
  }

  /** Reverse-strand annotation is not implemented; there is no record. */
  function GetSpliceAnnotationMinusStrand(g: KnownGene, start: int, end: int, ref: string, alt: string, k: int, cumlenexon: int): (r: StrandOutcome<SpliceRecord>)
    ensures r.NotImplemented?
  {
    NotImplemented
  }
}
