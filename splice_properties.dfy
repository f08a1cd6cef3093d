/** What the forward-strand splice classifier and annotator promise, stated over all inputs. */
module SpliceProperties {
  import opened SpliceAnnotation

  /** A gene with one exon has no intron, so no locus is a splice variant. */
  lemma SingleExonNeverSplice(g: KnownGene, start: int, end: int, ref: string, alt: string, k: int)
    requires g.exonCount == 1
    ensures !IsSpliceVariantPlusStrand(g, start, end, ref, alt, k)
  {
  }

  /**
   * The first exon of a multi-exon gene is tested on its donor side only: the
   * answer depends on the exon end and not at all on the exon start.
   */
  lemma FirstExonDonorOnly(g: KnownGene, start: int, end: int, ref: string, alt: string)
    requires g.exonCount != 1 && HasExon(g, 0)
    ensures IsSpliceVariantPlusStrand(g, start, end, ref, alt, 0) <==> DonorHit(start, end, g.exonEnds[0])
  {
  }

  /** For a single base at the first exon, the window is exactly exonEnd-T+1 .. exonEnd+T. */
  lemma FirstExonSingleBaseWindow(g: KnownGene, pos: int, ref: string, alt: string)
    requires g.exonCount != 1 && HasExon(g, 0)
    ensures IsSpliceVariantPlusStrand(g, pos, pos, ref, alt, 0) <==>
      g.exonEnds[0] - SPLICING_THRESHOLD + 1 <= pos <= g.exonEnds[0] + SPLICING_THRESHOLD
  {
  }

  /** The last exon of a multi-exon gene is tested on its acceptor side only. */
  lemma LastExonAcceptorOnly(g: KnownGene, start: int, end: int, ref: string, alt: string)
    requires g.exonCount != 1 && g.exonCount >= 1 && HasExon(g, g.exonCount - 1)
    ensures IsSpliceVariantPlusStrand(g, start, end, ref, alt, g.exonCount - 1) <==>
      AcceptorHit(start, end, g.exonStarts[g.exonCount - 1])
  {
  }

  /** For a single base at the last exon, the window is exactly exonStart-T .. exonStart+T-1. */
  lemma LastExonSingleBaseWindow(g: KnownGene, pos: int, ref: string, alt: string)
    requires g.exonCount > 1 && HasExon(g, g.exonCount - 1)
    ensures IsSpliceVariantPlusStrand(g, pos, pos, ref, alt, g.exonCount - 1) <==>
      g.exonStarts[g.exonCount - 1] - SPLICING_THRESHOLD <= pos <= g.exonStarts[g.exonCount - 1] + SPLICING_THRESHOLD - 1
  {
  }

  /** An interior exon is tested on both sides. */
  lemma InteriorExonBothSides(g: KnownGene, start: int, end: int, ref: string, alt: string, k: int)
    requires 0 < k < g.exonCount - 1 && HasExon(g, k)
    ensures IsSpliceVariantPlusStrand(g, start, end, ref, alt, k) <==>
      DonorHit(start, end, g.exonEnds[k]) || AcceptorHit(start, end, g.exonStarts[k])
  {
  }

  /** Either endpoint alone in a tested window is enough: `end` is tested exactly like `start`. */
  lemma EndpointInWindowIsSplice(g: KnownGene, start: int, end: int, ref: string, alt: string, k: int, x: int)
    requires g.exonCount != 1 && HasExon(g, k)
    requires x == start || x == end
    requires (TestsDonor(g, k) && InDonorWindow(x, g.exonEnds[k])) ||
             (TestsAcceptor(g, k) && InAcceptorWindow(x, g.exonStarts[k]))
    ensures IsSpliceVariantPlusStrand(g, start, end, ref, alt, k)
  {
  }

  /** Monotonicity: if the base at `start` alone, or the base at `end` alone, is a splice variant, so is the locus. */
  lemma EndpointAloneSuffices(g: KnownGene, start: int, end: int, ref: string, alt: string, k: int)
    requires g.exonCount != 1 && HasExon(g, k)
    ensures IsSpliceVariantPlusStrand(g, start, start, ref, alt, k) || IsSpliceVariantPlusStrand(g, end, end, ref, alt, k)
        ==> IsSpliceVariantPlusStrand(g, start, end, ref, alt, k)
  {
  }

  /** A locus straddling a tested boundary is a splice variant even with both endpoints far from it. */
  lemma SpanningBoundaryIsSplice(g: KnownGene, start: int, end: int, ref: string, alt: string, k: int, b: int)
    requires g.exonCount != 1 && HasExon(g, k)
    requires (TestsDonor(g, k) && b == g.exonEnds[k]) || (TestsAcceptor(g, k) && b == g.exonStarts[k])
    requires start <= b <= end
    ensures IsSpliceVariantPlusStrand(g, start, end, ref, alt, k)
  {
  }

  /** The first exon of the two-exon forward-strand test transcript uc009vmz.1 (exons 11539294..11539429 and 11541314..11541938). */
  function TestTranscript(): KnownGene {
    KnownGene("uc009vmz.1", "uc009vmz.1", 2, [11539294, 11541314], [11539429, 11541938], 11539294)
  }

  /** The donor window after exon end 11539429 is 11539428 .. 11539431, both ends included. */
  lemma TestTranscriptDonorWindow()
    ensures !IsSpliceVariantPlusStrand(TestTranscript(), 11539427, 11539427, "A", "C", 0)
    ensures IsSpliceVariantPlusStrand(TestTranscript(), 11539428, 11539428, "A", "C", 0)
    ensures IsSpliceVariantPlusStrand(TestTranscript(), 11539429, 11539429, "A", "C", 0)
    ensures IsSpliceVariantPlusStrand(TestTranscript(), 11539430, 11539430, "A", "C", 0)
    ensures IsSpliceVariantPlusStrand(TestTranscript(), 11539431, 11539431, "A", "C", 0)
    ensures !IsSpliceVariantPlusStrand(TestTranscript(), 11539432, 11539432, "A", "C", 0)
    ensures !IsSpliceVariantPlusStrand(TestTranscript(), 11539294, 11539294, "A", "C", 0)
    ensures IsSpliceVariantPlusStrand(TestTranscript(), 11539300, 11539500, "A", "C", 0)
  {
  }

  /** A precise record always lies within T bases outside exon `k`, on the side it names. */
  lemma PreciseRecordDistance(g: KnownGene, start: int, end: int, ref: string, alt: string, k: int, cumlenexon: int)
    requires IsPreciseCandidate(g, start, end) ==> HasExon(g, k)
    ensures var r := GetSpliceAnnotationPlusStrand(g, start, end, ref, alt, k, cumlenexon);
      (r.Acceptor? || r.Donor?) ==> 1 <= r.dist <= SPLICING_THRESHOLD && start == end
    ensures var r := GetSpliceAnnotationPlusStrand(g, start, end, ref, alt, k, cumlenexon);
      r.Acceptor? ==> start == g.exonStarts[k] - r.dist && InAcceptorWindow(start, g.exonStarts[k])
    ensures var r := GetSpliceAnnotationPlusStrand(g, start, end, ref, alt, k, cumlenexon);
      r.Donor? ==> start == g.exonEnds[k] + r.dist && InDonorWindow(start, g.exonEnds[k])
  {
  }

  /** A locus of more than one base, or one before the CDS start, always gets the generic record. */
  lemma NonCandidateIsComplicated(g: KnownGene, start: int, end: int, ref: string, alt: string, k: int, cumlenexon: int)
    requires !IsPreciseCandidate(g, start, end)
    ensures GetSpliceAnnotationPlusStrand(g, start, end, ref, alt, k, cumlenexon) == Complicated(g.name2, g.name, k + 1)
  {
  }

  /**
   * The annotator agrees with the classifier: a precise acceptor record is only
   * produced where an exon that is tested on its acceptor side would be classified
   * as splice, and likewise for the donor side.
   */
  lemma PreciseRecordIsSpliceRegion(g: KnownGene, start: int, end: int, ref: string, alt: string, k: int, cumlenexon: int)
    requires g.exonCount != 1 && HasExon(g, k)
    ensures var r := GetSpliceAnnotationPlusStrand(g, start, end, ref, alt, k, cumlenexon);
      r.Acceptor? && TestsAcceptor(g, k) ==> IsSpliceVariantPlusStrand(g, start, end, ref, alt, k)
    ensures var r := GetSpliceAnnotationPlusStrand(g, start, end, ref, alt, k, cumlenexon);
      r.Donor? && TestsDonor(g, k) ==> IsSpliceVariantPlusStrand(g, start, end, ref, alt, k)
  {
  }

  /**
   * When `cumlenexon` is some count `before` plus the length of exon `k`
   * (end - start + 1 bases), the acceptor record's coding number is
   * `before + 1`: the number of the first base of exon `k`.
   */
  lemma AcceptorNumbersFirstExonBase(g: KnownGene, pos: int, ref: string, alt: string, k: int, before: int, cumlenexon: int)
    requires HasExon(g, k) && pos >= g.cdsStart
    requires g.exonStarts[k] - SPLICING_THRESHOLD <= pos < g.exonStarts[k]
    requires cumlenexon == before + (g.exonEnds[k] - g.exonStarts[k] + 1)
    ensures GetSpliceAnnotationPlusStrand(g, pos, pos, ref, alt, k, cumlenexon) ==
      Acceptor(g.name2, g.name, k + 1, before + 1, g.exonStarts[k] - pos, ref, alt)
  {
  }

  /** The reverse-strand entry points never classify and never annotate. */
  lemma MinusStrandUnsupported(g: KnownGene, start: int, end: int, ref: string, alt: string, k: int, cumlenexon: int)
    ensures IsSpliceVariantMinusStrand(g, start, end, ref, alt, k) != Computed(true)
    ensures GetSpliceAnnotationMinusStrand(g, start, end, ref, alt, k, cumlenexon).NotImplemented?
  {
  }
}
