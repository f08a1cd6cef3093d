# Splice annotation, position conventions and HGVS nucleotide variants

A Dafny model of three connected parts of the Jannovar/Exomizer variant
annotation code, with proofs of what each part promises.

1. **Splice-site classification and annotation** (`splice_annotation.dfy`,
   `splice_properties.dfy`). For exon `k` of a transcript on the forward
   strand, `IsSpliceVariantPlusStrand` decides whether the locus
   `start..end` is within `SPLICING_THRESHOLD = 2` bases of a tested
   exon/intron boundary, or spans one. It follows the classifier's twelve
   branches in their order. `IsSpliceRegion` restates the same decision by
   boundary role: the first exon is tested only on its donor side, the last
   exon only on its acceptor side, and interior exons on both sides. The two
   are proved equal. `GetSpliceAnnotationPlusStrand` builds an `Acceptor`,
   `Donor` or `Complicated` record. The source formats these as text; here
   they are structured values. The reverse-strand entry points are
   stubs in the source, so here they return an explicit `NotImplemented`.
2. **CDS position conventions** (`cds_position.dfy`). A position carries
   its numbering convention, `ONE_BASED` or `ZERO_BASED`. Conversion builds a
   new position that denotes the same base.
   **Protein ranges** (`protein_range.dfy`). Point locations are stored
   0-based and printed 1-based, with one-letter or three-letter residue codes.
   A range prints as `first_last`, or as the single location when both
   endpoints are equal. A reader for the printed form proves that printing
   loses nothing.
3. **HGVS nucleotide variant grammar** (`nucleotide_variant.dfy`,
   `nucleotide_parser.dfy`, `nucleotide_round_trip.dfy`,
   `nucleotide_properties.dfy`, `nucleotide_examples.dfy`).
   - The AST has point locations with an optional `-`/`*` UTR prefix and an
     optional `+n`/`-n` intronic offset, ranges, and six change kinds:
     substitution, `del`, `ins`, `dup`, `inv` and `delins`.
   - A `del` or `ins` payload is none, a base sequence or a length.
   - A variant is either one allele (a bare change, or `[c1,c2,...]`) or
     several alleles `[...];[...]`.
   - `ToHGVSString` prints the AST and `ParseHGVSString` reads it back,
     returning `Option`.
   - The central theorem: parsing any printed variant gives back the variant
     in canonical form. A range with equal endpoints becomes a point.
     Consequences: a canonical variant survives print-then-parse unchanged,
     printing is injective on canonical variants, and printing the parse of
     a printed text gives the same text back.
   - Every string in the indel, multi-allele and driver tests is proved to
     parse to the expected AST. The driver strings are also proved to print
     back to themselves.

`wrappers.dfy` holds the `Option` type. `numerals.dfy` holds decimal
numerals: the printer, the reader, and the proof that reading a printed
numeral gives the number back.

## Model

| member | source | states |
|---|---|---|
| SpliceAnnotation.IsSpliceVariantPlusStrand | Exomizer/src/exomizer/annotation/SpliceAnnotation.java:28-90 | the classifier answers true exactly when `IsSpliceRegion` holds: on a gene whose exon count is not 1, a tested donor/acceptor window contains `start` or `end`, or the locus spans a tested boundary |
| SpliceAnnotation.IsSpliceRegion | Exomizer/src/exomizer/annotation/SpliceAnnotation.java:29-50 | the reference definition by boundary role (first exon donor only, last exon acceptor only, interior exons both); an index past the last exon is never splice: a splice `k` is `0`, tested as the first exon whatever the exon count, or below `exonCount` |
| SpliceAnnotation.IsSpliceVariantMinusStrand | Exomizer/src/exomizer/annotation/SpliceAnnotation.java:102-106 | reverse-strand classification is reported as not implemented |
| SpliceAnnotation.GetSpliceAnnotationPlusStrand | Exomizer/src/exomizer/annotation/SpliceAnnotation.java:144-171 | the record names gene, transcript and exon `k+1`; it is an acceptor exactly for a single base at or after the CDS start that is 1..T bases in front of the exon, numbered `cumlenexon-(exonend-exonstart)` at distance `exonstart-start`; a donor exactly for such a base 1..T bases after the exon (and not an acceptor), numbered `cumlenexon` at distance `start-exonend`; otherwise the complicated record |
| SpliceAnnotation.GetSpliceAnnotationMinusStrand | Exomizer/src/exomizer/annotation/SpliceAnnotation.java:174-178 | reverse-strand annotation is reported as not implemented, with no record |
| SpliceProperties.SingleExonNeverSplice | Exomizer/src/exomizer/annotation/SpliceAnnotation.java:29 | a one-exon gene is never a splice variant, for any locus and exon index |
| SpliceProperties.FirstExonDonorOnly | Exomizer/src/exomizer/annotation/SpliceAnnotation.java:32-36 | on the first exon the answer is exactly the donor test on the exon end; the exon start plays no part |
| SpliceProperties.FirstExonSingleBaseWindow | Exomizer/src/exomizer/annotation/SpliceAnnotation.java:32-36 | a single base on the first exon is splice exactly when `exonend-T+1 <= pos <= exonend+T` |
| SpliceProperties.LastExonAcceptorOnly | Exomizer/src/exomizer/annotation/SpliceAnnotation.java:37-41 | on the last exon the answer is exactly the acceptor test on the exon start |
| SpliceProperties.LastExonSingleBaseWindow | Exomizer/src/exomizer/annotation/SpliceAnnotation.java:37-41 | a single base on the last exon is splice exactly when `exonstart-T <= pos <= exonstart+T-1` |
| SpliceProperties.InteriorExonBothSides | Exomizer/src/exomizer/annotation/SpliceAnnotation.java:42-50 | an interior exon is splice exactly when the donor or the acceptor side is hit |
| SpliceProperties.EndpointInWindowIsSplice | Exomizer/src/exomizer/annotation/SpliceAnnotation.java:53-71 | `end` is tested against the same windows as `start`: either endpoint in a tested window makes the locus splice |
| SpliceProperties.EndpointAloneSuffices | Exomizer/src/exomizer/annotation/SpliceAnnotation.java:32-71 | monotone: if the single base at `start` or at `end` is splice, so is the locus `start..end` |
| SpliceProperties.SpanningBoundaryIsSplice | Exomizer/src/exomizer/annotation/SpliceAnnotation.java:73-89 | a locus with `start <= b <= end` for a tested boundary `b` is splice even with both endpoints outside the windows |
| SpliceProperties.TestTranscriptDonorWindow | Exomizer/src/exomizer/annotation/SpliceAnnotation.java:32-36 | on a two-exon transcript with first exon end 11539429, the donor window is exactly 11539428..11539431 (each of the four bases checked, and 11539427 and 11539432 outside it); a far base is not splice and a long locus over the end is |
| SpliceProperties.PreciseRecordDistance | Exomizer/src/exomizer/annotation/SpliceAnnotation.java:146-163 | a precise record is for a single base, at distance 1..T, in front of the exon (acceptor) or after it (donor), on the side it names |
| SpliceProperties.NonCandidateIsComplicated | Exomizer/src/exomizer/annotation/SpliceAnnotation.java:146-169 | a locus of more than one base, or one before the CDS start, always gets `Complicated(gene, tx, k+1)` |
| SpliceProperties.PreciseRecordIsSpliceRegion | Exomizer/src/exomizer/annotation/SpliceAnnotation.java:146-163 | annotator and classifier agree: an acceptor or donor record on a side that exon tests implies the classifier reports splice |
| SpliceProperties.AcceptorNumbersFirstExonBase | Exomizer/src/exomizer/annotation/SpliceAnnotation.java:149-154 | when `cumlenexon` is any count `before` plus the length `exonend-exonstart+1` of exon `k`, the acceptor record is numbered `before+1`, the first base of exon `k` |
| SpliceProperties.MinusStrandUnsupported | Exomizer/src/exomizer/annotation/SpliceAnnotation.java:102-177 | the reverse-strand entry points never report a splice variant and never produce a record |
| CdsPosition.NewCDSPosition | src/test/java/jannovar/reference/CDSPositionTest.java:36-41 | a position built without a convention keeps transcript and offset and is one-based |
| CdsPosition.NewCDSPositionWithType | src/test/java/jannovar/reference/CDSPositionTest.java:44-49 | a position built with a convention keeps transcript, offset and that convention |
| CdsPosition.Convert | src/test/java/jannovar/reference/CDSPositionTest.java:52-69 | conversion keeps the transcript, takes the target convention and denotes the same base |
| CdsPosition.ConvertRoundTrip | src/test/java/jannovar/reference/CDSPositionTest.java:52-69 | converting to any convention and back returns the original position |
| CdsPosition.ConvertShift | src/test/java/jannovar/reference/CDSPositionTest.java:52-69 | the offset moves by -1 one-based to zero-based, +1 zero-based to one-based, 0 otherwise |
| CdsPosition.SameBaseIffSameConversion | src/test/java/jannovar/reference/CDSPositionTest.java:52-69 | two positions convert to equal positions exactly when they denote the same base of the same transcript |
| CdsPosition.ConventionIsPartOfEquality | src/test/java/jannovar/reference/CDSPositionTest.java:53-57 | one-based 23 and zero-based 22 denote the same base yet are unequal values |
| CdsPosition.ConvertExamples | src/test/java/jannovar/reference/CDSPositionTest.java:36-69 | the four test cases: default one-based 10, explicit zero-based 10, one-based 23 to zero-based 22, zero-based 23 to one-based 24 |
| ProteinRange.FromOneLetterOfOneLetter | jannovar-hgvs/src/test/java/de/charite/compbio/jannovar/hgvs/change/protein/ProteinRangeTest.java:35 | the one-letter code of a residue reads back as that residue |
| ProteinRange.FromThreeLetterOfThreeLetter | jannovar-hgvs/src/test/java/de/charite/compbio/jannovar/hgvs/change/protein/ProteinRangeTest.java:36 | the three-letter code of a residue reads back as that residue |
| ProteinRange.ParseResidueOfText | jannovar-hgvs/src/test/java/de/charite/compbio/jannovar/hgvs/change/protein/ProteinRangeTest.java:35-36 | a printed residue in either code, followed by anything, reads back as that residue with the rest left over |
| ProteinRange.ParseLocationOfText | jannovar-hgvs/src/test/java/de/charite/compbio/jannovar/hgvs/change/protein/ProteinRangeTest.java:17-35 | a location printed as its 1-based number and residue reads back as the 0-based location |
| ProteinRange.ParseOfToHGVSString | jannovar-hgvs/src/test/java/de/charite/compbio/jannovar/hgvs/change/protein/ProteinRangeTest.java:33-48 | reading back a printed range gives the range, in either code, including a range with equal endpoints |
| ProteinRange.ToHGVSStringInjective | jannovar-hgvs/src/test/java/de/charite/compbio/jannovar/hgvs/change/protein/ProteinRangeTest.java:33-48 | two ranges print alike in one code exactly when they are equal |
| ProteinRange.LocationEquality | jannovar-hgvs/src/test/java/de/charite/compbio/jannovar/hgvs/change/protein/ProteinRangeTest.java:17-25 | printing a location is injective: two locations print alike in one code exactly when they are equal |
| ProteinRange.DegenerateRangePrintsAsLocation | jannovar-hgvs/src/test/java/de/charite/compbio/jannovar/hgvs/change/protein/ProteinRangeTest.java:43-48 | for every location and code, the one-location range prints as that location's own text, which contains no `_` |
| ProteinRange.CodesShareNumbering | jannovar-hgvs/src/test/java/de/charite/compbio/jannovar/hgvs/change/protein/ProteinRangeTest.java:35-36 | the two codes print texts that agree on the leading 1-based number, and the three-letter text is exactly two characters longer |
| ProteinRange.LocationToHGVSString | jannovar-hgvs/src/test/java/de/charite/compbio/jannovar/hgvs/change/protein/ProteinRangeTest.java:35-36 | a printed location starts with a digit and contains no `_` |
| ProteinRange.ToHGVSString | jannovar-hgvs/src/test/java/de/charite/compbio/jannovar/hgvs/change/protein/ProteinRangeTest.java:33-48 | the text contains `_` exactly when the endpoints differ; with equal endpoints it is the location's own text |
| ProteinRange.ParseProteinRange | jannovar-hgvs/src/test/java/de/charite/compbio/jannovar/hgvs/change/protein/ProteinRangeTest.java:33-48 | a range read with distinct endpoints comes from a text containing `_` (its round trip with the printer is `ProteinRange.ParseOfToHGVSString`) |
| ProteinRange.ToHGVSStringExamples | jannovar-hgvs/src/test/java/de/charite/compbio/jannovar/hgvs/change/protein/ProteinRangeTest.java:17-48 | the test values: 123A equals 123A, 125G differs from it; the ranges print `124A_126G`, `124Ala_126Gly`, `124A`, `124Ala` |
| NucleotideVariant.Normalize | jannovar-hgvs/src/test/java/de/charite/compbio/jannovar/hgvs/parser/HGVSParserDriverNucleotideDeletionTest.java:26-47 | the canonical form keeps reference, coordinate type, single- or multi-allele shape, the number of alleles and the number of changes in each |
| NucleotideProperties.ToHGVSStringLayout | jannovar-hgvs/src/test/java/de/charite/compbio/jannovar/hgvs/parser/HGVSParserDriverNucleotideDeletionTest.java:33 | the printer's layout: a printed variant is its reference, `:`, the two-character coordinate marker, then the body |
| NucleotideParser.ParseHGVSString | jannovar-hgvs/src/test/java/de/charite/compbio/jannovar/hgvs/parser/nts/variant/HGVSparserNucleotideMultiAlleleVariantTest.java:15-19 | a parsed variant's reference is a non-empty, `:`-free prefix of the input, followed by `:` |
| NucleotideParser.ParseChangeString | jannovar-hgvs/src/test/java/de/charite/compbio/jannovar/hgvs/parser/nts/change/HGVSParserNucleotideIndelTest.java:20-67 | a change string is accepted only when a single change consumes all of it |
| NucleotideRoundTrip.ParseChangeStringOfText | jannovar-hgvs/src/test/java/de/charite/compbio/jannovar/hgvs/parser/nts/change/HGVSParserNucleotideIndelTest.java:20-67 | any printed change, on its own, reads back as its canonical form |
| NucleotideRoundTrip.ParsePointOfText | jannovar-hgvs/src/test/java/de/charite/compbio/jannovar/hgvs/parser/HGVSParserDriverNucleotideDeletionTest.java:26-27 | a printed point location, with UTR prefix and intronic offset, reads back as itself |
| NucleotideRoundTrip.ParseLocationOfText | jannovar-hgvs/src/test/java/de/charite/compbio/jannovar/hgvs/parser/nts/change/HGVSParserNucleotideIndelTest.java:20-67 | a printed location reads back as its canonical form: a point, or a range with distinct endpoints |
| NucleotideRoundTrip.ParseChangeOfText | jannovar-hgvs/src/test/java/de/charite/compbio/jannovar/hgvs/parser/nts/change/HGVSParserNucleotideIndelTest.java:20-67 | any printed change reads back as its canonical form, with the following text left over |
| NucleotideRoundTrip.ParseChangesOfText | jannovar-hgvs/src/test/java/de/charite/compbio/jannovar/hgvs/parser/nts/variant/HGVSparserNucleotideMultiAlleleVariantTest.java:24-28 | a `,`-separated list of printed changes reads back as the list of their canonical forms, in order |
| NucleotideRoundTrip.ParseAlleleOfText | jannovar-hgvs/src/test/java/de/charite/compbio/jannovar/hgvs/parser/nts/variant/HGVSparserNucleotideMultiAlleleVariantTest.java:15-28 | a printed bracketed allele reads back as its canonical changes |
| NucleotideRoundTrip.ParseMoreAllelesOfText | jannovar-hgvs/src/test/java/de/charite/compbio/jannovar/hgvs/parser/nts/variant/HGVSparserNucleotideMultiAlleleVariantTest.java:15-28 | `;[...]` repeated reads back as the list of alleles, in order, duplicates kept |
| NucleotideRoundTrip.ParseOfToHGVSString | jannovar-hgvs/src/test/java/de/charite/compbio/jannovar/hgvs/parser/HGVSParserDriverNucleotideDeletionTest.java:29-33 | parsing any printed variant gives `Some` of its canonical form |
| NucleotideRoundTrip.NormalizeCanonical | jannovar-hgvs/src/test/java/de/charite/compbio/jannovar/hgvs/parser/HGVSParserDriverNucleotideDeletionTest.java:29-33 | a canonical variant is its own canonical form |
| NucleotideRoundTrip.CanonicalParseOfToHGVSString | jannovar-hgvs/src/test/java/de/charite/compbio/jannovar/hgvs/parser/HGVSParserDriverNucleotideDeletionTest.java:29-33 | a canonical variant survives print-then-parse unchanged |
| NucleotideProperties.NormalizeIsCanonical | jannovar-hgvs/src/test/java/de/charite/compbio/jannovar/hgvs/parser/HGVSParserDriverNucleotideDeletionTest.java:29-33 | the canonical form of any variant is canonical |
| NucleotideProperties.NormalizeIdempotent | jannovar-hgvs/src/test/java/de/charite/compbio/jannovar/hgvs/parser/HGVSParserDriverNucleotideDeletionTest.java:29-33 | taking the canonical form twice is taking it once |
| NucleotideProperties.ToHGVSStringOfNormalize | jannovar-hgvs/src/test/java/de/charite/compbio/jannovar/hgvs/parser/HGVSParserDriverNucleotideDeletionTest.java:33 | a variant and its canonical form print the same text |
| NucleotideProperties.PrintOfParseOfPrint | jannovar-hgvs/src/test/java/de/charite/compbio/jannovar/hgvs/parser/HGVSParserDriverNucleotideDeletionTest.java:29-33 | every printed text parses, and printing what was parsed gives the same text back |
| NucleotideProperties.ToHGVSStringInjective | jannovar-hgvs/src/test/java/de/charite/compbio/jannovar/hgvs/parser/HGVSParserDriverNucleotideDeletionTest.java:33 | two canonical variants with the same text are equal |
| NucleotideProperties.ParseLocationRangeIffUnderscore | jannovar-hgvs/src/test/java/de/charite/compbio/jannovar/hgvs/parser/nts/change/HGVSParserNucleotideIndelTest.java:20-49 | for any text a location is read from, the result is a range exactly when the consumed prefix contains `_`, and the rest is a suffix of the input |
| NucleotideProperties.UnbracketedIsSingleChange | jannovar-hgvs/src/test/java/de/charite/compbio/jannovar/hgvs/parser/HGVSParserDriverNucleotideDeletionTest.java:29-61 | any description without `[` that parses is a single allele of exactly one change |
| NucleotideProperties.TrailingTextRejected | jannovar-hgvs/src/test/java/de/charite/compbio/jannovar/hgvs/parser/nts/change/HGVSParserNucleotideIndelTest.java:20-67 | a printed change followed by text that starts with `,` or `]` is not read as a change string: the whole input must be consumed |
| NucleotideProperties.NoColonRejected | jannovar-hgvs/src/test/java/de/charite/compbio/jannovar/hgvs/parser/nts/variant/HGVSparserNucleotideMultiAlleleVariantTest.java:15 | a text with no `:` after the reference is not a variant |
| NucleotideProperties.DegenerateRangeKept | jannovar-hgvs/src/test/java/de/charite/compbio/jannovar/hgvs/parser/HGVSParserDriverNucleotideDeletionTest.java:26-47 | the parser keeps a range as written and does not merge equal endpoints, though such a range prints as its point |
| NucleotideExamples.IndelPositionWithStrings | jannovar-hgvs/src/test/java/de/charite/compbio/jannovar/hgvs/parser/nts/change/HGVSParserNucleotideIndelTest.java:19-23 | `123delCinsTCG` reads as point 123, deleted `C`, inserted `TCG` |
| NucleotideExamples.IndelPositionWithLengths | jannovar-hgvs/src/test/java/de/charite/compbio/jannovar/hgvs/parser/nts/change/HGVSParserNucleotideIndelTest.java:27-32 | `123del1ins23` reads as point 123 with lengths 1 and 23 |
| NucleotideExamples.IndelPositionWithoutStrings | jannovar-hgvs/src/test/java/de/charite/compbio/jannovar/hgvs/parser/nts/change/HGVSParserNucleotideIndelTest.java:36-40 | `123delins` reads as point 123 with no payload on either side |
| NucleotideExamples.IndelRangeWithStrings | jannovar-hgvs/src/test/java/de/charite/compbio/jannovar/hgvs/parser/nts/change/HGVSParserNucleotideIndelTest.java:44-49 | `123_124delATinsGGTAT` reads as range 123..124, deleted `AT`, inserted `GGTAT` |
| NucleotideExamples.IndelRangeWithLengths | jannovar-hgvs/src/test/java/de/charite/compbio/jannovar/hgvs/parser/nts/change/HGVSParserNucleotideIndelTest.java:53-58 | `123_124del2ins4` reads as range 123..124 with lengths 2 and 4 |
| NucleotideExamples.IndelRangeWithoutStrings | jannovar-hgvs/src/test/java/de/charite/compbio/jannovar/hgvs/parser/nts/change/HGVSParserNucleotideIndelTest.java:62-67 | `123_124delins` reads as range 123..124 with no payloads |
| NucleotideExamples.OneChangePerAllele | jannovar-hgvs/src/test/java/de/charite/compbio/jannovar/hgvs/parser/nts/variant/HGVSparserNucleotideMultiAlleleVariantTest.java:14-19 | `NM_000109.3:c.[123A>C];[123A>C]` reads as a two-allele coding variant on `NM_000109.3`, both alleles kept, each being the substitution A>C at 123 |
| NucleotideExamples.TwoChangesPerAllele | jannovar-hgvs/src/test/java/de/charite/compbio/jannovar/hgvs/parser/nts/variant/HGVSparserNucleotideMultiAlleleVariantTest.java:23-29 | `NM_000109.3:c.[123A>C,156C>T];[123A>C,156C>T]` reads as two alleles, each with 123A>C before 156C>T |
| NucleotideExamples.DriverWithoutSequence1 | jannovar-hgvs/src/test/java/de/charite/compbio/jannovar/hgvs/parser/HGVSParserDriverNucleotideDeletionTest.java:26-33 | `NM_000138.4:c.247_248delins` parses to a single-allele variant that prints back to the same text |
| NucleotideExamples.DriverWithoutSequence2 | jannovar-hgvs/src/test/java/de/charite/compbio/jannovar/hgvs/parser/HGVSParserDriverNucleotideDeletionTest.java:26-33 | the same for `247+1_247+3delins` |
| NucleotideExamples.DriverWithoutSequence3 | jannovar-hgvs/src/test/java/de/charite/compbio/jannovar/hgvs/parser/HGVSParserDriverNucleotideDeletionTest.java:27-33 | the same for `247-3_247-1delins` |
| NucleotideExamples.DriverWithoutSequence4 | jannovar-hgvs/src/test/java/de/charite/compbio/jannovar/hgvs/parser/HGVSParserDriverNucleotideDeletionTest.java:27-33 | the same for `*247_*247+3delins` |
| NucleotideExamples.DriverWithoutSequence5 | jannovar-hgvs/src/test/java/de/charite/compbio/jannovar/hgvs/parser/HGVSParserDriverNucleotideDeletionTest.java:27-33 | the same for `-247_-247-3delins`, endpoints taken in the order written |
| NucleotideExamples.DriverWithSequence1 | jannovar-hgvs/src/test/java/de/charite/compbio/jannovar/hgvs/parser/HGVSParserDriverNucleotideDeletionTest.java:39-47 | `NM_000138.4:c.247_248delATinsCAT` parses to a single-allele variant that prints back to the same text |
| NucleotideExamples.DriverWithSequence2 | jannovar-hgvs/src/test/java/de/charite/compbio/jannovar/hgvs/parser/HGVSParserDriverNucleotideDeletionTest.java:40-47 | the same for `247+1_247+3delATAinsCAT` |
| NucleotideExamples.DriverWithSequence3 | jannovar-hgvs/src/test/java/de/charite/compbio/jannovar/hgvs/parser/HGVSParserDriverNucleotideDeletionTest.java:40-47 | the same for `247-3_247-1delATAinsCAT` |
| NucleotideExamples.DriverWithSequence4 | jannovar-hgvs/src/test/java/de/charite/compbio/jannovar/hgvs/parser/HGVSParserDriverNucleotideDeletionTest.java:41-47 | the same for `*247_*247+3delATATinsCAT` |
| NucleotideExamples.DriverWithSequence5 | jannovar-hgvs/src/test/java/de/charite/compbio/jannovar/hgvs/parser/HGVSParserDriverNucleotideDeletionTest.java:41-47 | the same for `-247_-247-3delATATinsCAT` |
| NucleotideExamples.DriverWithSequenceLength1 | jannovar-hgvs/src/test/java/de/charite/compbio/jannovar/hgvs/parser/HGVSParserDriverNucleotideDeletionTest.java:53-61 | `NM_000138.4:c.247_248del2ins3` parses to a single-allele variant that prints back to the same text |
| NucleotideExamples.DriverWithSequenceLength2 | jannovar-hgvs/src/test/java/de/charite/compbio/jannovar/hgvs/parser/HGVSParserDriverNucleotideDeletionTest.java:53-61 | the same for `247+1_247+3del3ins3` |
| NucleotideExamples.DriverWithSequenceLength3 | jannovar-hgvs/src/test/java/de/charite/compbio/jannovar/hgvs/parser/HGVSParserDriverNucleotideDeletionTest.java:54-61 | the same for `247-3_247-1del3ins3` |
| NucleotideExamples.DriverWithSequenceLength4 | jannovar-hgvs/src/test/java/de/charite/compbio/jannovar/hgvs/parser/HGVSParserDriverNucleotideDeletionTest.java:54-61 | the same for `*247_*247+3del4ins3` |
| NucleotideExamples.DriverWithSequenceLength5 | jannovar-hgvs/src/test/java/de/charite/compbio/jannovar/hgvs/parser/HGVSParserDriverNucleotideDeletionTest.java:55-61 | the same for `-247_-247-3del4ins3` |

## Left out

- The warnings the reverse-strand stubs print to standard output are I/O and are not modelled.
- The splice annotation text is not reproduced. The typed records replace it, so the donor format's literal `$s` (ref and alt never printed) and its missing `HGVS=gene(tx:...)` prefix have no counterpart here.
- `Annotation.createSplicingAnnotation` and the `KnownGene` accessors are calls into code outside this model. The transcript is a plain datatype and the annotation is the record itself.
- The parser's `toStringTree` text in the grammar tests, and its lexer modes, are ANTLR machinery. The model states the AST that tree denotes.
- Building the test transcripts from a database line (the CDS position test setup) is not modelled. A transcript is an opaque value here.
- The conversion constructor is stated from the tests' observable behaviour. `CDSPosition`'s own source is not part of this model.
- The HGVS printer and parser are modelled from the grammar tests. The ANTLR grammar and `toHGVSString` sources are not part of this model. Where the tests leave choices open, the model makes them as follows:
  - bases are `A`, `C`, `G`, `T` and `N`;
  - reference identifiers use letters, digits, `_` and `.`;
  - the markers are `c.`, `g.`, `m.` and `n.`;
  - a range with equal endpoints prints as its point.
- Texts that do not print back: the parser accepts spellings the printer never produces, so print-of-parse is the identity only on printed texts (`NucleotideProperties.PrintOfParseOfPrint`), which include every test string. Three such spellings:
  - numbers with leading zeros such as `0123`;
  - a bracketed allele of one change, `[123A>C]`, which prints bare as `123A>C`;
  - a range with equal endpoints, `123_123del`, which prints as `123del`.
- Change kinds beyond substitution, deletion, insertion, duplication, inversion and deletion-insertion are not modelled: repeats, conversions, and protein and RNA changes.
- A protein position is a `nat`, 0-based, and the 20 standard residues plus `Ter` are modelled. Other residue symbols are not.
- On the first exon the donor window is `exonend-1 .. exonend+2` (SpliceAnnotation.java:32). For an exon ending at 11539429 it includes 11539428, as `SpliceProperties.TestTranscriptDonorWindow` states.
- SpliceAnnotation.IsSpliceVariantPlusStrand: requires exon `k` to exist unless the gene has exactly one exon. The source reads `getExonEnd(k)` and `getExonStart(k)` there (SpliceAnnotation.java:30-31), which fail for a missing exon; that failure path is not modelled.
- SpliceAnnotation.GetSpliceAnnotationPlusStrand: requires exon `k` to exist for a single base at or after the CDS start, where the source reads the exon bounds (SpliceAnnotation.java:147-148); the failure for a missing exon is not modelled.
- Coordinates are unbounded integers. The source's 32-bit `int` sums such as `exonend + SPLICING_THRESHOLD` (SpliceAnnotation.java:32) would wrap around near 2^31; wrap-around is not modelled, as genomic coordinates stay far below that bound.
