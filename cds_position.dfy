/**
 * A position in the coding sequence of a transcript, carrying its numbering
 * convention explicitly. Positions are immutable; converting to the other
 * convention builds a new position.
 */
module CdsPosition {

  datatype PositionType = ZERO_BASED | ONE_BASED

  /** The transcript a position refers to; only its identity matters here. */
  datatype TranscriptInfo = TranscriptInfo(accession: string)

  datatype CDSPosition = CDSPosition(transcript: TranscriptInfo, pos: int, positionType: PositionType)

  /** A position given without a convention is one-based. */
  function NewCDSPosition(transcript: TranscriptInfo, pos: int): (r: CDSPosition)
    ensures r.transcript == transcript && r.pos == pos && r.positionType == ONE_BASED
  {
    CDSPosition(transcript, pos, ONE_BASED)
  }

  function NewCDSPositionWithType(transcript: TranscriptInfo, pos: int, positionType: PositionType): (r: CDSPosition)
    ensures r.transcript == transcript && r.pos == pos && r.positionType == positionType
  {
    CDSPosition(transcript, pos, positionType)
  }

  /** The zero-based number of the base a position denotes, whatever its convention. */
  function BaseIndex(p: CDSPosition): int {
    if p.positionType == ONE_BASED then p.pos - 1 else p.pos
  }

  /**
   * The same base in the convention `target`: one-based to zero-based subtracts one,
   * zero-based to one-based adds one, the same convention keeps the offset.
   */
  function Convert(other: CDSPosition, target: PositionType): (r: CDSPosition)
    ensures r.transcript == other.transcript && r.positionType == target
    ensures BaseIndex(r) == BaseIndex(other)
  {
    var delta :=
      if other.positionType == ZERO_BASED && target == ONE_BASED then 1
      else if other.positionType == ONE_BASED && target == ZERO_BASED then -1
      else 0;
    CDSPosition(other.transcript, other.pos + delta, target)
  }

  /** Converting to any convention and back to the original one returns the original position. */
  lemma ConvertRoundTrip(p: CDSPosition, via: PositionType)
    ensures Convert(Convert(p, via), p.positionType) == p
  {
  }

  /** The offset moves by exactly one when the convention changes, and not at all otherwise. */
  lemma ConvertShift(p: CDSPosition, target: PositionType)
    ensures Convert(p, target).pos - p.pos ==
      (if p.positionType == target then 0 else if target == ZERO_BASED then -1 else 1)
  {
  }

  /** Two positions denote the same base of the same transcript exactly when their conversions to one convention are equal. */
  lemma SameBaseIffSameConversion(p: CDSPosition, q: CDSPosition, target: PositionType)
    ensures Convert(p, target) == Convert(q, target) <==>
      p.transcript == q.transcript && BaseIndex(p) == BaseIndex(q)
  {
  }

  /** Structural equality tells the conventions apart: one-based 23 and zero-based 22 are the same base yet unequal. */
  lemma ConventionIsPartOfEquality(t: TranscriptInfo)
    ensures BaseIndex(NewCDSPosition(t, 23)) == BaseIndex(NewCDSPositionWithType(t, 22, ZERO_BASED))
    ensures NewCDSPosition(t, 23) != NewCDSPositionWithType(t, 22, ZERO_BASED)
  {
  }

  /** The conversions the tests exercise: one-based 23 is zero-based 22, zero-based 23 is one-based 24. */
  lemma ConvertExamples(t: TranscriptInfo)
    ensures NewCDSPosition(t, 10) == CDSPosition(t, 10, ONE_BASED)
    ensures NewCDSPositionWithType(t, 10, ZERO_BASED) == CDSPosition(t, 10, ZERO_BASED)
    ensures Convert(NewCDSPositionWithType(t, 23, ONE_BASED), ZERO_BASED) == CDSPosition(t, 22, ZERO_BASED)
    ensures Convert(NewCDSPositionWithType(t, 23, ZERO_BASED), ONE_BASED) == CDSPosition(t, 24, ONE_BASED)
  {
  }
}
