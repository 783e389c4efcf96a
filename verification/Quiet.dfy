/**
 Quiet-hours arithmetic on a wrapping Beijing day. Instants are nanoseconds since the
 Unix epoch. Models core/internal/domain/clocktime.go.
 */
module Quiet {
  const MINUTE := 60_000_000_000
  const DAY := 1440 * MINUTE
  const BEIJING := 480 * MINUTE
  /** The instant Go's time package calls zero: midnight UTC on 1 January of year 1. */
  const ZERO_TIME := -62_135_596_800 * 1_000_000_000

  type Clock = m: int | 0 <= m < 1440

  datatype Window = Window(start: Clock, end: Clock) {
    predicate Empty() { start == end }
    predicate WrapsMidnight() { start > end }
  }

  /** Nanoseconds into the local day. */
  function OfDay(t: int): (d: int)
    ensures 0 <= d < DAY
  {
    (t + BEIJING) % DAY
  }

  /** Local midnight. */
  function Midnight(t: int): int { t - OfDay(t) }

  function MinuteOf(t: int): int { OfDay(t) / MINUTE }

  predicate Contains(w: Window, t: int) {
    if w.Empty() then false
    else if w.WrapsMidnight() then MinuteOf(t) >= w.start || MinuteOf(t) < w.end
    else MinuteOf(t) >= w.start && MinuteOf(t) < w.end
  }

  /** The instant the occurrence around t began; its rendering is the occurrence's identity. */
  function OccurrenceStart(w: Window, t: int): int {
    var day := if w.WrapsMidnight() && MinuteOf(t) < w.end then Midnight(t) - DAY else Midnight(t);
    day + w.start * MINUTE
  }

  // ---------------------------------------------------------------------
  // One rotated day
  // ---------------------------------------------------------------------

  /** How long the window is. */
  function Length(w: Window): int {
    (if w.end >= w.start then w.end - w.start else w.end - w.start + 1440) * MINUTE
  }

  /** How long ago the start minute last came round. */
  function Phase(w: Window, t: int): (p: int)
    ensures 0 <= p < DAY
  {
    var d := OfDay(t);
    if d >= w.start * MINUTE then d - w.start * MINUTE else d - w.start * MINUTE + DAY
  }

  lemma OfDayMoves(t: int, u: int)
    requires t <= u
    ensures u - t < DAY - OfDay(t) ==> OfDay(u) == OfDay(t) + (u - t)
    ensures DAY - OfDay(t) <= u - t < 2 * DAY - OfDay(t) ==> OfDay(u) == OfDay(t) + (u - t) - DAY
  {
    var a, b, q := t + BEIJING, u + BEIJING, (t + BEIJING) / DAY;
    assert a == q * DAY + OfDay(t);
    if u - t < DAY - OfDay(t) {
      Quotient(b, q, OfDay(t) + (u - t));
    } else if u - t < 2 * DAY - OfDay(t) {
      Quotient(b, q + 1, OfDay(t) + (u - t) - DAY);
    }
  }

  lemma Quotient(b: int, q: int, r: int)
    requires b == q * DAY + r && 0 <= r < DAY
    ensures b % DAY == r
  {
  }

  /** Time advances the phase, and the phase comes round once a day. */
  lemma PhaseMoves(w: Window, t: int, u: int)
    requires t <= u
    ensures u - t < DAY - Phase(w, t) ==> Phase(w, u) == Phase(w, t) + (u - t)
    ensures u == t + DAY - Phase(w, t) ==> Phase(w, u) == 0
  {
    OfDayMoves(t, u);
    if OfDay(t) + (u - t) >= 2 * DAY {
      assert u - t >= DAY;
    }
  }

  lemma MinuteCompares(d: int, m: int)
    requires 0 <= d
    ensures d / MINUTE >= m <==> d >= m * MINUTE
  {
  }

  /** Membership is one comparison on the rotated day. */
  lemma ContainsIsPhase(w: Window, t: int)
    ensures Contains(w, t) <==> Phase(w, t) < Length(w)
    ensures Contains(w, t) ==> OccurrenceStart(w, t) == t - Phase(w, t)
  {
    MinuteCompares(OfDay(t), w.start);
    MinuteCompares(OfDay(t), w.end);
  }

  // ---------------------------------------------------------------------
  // The next boundary
  // ---------------------------------------------------------------------

  /** When membership next changes. */
  function Boundary(w: Window, t: int): int {
    if Phase(w, t) < Length(w) then t - Phase(w, t) + Length(w) else t - Phase(w, t) + DAY
  }

  /**
   For every non-empty window and instant: membership is constant up to the boundary,
   flips exactly there, and the boundary is at most 24 hours away.
   */
  lemma BoundaryIsExact(w: Window, t: int)
    requires !w.Empty()
    ensures t < Boundary(w, t) <= t + DAY
    ensures Contains(w, Boundary(w, t)) != Contains(w, t)
    ensures forall u | t <= u < Boundary(w, t) :: Contains(w, u) == Contains(w, t)
  {
    var b := Boundary(w, t);
    ContainsIsPhase(w, t);
    ContainsIsPhase(w, b);
    PhaseMoves(w, t, b);
    forall u | t <= u < b
      ensures Contains(w, u) == Contains(w, t)
    {
      PhaseMoves(w, t, u);
      ContainsIsPhase(w, u);
    }
  }

  /** Two inside instants share an occurrence exactly when the window is never left between them. */
  lemma SameOccurrenceIffContiguous(w: Window, t: int, u: int)
    requires t <= u && Contains(w, t) && Contains(w, u)
    ensures OccurrenceStart(w, t) == OccurrenceStart(w, u) <==> forall v | t <= v <= u :: Contains(w, v)
  {
    ContainsIsPhase(w, t);
    ContainsIsPhase(w, u);
    BoundaryIsExact(w, t);
    var b := Boundary(w, t);
    if u < b {
      PhaseMoves(w, t, u);
    } else {
      assert !Contains(w, b);
    }
  }

  /** The candidates the search looks at: today's and tomorrow's start and end. */
  function Candidates(w: Window, t: int): seq<int> {
    var s, e := Midnight(t) + w.start * MINUTE, Midnight(t) + w.end * MINUTE;
    [s, s + DAY, e, e + DAY]
  }

  /** The boundary is the least candidate after t. */
  lemma BoundaryIsLeastCandidate(w: Window, t: int)
    requires !w.Empty()
    ensures Boundary(w, t) in Candidates(w, t) && Boundary(w, t) > t
    ensures forall c <- Candidates(w, t) :: c > t ==> c >= Boundary(w, t)
  {
    var cs := Candidates(w, t);
    BoundaryIsExact(w, t);
    assert cs[0] in cs && cs[1] in cs && cs[2] in cs && cs[3] in cs;
  }

  /** The zero instant can be a boundary: 08:00 in Beijing on the first day of year 1. */
  lemma ZeroTimeIsABoundary()
    ensures Boundary(Window(480, 540), ZERO_TIME - 1) == ZERO_TIME
  {
    assert OfDay(ZERO_TIME - 1) == 480 * MINUTE - 1;
  }

  /**
   The min-search of the source, with the zero instant standing for "none yet". It
   returns the boundary exactly when the boundary is not itself the zero instant.
   */
  method NextBoundary(w: Window, t: int) returns (best: int, found: bool)
    ensures w.Empty() ==> !found
    ensures !w.Empty() ==> (found && best == Boundary(w, t) <==> Boundary(w, t) != ZERO_TIME)
  {
    if w.Empty() {
      return ZERO_TIME, false;
    }
    BoundaryIsLeastCandidate(w, t);
    var candidates := Candidates(w, t);
    ghost var least := Boundary(w, t);
    best := ZERO_TIME;
    for i := 0 to |candidates|
      invariant best != ZERO_TIME ==> best in candidates && best > t
      invariant least != ZERO_TIME && least in candidates[..i] ==> best == least
    {
      var shifted := candidates[i];
      assert candidates[..i + 1] == candidates[..i] + [shifted];
      if shifted > t && (best == ZERO_TIME || shifted < best) {
        best := shifted;
      }
    }
    assert candidates[..|candidates|] == candidates;
    found := best != ZERO_TIME;
  }
}
