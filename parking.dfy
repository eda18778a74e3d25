/**
 * The parking tables of SmartPark's CSV "database": the spot table, the
 * reservation history, and the operations that rewrite them (web.py).
 *
 * Each table is a sequence of rows. Timestamps are integer seconds; an empty
 * `reserved_until` cell is `None`. The `last_updated` and `created_at` stamps
 * are not part of this model.
 */
module Parking {
  import opened Optional

  /** Zone keys, in the order `initialize_parking_spots` iterates them. */
  const ZONES: seq<string> := ["A", "B", "S", "E"]
  const SPOTS_PER_ZONE: nat := 10
  const SEEDED_SPOTS: nat := 40

  const AVAILABLE: string := "available"
  const RESERVED: string := "reserved"
  const ACTIVE: string := "active"
  const EXPIRED: string := "expired"

  const SECONDS_PER_MINUTE: int := 60

  /** The fixed customer fields and duration of an auto-assigned reservation. */
  const AUTO_NAME: string := "Auto-ANPR"
  const AUTO_EMAIL: string := "auto@smartpark.com"
  const AUTO_PHONE: string := "0000000000"
  const AUTO_DURATION: int := 60

  /** A row of parking_spots.csv. */
  datatype Spot = Spot(
    spotId: string,
    zone: string,
    status: string,
    plateNumber: string,
    reservedBy: string,
    reservedUntil: Option<int>)

  /** A row of reservations_history.csv. */
  datatype Reservation = Reservation(
    id: int,
    spotId: string,
    plateNumber: string,
    customerName: string,
    customerEmail: string,
    customerPhone: string,
    startTime: int,
    endTime: int,
    durationMinutes: int,
    status: string)

  // ---------------------------------------------------------------------
  // Spot identifiers: `f"{zone}{i:02}"`
  // ---------------------------------------------------------------------

  function DigitChar(d: nat): (c: char)
    requires d < 10
    ensures '0' <= c <= '9'
    ensures c as int - '0' as int == d
  {
    ('0' as int + d) as char
  }

  /** The value of a two-character decimal numeral. */
  function NumeralValue(s: string): int
    requires |s| == 2
  {
    (s[0] as int - '0' as int) * 10 + (s[1] as int - '0' as int)
  }

  /** `n` formatted with `:02`: two decimal digits, zero-padded. */
  function TwoDigits(n: nat): (s: string)
    requires n < 100
    ensures |s| == 2
    ensures '0' <= s[0] <= '9' && '0' <= s[1] <= '9'
    ensures NumeralValue(s) == n
  {
    [DigitChar(n / 10), DigitChar(n % 10)]
  }

  /** The spot id of spot number `n` in `zone`; the number can be read back. */
  function SpotId(zone: string, n: nat): (id: string)
    requires n < 100
    ensures |id| == |zone| + 2
    ensures id[..|zone|] == zone
    ensures NumeralValue(id[|zone|..]) == n
  {
    zone + TwoDigits(n)
  }

  /** Row `k` (0-based) of a freshly seeded spot table. */
  function SeededSpot(k: nat): Spot
    requires k < SEEDED_SPOTS
  {
    var zone := ZONES[k / SPOTS_PER_ZONE];
    Spot(SpotId(zone, k % SPOTS_PER_ZONE + 1), zone, AVAILABLE, "", "", None)
  }

  /** No two seeded spots share an id, so a masked update of a seeded table touches one row. */
  lemma SeededIdsDistinct(k: nat, l: nat)
    requires k < SEEDED_SPOTS && l < SEEDED_SPOTS && k != l
    ensures SeededSpot(k).spotId != SeededSpot(l).spotId
  {
    var a, b := SeededSpot(k).spotId, SeededSpot(l).spotId;
    var za, zb := ZONES[k / SPOTS_PER_ZONE], ZONES[l / SPOTS_PER_ZONE];
    assert |za| == 1 && |zb| == 1;
    if k / SPOTS_PER_ZONE != l / SPOTS_PER_ZONE {
      assert za != zb;
      assert a[..1] == za && b[..1] == zb;
    } else {
      assert NumeralValue(a[1..]) != NumeralValue(b[1..]);
    }
  }

  // ---------------------------------------------------------------------
  // Spot table updates
  // ---------------------------------------------------------------------

  /** A spot row with the four columns `update_spot_status` writes set to the given values. */
  function Overwritten(s: Spot, status: string, plate: string, holder: string, until: Option<int>): Spot {
    s.(status := status, plateNumber := plate, reservedBy := holder, reservedUntil := until)
  }

  /** A spot row released by the expiry sweep. */
  function Freed(s: Spot): Spot {
    Overwritten(s, AVAILABLE, "", "", None)
  }

  /**
   * The masked update `df.loc[df['spot_id'] == spotId, ...] = ...`: every row
   * with that id gets the new status, plate, holder and expiry; every other
   * row, and the row count, stay as they were.
   */
  function ApplyMask(spots: seq<Spot>, spotId: string, status: string, plate: string, holder: string, until: Option<int>): (r: seq<Spot>)
    ensures |r| == |spots|
    ensures forall i :: 0 <= i < |spots| && spots[i].spotId == spotId ==>
      r[i] == Overwritten(spots[i], status, plate, holder, until)
    ensures forall i :: 0 <= i < |spots| && spots[i].spotId != spotId ==> r[i] == spots[i]
  {
    if spots == [] then []
    else
      var head := if spots[0].spotId == spotId then Overwritten(spots[0], status, plate, holder, until) else spots[0];
      [head] + ApplyMask(spots[1..], spotId, status, plate, holder, until)
  }

  /** The index of the first spot whose status is `available`, in table order. */
  function FirstAvailable(spots: seq<Spot>): (r: Option<nat>)
    ensures r.None? <==> forall i :: 0 <= i < |spots| ==> spots[i].status != AVAILABLE
    ensures r.Some? ==> r.value < |spots| && spots[r.value].status == AVAILABLE
    ensures r.Some? ==> forall i :: 0 <= i < r.value ==> spots[i].status != AVAILABLE
  {
    if spots == [] then None
    else if spots[0].status == AVAILABLE then Some(0)
    else match FirstAvailable(spots[1..])
      case None => None
      case Some(k) => Some(k + 1)
  }

  // ---------------------------------------------------------------------
  // Reservation expiry
  // ---------------------------------------------------------------------

  /** The sweep's test: an active reservation whose end lies strictly before `now`. */
  predicate Expires(r: Reservation, now: int) {
    r.status == ACTIVE && r.endTime < now
  }

  /** Some row among the first `n` of `rows` that the sweep expires holds spot `spotId`. */
  predicate ReleasedBy(rows: seq<Reservation>, n: nat, spotId: string, now: int)
    requires n <= |rows|
  {
    exists k :: 0 <= k < n && Expires(rows[k], now) && rows[k].spotId == spotId
  }

  /** The reservation table after the sweep: exactly the expiring rows are marked `expired`. */
  function ExpireRows(rows: seq<Reservation>, now: int): (r: seq<Reservation>)
    ensures |r| == |rows|
    ensures forall i :: 0 <= i < |rows| && Expires(rows[i], now) ==> r[i] == rows[i].(status := EXPIRED)
    ensures forall i :: 0 <= i < |rows| && !Expires(rows[i], now) ==> r[i] == rows[i]
  {
    if rows == [] then []
    else
      var head := if Expires(rows[0], now) then rows[0].(status := EXPIRED) else rows[0];
      [head] + ExpireRows(rows[1..], now)
  }

  /**
   * The spot table after the sweep has visited the first `n` rows in order,
   * freeing the spot of every expiring row. The outcome does not depend on the
   * order: a spot is freed exactly when some expiring row names it, whatever
   * the spot's current holder, and every other spot is untouched.
   */
  function FreeSpots(spots: seq<Spot>, rows: seq<Reservation>, n: nat, now: int): (r: seq<Spot>)
    requires n <= |rows|
    ensures |r| == |spots|
    ensures forall j :: 0 <= j < |spots| && ReleasedBy(rows, n, spots[j].spotId, now) ==> r[j] == Freed(spots[j])
    ensures forall j :: 0 <= j < |spots| && !ReleasedBy(rows, n, spots[j].spotId, now) ==> r[j] == spots[j]
  {
    if n == 0 then spots
    else
      var last := rows[n - 1];
      var before := FreeSpots(spots, rows, n - 1, now);
      assert forall j :: 0 <= j < |spots| && ReleasedBy(rows, n, spots[j].spotId, now) ==>
        ReleasedBy(rows, n - 1, spots[j].spotId, now) || (Expires(last, now) && last.spotId == spots[j].spotId)
      by {
        forall j | 0 <= j < |spots| && ReleasedBy(rows, n, spots[j].spotId, now)
          ensures ReleasedBy(rows, n - 1, spots[j].spotId, now) || (Expires(last, now) && last.spotId == spots[j].spotId)
        {
          var k :| 0 <= k < n && Expires(rows[k], now) && rows[k].spotId == spots[j].spotId;
        }
      }
      if Expires(last, now) then ApplyMask(before, last.spotId, AVAILABLE, "", "", None) else before
  }

  /** Reservation ids are 1, 2, 3, ... in table order, as `add_reservation` numbers them. */
  predicate IdsSequential(rows: seq<Reservation>) {
    forall i :: 0 <= i < |rows| ==> rows[i].id == i + 1
  }

  /**
   * A second sweep at the same `now` changes nothing: no row is still active
   * and overdue, so neither table is touched again.
   */
  lemma {:induction false} SweepIsIdempotent(spots: seq<Spot>, rows: seq<Reservation>, now: int)
    ensures ExpireRows(ExpireRows(rows, now), now) == ExpireRows(rows, now)
    ensures FreeSpots(spots, ExpireRows(rows, now), |rows|, now) == spots
  {
    var swept := ExpireRows(rows, now);
    assert forall i :: 0 <= i < |swept| ==> !Expires(swept[i], now);
  }

  // ---------------------------------------------------------------------
  // generate_random_plate
  // ---------------------------------------------------------------------

  /** Three upper-case ASCII letters followed by four decimal digits. */
  predicate IsPlateShape(p: string) {
    && |p| == 7
    && (forall i :: 0 <= i < 3 ==> 'A' <= p[i] <= 'Z')
    && (forall i :: 3 <= i < 7 ==> '0' <= p[i] <= '9')
  }

  /** `count` picks, each an index below `bound` into the alphabet drawn from. */
  predicate PicksBelow(picks: seq<nat>, count: nat, bound: nat) {
    |picks| == count && forall i :: 0 <= i < |picks| ==> picks[i] < bound
  }

  /**
   * The plate built from the random choices: `letters` index
   * `string.ascii_uppercase` and `digits` index `string.digits`.
   */
  function RandomPlate(letters: seq<nat>, digits: seq<nat>): (p: string)
    requires PicksBelow(letters, 3, 26) && PicksBelow(digits, 4, 10)
    ensures IsPlateShape(p)
  {
    seq(3, i requires 0 <= i < 3 => ('A' as int + letters[i]) as char)
    + seq(4, i requires 0 <= i < 4 => ('0' as int + digits[i]) as char)
  }

  /** The picks that would produce `p`, letter by letter or digit by digit from `base`. */
  function PicksOf(p: string, base: char): seq<nat>
    requires forall i :: 0 <= i < |p| ==> base <= p[i]
  {
    seq(|p|, i requires 0 <= i < |p| => (p[i] as int - base as int) as nat)
  }

  /** Every plate of the shape is produced by exactly the picks read back from it. */
  lemma {:induction false} RandomPlateCoversShape(p: string)
    requires IsPlateShape(p)
    ensures PicksBelow(PicksOf(p[..3], 'A'), 3, 26) && PicksBelow(PicksOf(p[3..], '0'), 4, 10)
    ensures RandomPlate(PicksOf(p[..3], 'A'), PicksOf(p[3..], '0')) == p
  {
    var letters, digits := PicksOf(p[..3], 'A'), PicksOf(p[3..], '0');
    var q := RandomPlate(letters, digits);
    forall i | 0 <= i < 7 ensures q[i] == p[i] {
      if i < 3 { assert letters[i] == p[i] as int - 'A' as int; }
      else { assert digits[i - 3] == p[i] as int - '0' as int; }
    }
  }

  // ---------------------------------------------------------------------
  // The database object
  // ---------------------------------------------------------------------

  class ParkingDatabase {
    /** parking_spots.csv */
    var spots: seq<Spot>
    /** reservations_history.csv */
    var reservations: seq<Reservation>

    /**
     * `__init__` / `init_database`: a table file that already exists is kept;
     * a missing spot file is seeded and a missing history starts empty.
     */
    constructor (storedSpots: Option<seq<Spot>>, storedReservations: Option<seq<Reservation>>)
      ensures storedSpots.Some? ==> spots == storedSpots.value
      ensures storedSpots.None? ==> |spots| == SEEDED_SPOTS && forall k :: 0 <= k < |spots| ==> spots[k] == SeededSpot(k)
      ensures reservations == if storedReservations.Some? then storedReservations.value else []
    {
      spots := if storedSpots.Some? then storedSpots.value else [];
      reservations := if storedReservations.Some? then storedReservations.value else [];
      new;
      if storedSpots.None? {
        InitializeParkingSpots();
      }
    }

    /** Seed the spot table: ten spots per zone, zones A, B, S, E, all free. */
    method InitializeParkingSpots()
      modifies this
      ensures |spots| == SEEDED_SPOTS
      ensures forall k :: 0 <= k < |spots| ==> spots[k] == SeededSpot(k)
      ensures reservations == old(reservations)
    {
      var rows: seq<Spot> := [];
      for z := 0 to |ZONES|
        invariant |rows| == z * SPOTS_PER_ZONE
        invariant forall k :: 0 <= k < |rows| ==> rows[k] == SeededSpot(k)
      {
        var zone := ZONES[z];
        for i := 1 to SPOTS_PER_ZONE + 1
          invariant |rows| == z * SPOTS_PER_ZONE + i - 1
          invariant forall k :: 0 <= k < |rows| ==> rows[k] == SeededSpot(k)
        {
          ghost var k := |rows|;
          assert k / SPOTS_PER_ZONE == z && k % SPOTS_PER_ZONE + 1 == i;
          rows := rows + [Spot(SpotId(zone, i), zone, AVAILABLE, "", "", None)];
        }
      }
      spots := rows;
    }

    /** Overwrite status, plate, holder and expiry of every spot row with id `spotId`. */
    method UpdateSpotStatus(spotId: string, status: string, plate: string, holder: string, until: Option<int>)
      modifies this
      ensures spots == ApplyMask(old(spots), spotId, status, plate, holder, until)
      ensures reservations == old(reservations)
    {
      spots := ApplyMask(spots, spotId, status, plate, holder, until);
    }

    /**
     * Append an active reservation numbered one past the table's length, ending
     * `duration` minutes after `now`, and reserve its spot for it.
     */
    method AddReservation(spotId: string, plate: string, name: string, email: string, phone: string, duration: int, now: int)
      modifies this
      ensures reservations == old(reservations) + [Reservation(|old(reservations)| + 1, spotId, plate, name, email, phone,
                                                               now, now + duration * SECONDS_PER_MINUTE, duration, ACTIVE)]
      ensures spots == ApplyMask(old(spots), spotId, RESERVED, plate, name, Some(now + duration * SECONDS_PER_MINUTE))
      ensures IdsSequential(old(reservations)) ==> IdsSequential(reservations)
    {
      var start := now;
      var end := start + duration * SECONDS_PER_MINUTE;
      var newId := |reservations| + 1;
      reservations := reservations + [Reservation(newId, spotId, plate, name, email, phone, start, end, duration, ACTIVE)];
      UpdateSpotStatus(spotId, RESERVED, plate, name, Some(end));
    }

    /**
     * Mark every active reservation that ended before `now` as expired and free
     * its spot. The history is written back only when some row changed.
     */
    method CleanExpiredReservations(now: int)
      modifies this
      ensures reservations == ExpireRows(old(reservations), now)
      ensures spots == FreeSpots(old(spots), old(reservations), |old(reservations)|, now)
      ensures IdsSequential(old(reservations)) ==> IdsSequential(reservations)
    {
      var rows := reservations;
      var updated := false;
      var i := 0;
      while i < |rows|
        invariant 0 <= i <= |rows| == |old(reservations)|
        invariant reservations == old(reservations)
        invariant forall k :: 0 <= k < i && Expires(old(reservations)[k], now) ==> rows[k] == old(reservations)[k].(status := EXPIRED)
        invariant forall k :: 0 <= k < |rows| && (i <= k || !Expires(old(reservations)[k], now)) ==> rows[k] == old(reservations)[k]
        invariant spots == FreeSpots(old(spots), old(reservations), i, now)
        invariant !updated ==> forall k :: 0 <= k < i ==> !Expires(old(reservations)[k], now)
      {
        var due;
        rows, due := SweepRow(rows, i, now, old(reservations), old(spots));
        updated := updated || due;
        i := i + 1;
      }
      if updated {
        reservations := rows;
      }
    }

    /**
     * One step of the sweep: row `i`, still as first read, is expired and its
     * spot freed when it is due. `original` and `start` are the tables before
     * the sweep.
     */
    method SweepRow(rows: seq<Reservation>, i: nat, now: int, ghost original: seq<Reservation>, ghost start: seq<Spot>)
      returns (next: seq<Reservation>, due: bool)
      requires i < |rows| == |original| && rows[i] == original[i]
      requires spots == FreeSpots(start, original, i, now)
      modifies this
      ensures due == Expires(original[i], now)
      ensures next == if due then rows[i := original[i].(status := EXPIRED)] else rows
      ensures spots == FreeSpots(start, original, i + 1, now)
      ensures reservations == old(reservations)
    {
      var row := rows[i];
      next, due := rows, false;
      if row.status == ACTIVE && row.endTime < now {
        next := rows[i := row.(status := EXPIRED)];
        UpdateSpotStatus(row.spotId, AVAILABLE, "", "", None);
        due := true;
      }
    }

    /**
     * The quick reservation: take the first available spot in table order and
     * reserve it for an hour under a randomly generated plate; do nothing when
     * no spot is available.
     */
    method AutoAssign(letters: seq<nat>, digits: seq<nat>, now: int) returns (chosen: Option<string>)
      requires PicksBelow(letters, 3, 26) && PicksBelow(digits, 4, 10)
      modifies this
      ensures FirstAvailable(old(spots)).None? ==> chosen.None? && spots == old(spots) && reservations == old(reservations)
      ensures FirstAvailable(old(spots)).Some? ==>
        var k := FirstAvailable(old(spots)).value;
        var plate := RandomPlate(letters, digits);
        && chosen == Some(old(spots)[k].spotId)
        && reservations == old(reservations) + [Reservation(|old(reservations)| + 1, old(spots)[k].spotId, plate,
                                                            AUTO_NAME, AUTO_EMAIL, AUTO_PHONE, now,
                                                            now + AUTO_DURATION * SECONDS_PER_MINUTE, AUTO_DURATION, ACTIVE)]
        && spots == ApplyMask(old(spots), old(spots)[k].spotId, RESERVED, plate, AUTO_NAME,
                              Some(now + AUTO_DURATION * SECONDS_PER_MINUTE))
    {
      var first := FirstAvailable(spots);
      if first.None? {
        return None;
      }
      var selected := spots[first.value].spotId;
      var plate := RandomPlate(letters, digits);
      AddReservation(selected, plate, AUTO_NAME, AUTO_EMAIL, AUTO_PHONE, AUTO_DURATION, now);
      chosen := Some(selected);
    }
  }
}
