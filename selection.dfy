/**
 * Choosing the master for an order: a linear scan over the workers returned by
 * the candidate query, keeping the nearest qualified worker seen so far.
 */
module Selection {
  import opened Wrappers
  import opened Geo

  /** Only workers at most this many kilometres from the client may be chosen. */
  const SEARCH_RADIUS_KM: real := 5.0

  /**
   * A worker document as the candidate query returns it. The query itself
   * (specialization contains the category, isAvailable is true) is done by
   * the store; the scan reads only id, name and lastLocation.
   */
  datatype Worker = Worker(
    id: string,
    name: Option<string>,
    lastLocation: Option<Location>,
    specialization: seq<string>,
    isAvailable: bool)

  /** A chosen worker: its id, its name and its distance to the client. */
  datatype MasterMatch = MasterMatch(id: string, name: string, distance: real)

  /**
   * A worker is scored only when it has a last location and a name; an empty
   * name counts as missing, as it does for the truthiness test in the source.
   */
  predicate Eligible(w: Worker) {
    w.lastLocation.Some? && w.name.Some? && w.name.value != ""
  }

  /** The distance from the client to an eligible worker. */
  function DistanceTo(w: Worker, client: Location, distance: DistanceOracle): real
    requires Eligible(w)
  {
    distance(client, w.lastLocation.value)
  }

  /** An eligible worker inside the search radius, boundary included. */
  predicate Qualifies(w: Worker, client: Location, distance: DistanceOracle) {
    Eligible(w) && DistanceTo(w, client, distance) <= SEARCH_RADIUS_KM
  }

  /** The match recorded for an eligible worker. */
  function MatchOf(w: Worker, client: Location, distance: DistanceOracle): MasterMatch
    requires Eligible(w)
  {
    MasterMatch(w.id, w.name.value, DistanceTo(w, client, distance))
  }

  /**
   * Among the first n workers, worker i qualifies, is no farther than any
   * qualified worker, and is strictly nearer than every qualified worker
   * before it: it is the first of the nearest.
   */
  predicate IsFirstNearest(ws: seq<Worker>, n: nat, i: nat, client: Location, distance: DistanceOracle) {
    && n <= |ws|
    && i < n
    && Qualifies(ws[i], client, distance)
    && (forall j :: 0 <= j < n && Qualifies(ws[j], client, distance) ==>
          DistanceTo(ws[i], client, distance) <= DistanceTo(ws[j], client, distance))
    && (forall j :: 0 <= j < i && Qualifies(ws[j], client, distance) ==>
          DistanceTo(ws[i], client, distance) < DistanceTo(ws[j], client, distance))
  }

  /**
   * Reference definition of the choice, by recursion from the front of the
   * sequence: the head wins when it qualifies and is no farther than the
   * choice among the rest.
   */
  function FirstNearest(ws: seq<Worker>, client: Location, distance: DistanceOracle): (r: Option<nat>)
    ensures r.Some? ==> IsFirstNearest(ws, |ws|, r.value, client, distance)
    ensures r.None? ==> forall j :: 0 <= j < |ws| ==> !Qualifies(ws[j], client, distance)
    decreases |ws|
  {
    if ws == [] then None
    else
      var rest := FirstNearest(ws[1..], client, distance);
      if Qualifies(ws[0], client, distance)
         && (rest.None? || DistanceTo(ws[0], client, distance) <= DistanceTo(ws[1 + rest.value], client, distance))
      then Some(0)
      else if rest.Some? then Some(1 + rest.value)
      else None
  }

  /** There is at most one first-nearest worker. */
  lemma FirstNearestIsUnique(ws: seq<Worker>, n: nat, i: nat, k: nat, client: Location, distance: DistanceOracle)
    requires IsFirstNearest(ws, n, i, client, distance)
    requires IsFirstNearest(ws, n, k, client, distance)
    ensures i == k
  {
  }

  /** The match the scan is meant to produce, if any. */
  function ChosenMatch(ws: seq<Worker>, client: Location, distance: DistanceOracle): Option<MasterMatch> {
    match FirstNearest(ws, client, distance)
    case None => None
    case Some(i) => Some(MatchOf(ws[i], client, distance))
  }

  /**
   * The scan over the query result. minDistance starts as None, standing for
   * the initial infinity; a worker replaces the current best only when it is
   * within the radius and strictly nearer.
   */
  method SelectNearestMaster(workers: seq<Worker>, client: Location, distance: DistanceOracle)
    returns (nearest: Option<MasterMatch>)
    ensures nearest == ChosenMatch(workers, client, distance)
  {
    nearest := None;
    var minDistance: Option<real> := None;
    ghost var best: Option<nat> := None;
    for k := 0 to |workers|
      invariant best.None? ==> nearest.None? && minDistance.None?
      invariant best.None? ==> forall j :: 0 <= j < k ==> !Qualifies(workers[j], client, distance)
      invariant best.Some? ==> IsFirstNearest(workers, k, best.value, client, distance)
      invariant best.Some? ==> nearest == Some(MatchOf(workers[best.value], client, distance))
      invariant best.Some? ==> minDistance == Some(DistanceTo(workers[best.value], client, distance))
    {
      var w := workers[k];
      if w.lastLocation.Some? && w.name.Some? && w.name.value != "" {
        var d := distance(client, w.lastLocation.value);
        if d <= SEARCH_RADIUS_KM && (minDistance.None? || d < minDistance.value) {
          minDistance := Some(d);
          nearest := Some(MasterMatch(w.id, w.name.value, d));
          best := Some(k);
        }
      }
    }
    var r := FirstNearest(workers, client, distance);
    if best.Some? {
      FirstNearestIsUnique(workers, |workers|, best.value, r.value, client, distance);
    }
  }

  /**
   * Whatever the scan chooses is an eligible worker of the sequence, within the
   * radius, and no farther than any other eligible worker within the radius.
   */
  lemma ChosenMatchIsNearestQualified(ws: seq<Worker>, client: Location, distance: DistanceOracle)
    ensures ChosenMatch(ws, client, distance).None? <==>
              forall j :: 0 <= j < |ws| ==> !Qualifies(ws[j], client, distance)
    ensures ChosenMatch(ws, client, distance).Some? ==>
              exists i :: 0 <= i < |ws| && Eligible(ws[i]) &&
                var m := ChosenMatch(ws, client, distance).value;
                && m.id == ws[i].id && Some(m.name) == ws[i].name
                && m.distance == DistanceTo(ws[i], client, distance)
                && m.distance <= SEARCH_RADIUS_KM
                && forall j :: 0 <= j < |ws| && Qualifies(ws[j], client, distance) ==>
                     m.distance <= DistanceTo(ws[j], client, distance)
  {
    var r := FirstNearest(ws, client, distance);
    if r.Some? {
      var i := r.value;
      assert 0 <= i < |ws| && Eligible(ws[i]);
    } else {
      assert ChosenMatch(ws, client, distance).None?;
    }
  }

  /**
   * Ties go to the first worker seen: a qualified worker is never chosen over an
   * earlier qualified worker at the same distance.
   */
  lemma TieGoesToFirstSeen(ws: seq<Worker>, i: nat, j: nat, client: Location, distance: DistanceOracle)
    requires i < j < |ws|
    requires Qualifies(ws[i], client, distance) && Qualifies(ws[j], client, distance)
    requires DistanceTo(ws[i], client, distance) == DistanceTo(ws[j], client, distance)
    ensures FirstNearest(ws, client, distance) != Some(j)
  {
  }

  /**
   * The radius is inclusive: a lone eligible worker is chosen exactly when its
   * distance is at most SEARCH_RADIUS_KM, so one at 5 km is chosen.
   */
  lemma RadiusIsInclusive(w: Worker, client: Location, distance: DistanceOracle)
    requires Eligible(w)
    ensures FirstNearest([w], client, distance) == Some(0) <==>
              DistanceTo(w, client, distance) <= SEARCH_RADIUS_KM
  {
  }

  /** The first-nearest index of a sequence, shifted past an inserted worker at position k. */
  function ShiftPast(r: Option<nat>, k: nat): Option<nat> {
    match r
    case None => None
    case Some(i) => if i < k then Some(i) else Some(i + 1)
  }

  /** Where the workers of ws stand once w is inserted at position k. */
  lemma InsertedPositions(ws: seq<Worker>, k: nat, w: Worker)
    requires k <= |ws|
    ensures var vs := ws[..k] + [w] + ws[k..];
      && |vs| == |ws| + 1
      && vs[k] == w
      && (forall j :: 0 <= j < k ==> vs[j] == ws[j])
      && (forall j :: k < j < |vs| ==> vs[j] == ws[j - 1])
  {
  }

  /**
   * Inserting a worker that does not qualify keeps the first-nearest worker
   * first-nearest, at its shifted position.
   */
  lemma InsertionKeepsFirstNearest(ws: seq<Worker>, k: nat, w: Worker, i: nat, client: Location, distance: DistanceOracle)
    requires k <= |ws|
    requires !Qualifies(w, client, distance)
    requires IsFirstNearest(ws, |ws|, i, client, distance)
    ensures IsFirstNearest(ws[..k] + [w] + ws[k..], |ws| + 1, if i < k then i else i + 1, client, distance)
  {
    var vs := ws[..k] + [w] + ws[k..];
    InsertedPositions(ws, k, w);
    var i' := if i < k then i else i + 1;
    assert vs[i'] == ws[i];
    forall j | 0 <= j < |vs| && Qualifies(vs[j], client, distance)
      ensures DistanceTo(vs[i'], client, distance) <= DistanceTo(vs[j], client, distance)
    {
      if j < k { assert vs[j] == ws[j]; } else { assert vs[j] == ws[j - 1]; }
    }
    forall j | 0 <= j < i' && Qualifies(vs[j], client, distance)
      ensures DistanceTo(vs[i'], client, distance) < DistanceTo(vs[j], client, distance)
    {
      if j < k { assert vs[j] == ws[j]; } else { assert vs[j] == ws[j - 1]; }
    }
  }

  /**
   * A worker that does not qualify (no location, no name, or beyond the radius)
   * is never chosen, wherever it stands in the sequence: inserting it at any
   * position leaves the choice on the same worker.
   */
  lemma NonQualifyingWorkerIsIgnored(ws: seq<Worker>, k: nat, w: Worker, client: Location, distance: DistanceOracle)
    requires k <= |ws|
    requires !Qualifies(w, client, distance)
    ensures FirstNearest(ws[..k] + [w] + ws[k..], client, distance) == ShiftPast(FirstNearest(ws, client, distance), k)
  {
    var vs := ws[..k] + [w] + ws[k..];
    InsertedPositions(ws, k, w);
    var q := FirstNearest(vs, client, distance);
    match FirstNearest(ws, client, distance)
    case None =>
    case Some(i) =>
      InsertionKeepsFirstNearest(ws, k, w, i, client, distance);
      FirstNearestIsUnique(vs, |vs|, q.value, if i < k then i else i + 1, client, distance);
  }
}
