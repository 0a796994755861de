/**
 * The Room database of the app: the `simulations` table behind
 * SimulationDao and the `payments` table behind PaymentDao, whose
 * `simulationId` column is a foreign key to `simulations(id)` with
 * ON DELETE CASCADE.
 *
 * A table is a map from primary key to row. Both primary keys are
 * AUTOINCREMENT columns: a row inserted with id 0 receives one more than the
 * largest id the table has ever held, which SQLite keeps in its
 * `sqlite_sequence` table (modelled by the two `...Sequence` fields).
 */
module Persistence {
  import opened Model
  import opened Sorting

  /** Why SQLite refuses an insert (Room raises SQLiteConstraintException). */
  datatype ConstraintViolation = ForeignKeyViolation | PrimaryKeyViolation

  /** `v` is one of the rows stored in table `m`. */
  ghost predicate IsRowOf<V>(v: V, m: map<int, V>)
  {
    exists k :: k in m && m[k] == v
  }

  /** The rows of `m` at the keys `ks`, in that order. */
  function RowsAt<V(==,!new)>(m: map<int, V>, ks: seq<int>): (r: seq<V>)
    requires forall i :: 0 <= i < |ks| ==> ks[i] in m
    ensures |r| == |ks|
    ensures forall i :: 0 <= i < |r| ==> r[i] == m[ks[i]]
    decreases |ks|
  {
    if ks == [] then [] else [m[ks[0]]] + RowsAt(m, ks[1..])
  }

  /** All rows of a table in the order SQLite scans it: ascending row id. */
  function TableScan<V(==,!new)>(m: map<int, V>): (r: seq<V>)
    ensures |r| == |m|
    ensures forall v :: v in r <==> IsRowOf(v, m)
  {
    var ks := Ascending(m.Keys);
    RowsAtCover(m, ks);
    RowsAt(m, ks)
  }

  /** Reading the rows at every key of a table meets exactly the table's rows. */
  lemma RowsAtCover<V(!new)>(m: map<int, V>, ks: seq<int>)
    requires forall k :: k in ks <==> k in m.Keys
    ensures forall i :: 0 <= i < |ks| ==> ks[i] in m
    ensures forall v :: v in RowsAt(m, ks) <==> IsRowOf(v, m)
  {
    KeysListed(m, ks);
    RowsAtInTable(m, ks);
    TableInRowsAt(m, ks);
  }

  lemma KeysListed<V(!new)>(m: map<int, V>, ks: seq<int>)
    requires forall k :: k in ks ==> k in m.Keys
    ensures forall i :: 0 <= i < |ks| ==> ks[i] in m
  {
    forall i | 0 <= i < |ks| ensures ks[i] in m {
      var k := ks[i];
      assert k in ks;
    }
  }

  lemma RowsAtInTable<V(!new)>(m: map<int, V>, ks: seq<int>)
    requires forall i :: 0 <= i < |ks| ==> ks[i] in m
    ensures forall v :: v in RowsAt(m, ks) ==> IsRowOf(v, m)
  {
    var r := RowsAt(m, ks);
    forall v | v in r ensures IsRowOf(v, m) {
      var i :| 0 <= i < |r| && r[i] == v;
      var k := ks[i];
      assert k in m && m[k] == v;
    }
  }

  lemma TableInRowsAt<V(!new)>(m: map<int, V>, ks: seq<int>)
    requires forall i :: 0 <= i < |ks| ==> ks[i] in m
    requires forall k :: k in m.Keys ==> k in ks
    ensures forall v :: IsRowOf(v, m) ==> v in RowsAt(m, ks)
  {
    var r := RowsAt(m, ks);
    forall v | IsRowOf(v, m) ensures v in r {
      var k :| k in m && m[k] == v;
      assert k in ks;
      var i :| 0 <= i < |ks| && ks[i] == k;
      assert r[i] == v;
    }
  }

  /** Row `m[k]` carries its own key `k`. */
  ghost predicate KeyedBy<V(!new)>(m: map<int, V>, idOf: V -> int)
  {
    forall k :: k in m ==> idOf(m[k]) == k
  }

  lemma {:induction false} RowsAtOnce<V(!new)>(m: map<int, V>, ks: seq<int>, idOf: V -> int)
    requires KeyedBy(m, idOf)
    requires forall i :: 0 <= i < |ks| ==> ks[i] in m
    requires forall i, j :: 0 <= i < j < |ks| ==> ks[i] < ks[j]
    ensures forall v :: v in RowsAt(m, ks) ==> multiset(RowsAt(m, ks))[v] == 1
    decreases |ks|
  {
    if ks != [] {
      var r := RowsAt(m, ks);
      var rest := RowsAt(m, ks[1..]);
      assert r == [m[ks[0]]] + rest;
      RowsAtOnce(m, ks[1..], idOf);
      forall v | v in r ensures multiset(r)[v] == 1 {
        if v == m[ks[0]] {
          assert v !in rest;
        }
      }
    }
  }

  /** A table scan meets every row exactly once. */
  lemma TableScanOnce<V(!new)>(m: map<int, V>, idOf: V -> int)
    requires KeyedBy(m, idOf)
    ensures forall v :: IsRowOf(v, m) ==> multiset(TableScan(m))[v] == 1
  {
    RowsAtOnce(m, Ascending(m.Keys), idOf);
  }

  function SimulationId(s: SavedSimulation): int { s.id }
  function PaymentId(p: PaymentEntry): int { p.id }

  /** Sort key of `ORDER BY createdAt DESC`. */
  function CreatedAtDescending(s: SavedSimulation): int { -s.createdAt }

  /** Sort key of `ORDER BY paymentDate DESC`. */
  function PaymentDateDescending(p: PaymentEntry): int { -p.paymentDate }

  lemma NewestFirst(r: seq<SavedSimulation>)
    requires SortedBy(r, CreatedAtDescending)
    ensures forall i, j :: 0 <= i < j < |r| ==> r[i].createdAt >= r[j].createdAt
  {
    forall i, j | 0 <= i < j < |r| ensures r[i].createdAt >= r[j].createdAt {
      assert CreatedAtDescending(r[i]) <= CreatedAtDescending(r[j]);
    }
  }

  lemma LatestFirst(r: seq<PaymentEntry>)
    requires SortedBy(r, PaymentDateDescending)
    ensures forall i, j :: 0 <= i < j < |r| ==> r[i].paymentDate >= r[j].paymentDate
  {
    forall i, j | 0 <= i < j < |r| ensures r[i].paymentDate >= r[j].paymentDate {
      assert PaymentDateDescending(r[i]) <= PaymentDateDescending(r[j]);
    }
  }

  /** All simulations, each once when keyed by id, newest first. */
  lemma SimulationsQuery(simulations: map<int, SavedSimulation>)
    ensures var r := SortBy(TableScan(simulations), CreatedAtDescending);
      && |r| == |simulations|
      && (forall s :: s in r <==> IsRowOf(s, simulations))
      && (KeyedBy(simulations, SimulationId) ==> forall s :: s in r ==> multiset(r)[s] == 1)
      && (forall i, j :: 0 <= i < j < |r| ==> r[i].createdAt >= r[j].createdAt)
  {
    var rows := TableScan(simulations);
    var r := SortBy(rows, CreatedAtDescending);
    SortByKeepsElements(rows, CreatedAtDescending);
    NewestFirst(r);
    if KeyedBy(simulations, SimulationId) {
      TableScanOnce(simulations, SimulationId);
    }
  }

  /** The rows of `s` that belong to simulation `simulationId`, in order. */
  function OfSimulation(s: seq<PaymentEntry>, simulationId: int): (r: seq<PaymentEntry>)
    ensures forall p :: multiset(r)[p] == if p.simulationId == simulationId then multiset(s)[p] else 0
    ensures forall p :: p in r <==> p in s && p.simulationId == simulationId
    decreases |s|
  {
    if s == [] then []
    else
      assert s == [s[0]] + s[1..];
      (if s[0].simulationId == simulationId then [s[0]] else []) + OfSimulation(s[1..], simulationId)
  }

  /** The rows of `payments` that belong to `simulationId`, latest first. */
  lemma PaymentsQuery(payments: map<int, PaymentEntry>, simulationId: int)
    ensures var r := SortBy(OfSimulation(TableScan(payments), simulationId), PaymentDateDescending);
      && (forall p :: p in r <==> IsRowOf(p, payments) && p.simulationId == simulationId)
      && (KeyedBy(payments, PaymentId) ==> forall p :: p in r ==> multiset(r)[p] == 1)
      && (forall i, j :: 0 <= i < j < |r| ==> r[i].paymentDate >= r[j].paymentDate)
  {
    var rows := TableScan(payments);
    var mine := OfSimulation(rows, simulationId);
    var r := SortBy(mine, PaymentDateDescending);
    SortByKeepsElements(mine, PaymentDateDescending);
    LatestFirst(r);
    if KeyedBy(payments, PaymentId) {
      TableScanOnce(payments, PaymentId);
      SelectionOnce(rows, simulationId);
    }
  }

  /** Selecting and sorting rows that occur once keeps each of them once. */
  lemma SelectionOnce(rows: seq<PaymentEntry>, simulationId: int)
    requires forall p :: p in rows ==> multiset(rows)[p] == 1
    ensures var r := SortBy(OfSimulation(rows, simulationId), PaymentDateDescending);
      forall p :: p in r ==> multiset(r)[p] == 1
  {
    var mine := OfSimulation(rows, simulationId);
    SortByKeepsElements(mine, PaymentDateDescending);
  }

  /** The first active row of `s`, as `LIMIT 1` returns it. */
  function FirstActive(s: seq<SavedSimulation>): (r: Option<SavedSimulation>)
    ensures r.Some? ==> r.value in s && r.value.isActiveCredit
    ensures r.None? <==> forall x :: x in s ==> !x.isActiveCredit
    decreases |s|
  {
    if s == [] then None
    else if s[0].isActiveCredit then Some(s[0])
    else
      assert forall x :: x in s ==> x == s[0] || x in s[1..];
      FirstActive(s[1..])
  }

  /** At most one simulation is flagged as the active credit. */
  ghost predicate AtMostOneActive(simulations: map<int, SavedSimulation>)
  {
    forall a, b ::
      (a in simulations && b in simulations && simulations[a].isActiveCredit && simulations[b].isActiveCredit) ==> a == b
  }

  /**
   * `after` is `before` with the active flag set on row `id` and cleared
   * on every other row; every other column of every row is kept.
   */
  ghost predicate ActiveFlagMovedTo(before: map<int, SavedSimulation>, after: map<int, SavedSimulation>, id: int)
  {
    && after.Keys == before.Keys
    && forall k :: k in after ==> after[k] == before[k].(isActiveCredit := k == id)
  }

  /** The payments that survive deleting simulation `simulationId` (ON DELETE CASCADE). */
  function WithoutPaymentsOf(payments: map<int, PaymentEntry>, simulationId: int): (r: map<int, PaymentEntry>)
    ensures forall k :: k in r <==> k in payments && payments[k].simulationId != simulationId
    ensures forall k :: k in r ==> r[k] == payments[k]
  {
    map k | k in payments && payments[k].simulationId != simulationId :: payments[k]
  }

  function Max(a: int, b: int): int { if a < b then b else a }

  class AppDatabase {
    var simulations: map<int, SavedSimulation>
    var simulationSequence: int
    var payments: map<int, PaymentEntry>
    var paymentSequence: int

    /**
     * Keys match the rows' ids, no stored id is 0 or beyond its sequence,
     * and every payment belongs to a stored simulation (foreign key).
     */
    ghost predicate Valid()
      reads this
    {
      && simulationSequence >= 0
      && paymentSequence >= 0
      && (forall k :: k in simulations ==> simulations[k].id == k && k != 0 && k <= simulationSequence)
      && (forall k :: k in payments ==> payments[k].id == k && k != 0 && k <= paymentSequence)
      && (forall k :: k in payments ==> payments[k].simulationId in simulations)
    }

    constructor ()
      ensures Valid()
      ensures simulations == map[] && payments == map[]
    {
      simulations, payments := map[], map[];
      simulationSequence, paymentSequence := 0, 0;
    }

    // ----- SimulationDao -----

    /**
     * `insertSimulation` with OnConflictStrategy.REPLACE. Id 0 asks for a
     * fresh id. A row with the same id is deleted first, which cascades to
     * its payments, and then the new row is stored.
     */
    method InsertSimulation(simulation: SavedSimulation)
      requires Valid()
      modifies this
      ensures Valid()
      ensures var id := if simulation.id == 0 then old(simulationSequence) + 1 else simulation.id;
        && simulations == old(simulations)[id := simulation.(id := id)]
        && payments == (if id in old(simulations) then WithoutPaymentsOf(old(payments), id) else old(payments))
        && simulationSequence == Max(old(simulationSequence), id)
      ensures paymentSequence == old(paymentSequence)
      ensures simulation.id == 0 ==> old(simulationSequence) + 1 !in old(simulations)
      ensures !simulation.isActiveCredit && AtMostOneActive(old(simulations)) ==> AtMostOneActive(simulations)
    {
      var id := if simulation.id == 0 then simulationSequence + 1 else simulation.id;
      if id in simulations {
        payments := WithoutPaymentsOf(payments, id);
      }
      simulations := simulations[id := simulation.(id := id)];
      simulationSequence := Max(simulationSequence, id);
    }

    /** `getAllSimulations`: every row once, newest `createdAt` first. */
    function GetAllSimulations(): (r: seq<SavedSimulation>)
      reads this
      ensures |r| == |simulations|
      ensures forall s :: s in r <==> IsRowOf(s, simulations)
      ensures Valid() ==> forall s :: s in r ==> multiset(r)[s] == 1
      ensures forall i, j :: 0 <= i < j < |r| ==> r[i].createdAt >= r[j].createdAt
    {
      SimulationsQuery(simulations);
      assert Valid() ==> KeyedBy(simulations, SimulationId);
      SortBy(TableScan(simulations), CreatedAtDescending)
    }

    /** `deleteSimulationById`: the row goes, and with it its payments. */
    method DeleteSimulationById(id: int)
      requires Valid()
      modifies this
      ensures Valid()
      ensures simulations == old(simulations) - {id}
      ensures payments == WithoutPaymentsOf(old(payments), id)
      ensures forall k :: k in payments ==> payments[k].simulationId != id
      ensures simulationSequence == old(simulationSequence) && paymentSequence == old(paymentSequence)
      ensures AtMostOneActive(old(simulations)) ==> AtMostOneActive(simulations)
    {
      simulations := simulations - {id};
      payments := WithoutPaymentsOf(payments, id);
    }

    /** `UPDATE simulations SET isActiveCredit = 0`. */
    method DeactivateAllCredits()
      requires Valid()
      modifies this`simulations
      ensures Valid()
      ensures simulations.Keys == old(simulations).Keys
      ensures forall k :: k in simulations ==> simulations[k] == old(simulations)[k].(isActiveCredit := false)
    {
      simulations := map k | k in simulations :: simulations[k].(isActiveCredit := false);
    }

    /** `UPDATE simulations SET isActiveCredit = 1 WHERE id = :id`. */
    method ActivateCreditById(id: int)
      requires Valid()
      modifies this`simulations
      ensures Valid()
      ensures simulations == if id in old(simulations)
                             then old(simulations)[id := old(simulations)[id].(isActiveCredit := true)]
                             else old(simulations)
    {
      if id in simulations {
        simulations := simulations[id := simulations[id].(isActiveCredit := true)];
      }
    }

    /**
     * `setActiveCredit`, one transaction: clear every flag, then set the one
     * of `id`. Afterwards the row `id`, if stored, is the only active one.
     */
    method SetActiveCredit(id: int)
      requires Valid()
      modifies this`simulations
      ensures Valid()
      ensures simulations.Keys == old(simulations).Keys
      ensures forall k :: k in simulations ==> simulations[k] == old(simulations)[k].(isActiveCredit := k == id)
      ensures ActiveFlagMovedTo(old(simulations), simulations, id)
      ensures forall k :: k in simulations ==> (simulations[k].isActiveCredit <==> k == id)
      ensures AtMostOneActive(simulations)
      ensures id !in simulations ==> forall k :: k in simulations ==> !simulations[k].isActiveCredit
    {
      DeactivateAllCredits();
      ActivateCreditById(id);
    }

    /** `getActiveCredit`: an active row if there is one. */
    function GetActiveCredit(): (r: Option<SavedSimulation>)
      reads this
      ensures r.Some? ==> IsRowOf(r.value, simulations) && r.value.isActiveCredit
      ensures r.None? <==> forall k :: k in simulations ==> !simulations[k].isActiveCredit
      ensures r.Some? && AtMostOneActive(simulations) ==>
        forall k :: k in simulations && simulations[k].isActiveCredit ==> simulations[k] == r.value
    {
      var r := FirstActive(TableScan(simulations));
      assert forall k :: k in simulations ==> IsRowOf(simulations[k], simulations);
      r
    }

    /** When at most one row is active, an active row is the one `getActiveCredit` returns. */
    lemma ActiveCreditIs(id: int)
      requires AtMostOneActive(simulations)
      requires id in simulations && simulations[id].isActiveCredit
      ensures GetActiveCredit() == Some(simulations[id])
    {
      var r := GetActiveCredit();
      assert r.Some?;
      assert simulations[id] == r.value;
    }

    /** `getSimulationById`: the row with that id, if stored. */
    function GetSimulationById(id: int): (r: Option<SavedSimulation>)
      reads this
      ensures r.Some? <==> id in simulations
      ensures r.Some? ==> r.value == simulations[id]
    {
      if id in simulations then Some(simulations[id]) else None
    }

    // ----- PaymentDao -----

    /**
     * `insertPayment` (default conflict strategy ABORT). Id 0 asks for a
     * fresh id. The insert is refused, and nothing changes, when the
     * simulation does not exist or the id is already taken.
     */
    method InsertPayment(payment: PaymentEntry) returns (violation: Option<ConstraintViolation>)
      requires Valid()
      modifies this`payments, this`paymentSequence
      ensures Valid()
      ensures var id := if payment.id == 0 then old(paymentSequence) + 1 else payment.id;
        && (violation.None? <==> payment.simulationId in simulations && id !in old(payments))
        && (violation.None? ==> payments == old(payments)[id := payment.(id := id)]
                                && paymentSequence == Max(old(paymentSequence), id)
                                && |payments| == |old(payments)| + 1)
        && (violation.Some? ==> payments == old(payments) && paymentSequence == old(paymentSequence))
      ensures payment.simulationId !in simulations ==> violation == Some(ForeignKeyViolation)
    {
      var id := if payment.id == 0 then paymentSequence + 1 else payment.id;
      if payment.simulationId !in simulations {
        return Some(ForeignKeyViolation);
      }
      if id in payments {
        return Some(PrimaryKeyViolation);
      }
      payments := payments[id := payment.(id := id)];
      paymentSequence := Max(paymentSequence, id);
      violation := None;
    }

    /**
     * `getPaymentsForSimulation`: exactly the payments of that simulation,
     * each once, latest `paymentDate` first.
     */
    function GetPaymentsForSimulation(simulationId: int): (r: seq<PaymentEntry>)
      reads this
      ensures forall p :: p in r <==> IsRowOf(p, payments) && p.simulationId == simulationId
      ensures Valid() ==> forall p :: p in r ==> multiset(r)[p] == 1
      ensures forall i, j :: 0 <= i < j < |r| ==> r[i].paymentDate >= r[j].paymentDate
    {
      PaymentsQuery(payments, simulationId);
      SortBy(OfSimulation(TableScan(payments), simulationId), PaymentDateDescending)
    }
  }
}
