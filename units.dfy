/** Physical quantities and the units they are measured in.

    The two enumerations and the unit table follow `LIST_OF_QUANTITIES` and
    `LIST_OF_UNITS` of src/units.h: every unit of the table belongs to exactly
    one quantity, and each enumeration has one extra member, `Unknown`, that
    is added outside its table and therefore belongs to nothing. */
module Units {

  datatype Option<T> = None | Some(value: T)

  /** The physical quantities a meter can report. */
  datatype Quantity = Energy | Power | Volume | Unknown

  /** The units a value can be requested in. */
  datatype Unit = KWH | GJ | M3 | L | KW | Unknown

  /** One row of the unit table: the unit, its lower-case and human-readable
      names, the quantity it measures and a description. */
  datatype UnitInfo = UnitInfo(unit: Unit, lcName: string, hrName: string, quantity: Quantity, explanation: string)

  /** The quantities that the quantity table lists (`Unknown` is not among them). */
  const ListOfQuantities: seq<Quantity> := [Energy, Power, Volume]

  /** The unit table, row by row (`Unit.Unknown` is not among its rows). */
  const ListOfUnits: seq<UnitInfo> := [
    UnitInfo(KWH, "kwh", "kWh", Energy, "kilo Watt hour"),
    UnitInfo(GJ, "gj", "GJ", Energy, "Giga Joule"),
    UnitInfo(M3, "m3", "m3", Volume, "cubic meter"),
    UnitInfo(L, "l", "l", Volume, "litre"),
    UnitInfo(KW, "kw", "kW", Power, "kilo Watt")
  ]

  /** No unit occurs in two rows of `table`. */
  predicate UniqueUnits(table: seq<UnitInfo>) {
    forall i, j :: 0 <= i < j < |table| ==> table[i].unit != table[j].unit
  }

  /** The quantity of the first row of `table` that lists `u`, if any. */
  function Lookup(table: seq<UnitInfo>, u: Unit): Option<Quantity> {
    if table == [] then None
    else if table[0].unit == u then Some(table[0].quantity)
    else Lookup(table[1..], u)
  }

  /** The lookup fails exactly when no row lists the unit, and a quantity
      it finds comes from a row that lists the unit. */
  lemma {:induction false} LookupSound(table: seq<UnitInfo>, u: Unit)
    ensures Lookup(table, u).None? <==> forall i :: 0 <= i < |table| ==> table[i].unit != u
    ensures Lookup(table, u).Some? ==>
      exists i :: 0 <= i < |table| && table[i].unit == u && table[i].quantity == Lookup(table, u).value
  {
    if table != [] && table[0].unit != u {
      LookupSound(table[1..], u);
      assert forall i :: 1 <= i < |table| ==> table[i] == table[1..][i - 1];
      if Lookup(table, u).Some? {
        var i :| 0 <= i < |table| - 1 && table[1..][i].unit == u && table[1..][i].quantity == Lookup(table, u).value;
        assert table[i + 1] == table[1..][i];
      }
    }
  }

  /** In a table without repeated units, the lookup finds the quantity of the
      one row that lists the unit. */
  lemma {:induction false} LookupFindsRow(table: seq<UnitInfo>, i: nat)
    requires UniqueUnits(table)
    requires i < |table|
    ensures Lookup(table, table[i].unit) == Some(table[i].quantity)
  {
    if i > 0 {
      assert table[0].unit != table[i].unit;
      assert table[1..][i - 1] == table[i];
      LookupFindsRow(table[1..], i - 1);
    }
  }

  /** The unit table lists every unit at most once. */
  lemma ListOfUnitsUnique()
    ensures UniqueUnits(ListOfUnits)
  {
  }

  /** `isQuantity`: unit `u` measures quantity `q` according to the unit table. */
  predicate IsQuantity(u: Unit, q: Quantity) {
    Lookup(ListOfUnits, u) == Some(q)
  }

  /** `IsQuantity` is exactly membership of the pair in the unit table. */
  lemma IsQuantityIffListed(u: Unit, q: Quantity)
    ensures IsQuantity(u, q) <==> exists i :: 0 <= i < |ListOfUnits| && ListOfUnits[i].unit == u && ListOfUnits[i].quantity == q
  {
    LookupSound(ListOfUnits, u);
    if exists i :: 0 <= i < |ListOfUnits| && ListOfUnits[i].unit == u && ListOfUnits[i].quantity == q {
      var i :| 0 <= i < |ListOfUnits| && ListOfUnits[i].unit == u && ListOfUnits[i].quantity == q;
      ListOfUnitsUnique();
      LookupFindsRow(ListOfUnits, i);
    }
  }

  /** Every unit of the table measures exactly its own row's quantity, so
      asking it for a quantity of another kind is always refused. */
  lemma TableUnitHasOneQuantity(i: nat, q: Quantity)
    requires i < |ListOfUnits|
    ensures IsQuantity(ListOfUnits[i].unit, q) <==> q == ListOfUnits[i].quantity
  {
    ListOfUnitsUnique();
    LookupFindsRow(ListOfUnits, i);
  }

  /** Energy is measured in kWh and GJ and in nothing else. */
  lemma EnergyUnits(u: Unit)
    ensures IsQuantity(u, Energy) <==> u == KWH || u == GJ
  {
  }

  /** Volume is measured in m3 and litres and in nothing else. */
  lemma VolumeUnits(u: Unit)
    ensures IsQuantity(u, Volume) <==> u == M3 || u == L
  {
  }

  /** Power is measured in kW and in nothing else. */
  lemma PowerUnits(u: Unit)
    ensures IsQuantity(u, Power) <==> u == KW
  {
  }

  /** Exactly the units of the table have a quantity: `Unit.Unknown` has none,
      and no unit measures `Quantity.Unknown`. */
  lemma UnknownHasNoQuantity(u: Unit)
    ensures Lookup(ListOfUnits, u).None? <==> u == Unit.Unknown
    ensures !IsQuantity(u, Quantity.Unknown)
  {
  }

  /** The quantity enumeration is the quantity table plus `Unknown`, and every
      listed quantity has at least one unit. */
  lemma QuantitiesAreListed(q: Quantity)
    ensures q in ListOfQuantities <==> q != Quantity.Unknown
    ensures q in ListOfQuantities ==> exists u :: IsQuantity(u, q)
  {
    match q
    case Energy => assert IsQuantity(KWH, q);
    case Power => assert IsQuantity(KW, q);
    case Volume => assert IsQuantity(M3, q);
    case Unknown =>
  }
}
