/** Filament selections turned into AMS trays: from the printer's report to the print command. */
module AmsMapping {
  import opened Prelude

  const VIRTUAL_TRAY := 255
  const SLOTS_PER_AMS := 4

  // ---------------------------------------------------------------------
  // The printer's AMS report.

  // remain is None when the field is not a number.
  datatype RawTray = RawTray(id: int, remain: Option<int>)

  datatype RawUnit = RawUnit(id: int, trays: seq<RawTray>)

  datatype Tray = Tray(slot: int, amsId: int, trayId: int, remain: int)

  function TrayOf(unit: RawUnit, raw: RawTray): Tray {
    Tray(unit.id * SLOTS_PER_AMS + raw.id, unit.id, raw.id, raw.remain.GetOr(-1))
  }

  function UnitTrays(unit: RawUnit): seq<Tray> {
    seq(|unit.trays|, i requires 0 <= i < |unit.trays| => TrayOf(unit, unit.trays[i]))
  }

  function AllTrays(units: seq<RawUnit>): seq<Tray>
    decreases units
  {
    if units == [] then [] else AllTrays(units[..|units| - 1]) + UnitTrays(units[|units| - 1])
  }

  /** The trays of a report, one unit at a time; a report without units leaves the cached trays alone. */
  method ParseUnits(units: seq<RawUnit>, cached: seq<Tray>) returns (trays: seq<Tray>)
    ensures trays == if units == [] then cached else AllTrays(units)
  {
    if units == [] {
      return cached;
    }
    trays := [];
    for u := 0 to |units|
      invariant trays == AllTrays(units[..u])
    {
      var unit := units[u];
      ghost var before := trays;
      for i := 0 to |unit.trays|
        invariant trays == before + UnitTrays(unit)[..i]
      {
        trays := trays + [TrayOf(unit, unit.trays[i])];
      }
      assert UnitTrays(unit)[..|unit.trays|] == UnitTrays(unit);
      assert units[..u + 1][..u] == units[..u];
    }
    assert units[..|units|] == units;
  }

  lemma {:induction false} TraysComeFromUnits(units: seq<RawUnit>, t: Tray)
    requires t in AllTrays(units)
    ensures exists unit, raw :: unit in units && raw in unit.trays && t == TrayOf(unit, raw)
    decreases units
  {
    var init, last := units[..|units| - 1], units[|units| - 1];
    if t in AllTrays(init) {
      TraysComeFromUnits(init, t);
      var unit, raw :| unit in init && raw in unit.trays && t == TrayOf(unit, raw);
      assert unit in units;
    } else {
      var i :| 0 <= i < |last.trays| && UnitTrays(last)[i] == t;
      assert last.trays[i] in last.trays && last in units;
    }
  }

  // Trays of the units before the u-th.
  function TraysBefore(units: seq<RawUnit>, u: nat): nat
    requires u <= |units|
  {
    if u == 0 then 0 else TraysBefore(units, u - 1) + |units[u - 1].trays|
  }

  lemma TraysBeforeInit(units: seq<RawUnit>, u: nat)
    requires u < |units|
    ensures TraysBefore(units[..|units| - 1], u) == TraysBefore(units, u)
    decreases u
  {
    if u > 0 {
      TraysBeforeInit(units, u - 1);
    }
  }

  /**
   * Every tray of every unit is listed, unit by unit, under four times the unit's number plus its own; what is left
   * on it is -1 where the report gives no number.
   */
  lemma {:induction false} EveryTrayIsListed(units: seq<RawUnit>, u: nat, i: nat)
    requires u < |units| && i < |units[u].trays|
    ensures |AllTrays(units)| == TraysBefore(units, |units|)
    ensures TraysBefore(units, u) + i < |AllTrays(units)|
    ensures var unit, raw := units[u], units[u].trays[i];
            AllTrays(units)[TraysBefore(units, u) + i] ==
            Tray(unit.id * 4 + raw.id, unit.id, raw.id, if raw.remain.Some? then raw.remain.value else -1)
    decreases units
  {
    var init := units[..|units| - 1];
    AllTraysCount(init);
    TraysBeforeAll(units);
    if u < |init| {
      TraysBeforeInit(units, u);
      EveryTrayIsListed(init, u, i);
    }
  }

  lemma TraysBeforeAll(units: seq<RawUnit>)
    requires units != []
    ensures TraysBefore(units[..|units| - 1], |units| - 1) == TraysBefore(units, |units| - 1)
  {
    if |units| > 1 {
      TraysBeforeInit(units, |units| - 2);
    }
  }

  lemma {:induction false} AllTraysCount(units: seq<RawUnit>)
    ensures |AllTrays(units)| == TraysBefore(units, |units|)
    decreases units
  {
    if units != [] {
      AllTraysCount(units[..|units| - 1]);
      TraysBeforeAll(units);
    }
  }

  // ---------------------------------------------------------------------
  // The selections of a request.

  // One item of the payload: position is None when the key is not an integer, tray when no integer tray was chosen.
  datatype Selection = Selection(position: Option<int>, tray: Option<int>)

  // An insertion-ordered dictionary from positions to trays.
  type TraySlots = seq<(int, int)>

  function Put(slots: TraySlots, position: int, tray: int): TraySlots {
    if slots == [] then [(position, tray)]
    else if slots[0].0 == position then [(position, tray)] + slots[1..]
    else [slots[0]] + Put(slots[1..], position, tray)
  }

  function Selected(payload: seq<Selection>): TraySlots
    decreases payload
  {
    if payload == [] then []
    else
      var init, last := payload[..|payload| - 1], payload[|payload| - 1];
      if last.position.Some? && last.tray.Some? then Put(Selected(init), last.position.value, last.tray.value)
      else Selected(init)
  }

  method ExtractSelectedTraySlots(payload: Option<seq<Selection>>) returns (slots: TraySlots)
    ensures slots == Selected(payload.GetOr([]))
  {
    slots := [];
    if payload.None? {
      return;
    }
    var items := payload.value;
    for i := 0 to |items|
      invariant slots == Selected(items[..i])
    {
      assert items[..i + 1][..i] == items[..i];
      if items[i].tray.Some? && items[i].position.Some? {
        slots := Put(slots, items[i].position.value, items[i].tray.value);
      }
    }
    assert items[..|items|] == items;
  }

  predicate Chosen(slots: TraySlots, position: int, tray: int) {
    (position, tray) in slots
  }

  predicate DistinctPositions(slots: TraySlots) {
    forall i, j | 0 <= i < j < |slots| :: slots[i].0 != slots[j].0
  }

  lemma {:induction false} PutOne(slots: TraySlots, position: int, tray: int)
    requires DistinctPositions(slots)
    ensures DistinctPositions(Put(slots, position, tray))
    ensures forall p, t ::
      Chosen(Put(slots, position, tray), p, t) <==> if p == position then t == tray else Chosen(slots, p, t)
    decreases slots
  {
    var r := Put(slots, position, tray);
    if slots != [] && slots[0].0 == position {
      assert slots == [slots[0]] + slots[1..];
    } else if slots != [] {
      PutOne(slots[1..], position, tray);
      assert slots == [slots[0]] + slots[1..];
      var rest := Put(slots[1..], position, tray);
      forall i | 0 <= i < |rest|
        ensures rest[i].0 != slots[0].0
      {
        assert Chosen(rest, rest[i].0, rest[i].1);
        assert rest[i].0 == position || Chosen(slots[1..], rest[i].0, rest[i].1);
      }
      assert r == [slots[0]] + rest;
      forall p, t
        ensures Chosen(r, p, t) <==> if p == position then t == tray else Chosen(slots, p, t)
      {
        assert Chosen(r, p, t) <==> (p, t) == slots[0] || Chosen(rest, p, t);
        assert Chosen(slots, p, t) <==> (p, t) == slots[0] || Chosen(slots[1..], p, t);
      }
    }
  }

  // The payload's last choice for a position.
  ghost predicate LastChoice(payload: seq<Selection>, position: int, tray: int) {
    exists i :: 0 <= i < |payload| && payload[i] == Selection(Some(position), Some(tray))
      && forall j | i < j < |payload| :: payload[j].position == Some(position) ==> payload[j].tray.None?
  }

  // The payload's last item chooses a tray for the position.
  predicate EndsWithChoice(payload: seq<Selection>, position: int) {
    payload != [] && payload[|payload| - 1].position == Some(position) && payload[|payload| - 1].tray.Some?
  }

  lemma {:induction false} ChoiceStays(payload: seq<Selection>, position: int, tray: int)
    requires payload != [] && !EndsWithChoice(payload, position) && LastChoice(payload[..|payload| - 1], position, tray)
    ensures LastChoice(payload, position, tray)
  {
    var init := payload[..|payload| - 1];
    var i :| 0 <= i < |init| && init[i] == Selection(Some(position), Some(tray))
      && forall j | i < j < |init| :: init[j].position == Some(position) ==> init[j].tray.None?;
    assert payload[i] == init[i] && forall j | i < j < |init| :: payload[j] == init[j];
  }

  lemma {:induction false} ChoiceWasThere(payload: seq<Selection>, position: int, tray: int)
    requires payload != [] && !EndsWithChoice(payload, position) && LastChoice(payload, position, tray)
    ensures LastChoice(payload[..|payload| - 1], position, tray)
  {
    var init := payload[..|payload| - 1];
    var i :| 0 <= i < |payload| && payload[i] == Selection(Some(position), Some(tray))
      && forall j | i < j < |payload| :: payload[j].position == Some(position) ==> payload[j].tray.None?;
    assert init[i] == payload[i] && forall j | i < j < |init| :: init[j] == payload[j];
  }

  lemma {:induction false} ChoiceIsLast(payload: seq<Selection>, position: int, tray: int)
    requires EndsWithChoice(payload, position)
    ensures LastChoice(payload, position, tray) <==> payload[|payload| - 1].tray.value == tray
  {
    assert payload[|payload| - 1] == Selection(Some(position), payload[|payload| - 1].tray);
  }

  /** Each position has at most one tray, the last one the payload chose for it. */
  lemma {:induction false} SelectionsAreLast(payload: seq<Selection>, position: int, tray: int)
    ensures DistinctPositions(Selected(payload))
    ensures Chosen(Selected(payload), position, tray) <==> LastChoice(payload, position, tray)
    decreases payload
  {
    if payload != [] {
      var init, last := payload[..|payload| - 1], payload[|payload| - 1];
      SelectionsAreLast(init, position, tray);
      hide LastChoice, DistinctPositions, Chosen;
      if last.position.Some? && last.tray.Some? {
        PutOne(Selected(init), last.position.value, last.tray.value);
      }
      if EndsWithChoice(payload, position) {
        ChoiceIsLast(payload, position, tray);
      } else if LastChoice(payload, position, tray) {
        ChoiceWasThere(payload, position, tray);
      } else if LastChoice(init, position, tray) {
        ChoiceStays(payload, position, tray);
      }
    }
  }

  // ---------------------------------------------------------------------
  // The mapping array.

  // The largest of a non-empty list.
  function MaxOf(s: seq<int>): int
    requires s != []
  {
    if |s| == 1 then s[0] else Max(s[0], MaxOf(s[1..]))
  }

  lemma {:induction false} MaxBounds(s: seq<int>, i: nat)
    requires i < |s|
    ensures s[i] <= MaxOf(s)
  {
    if i > 0 {
      MaxBounds(s[1..], i - 1);
    }
  }

  function Positions(slots: TraySlots): seq<int> {
    seq(|slots|, i requires 0 <= i < |slots| => slots[i].0)
  }

  function OrZero(count: Option<int>): int {
    count.GetOr(0)
  }

  // The array's length; the highest selected position adds nothing to the highest authored slot.
  function Size(slots: TraySlots, count: Option<int>, authored: Option<seq<int>>): int
    requires slots != []
  {
    if authored.Some? then
      var top := if authored.value == [] then -1 else MaxOf(authored.value);
      var last := MaxOf(Positions(slots));
      Max((if 0 <= last < |authored.value| then Max(top, authored.value[last]) else top) + 1, OrZero(count))
    else count.GetOr(MaxOf(Positions(slots)) + 1)
  }

  lemma {:induction false} MaxIsOne(s: seq<int>)
    requires s != []
    ensures MaxOf(s) in s
  {
    if |s| > 1 {
      MaxIsOne(s[1..]);
    }
  }

  /**
   * The array is as short as it can be: with authored slots it has room for each of them and for the count given,
   * and no more; without them it has the count given, or else just room for every selected position.
   */
  lemma {:induction false} ShortestArray(slots: TraySlots, count: Option<int>, authored: Option<seq<int>>, size: int)
    requires slots != []
    ensures authored.Some? && NonNegative(authored.value) ==>
              (size == Size(slots, count, authored) <==>
                 && size >= 0 && size >= OrZero(count) && (forall slot | slot in authored.value :: slot < size)
                 && (size == 0 || size == OrZero(count) || exists slot :: slot in authored.value && slot + 1 == size))
    ensures authored.None? ==>
              (size == Size(slots, count, authored) <==>
                 if count.Some? then size == count.value
                 else
                   && (forall i | 0 <= i < |slots| :: slots[i].0 < size)
                   && (exists i :: 0 <= i < |slots| && slots[i].0 + 1 == size))
  {
    var positions := Positions(slots);
    MaxIsOne(positions);
    forall i | 0 <= i < |slots| ensures slots[i].0 == positions[i] <= MaxOf(positions) {
      MaxBounds(positions, i);
    }
    if authored.Some? && authored.value != [] {
      MaxIsOne(authored.value);
      forall i | 0 <= i < |authored.value| ensures authored.value[i] <= MaxOf(authored.value) {
        MaxBounds(authored.value, i);
      }
    }
  }

  function SlotOf(position: int, authored: Option<seq<int>>): Option<int> {
    if authored.None? then Some(position)
    else if 0 <= position < |authored.value| then Some(authored.value[position])
    else None
  }

  // A selection that has an entry in an array of this size.
  predicate Lands(position: int, authored: Option<seq<int>>, size: int) {
    var slot := SlotOf(position, authored);
    slot.Some? && 0 <= slot.value < size
  }

  // What ends up at slot k: the last selection, in dictionary order, whose slot is k.
  function EntryAt(slots: TraySlots, authored: Option<seq<int>>, k: int): int
    decreases slots
  {
    if slots == [] then -1
    else
      var last := slots[|slots| - 1];
      if SlotOf(last.0, authored) == Some(k) then last.1 else EntryAt(slots[..|slots| - 1], authored, k)
  }

  predicate AnyLands(slots: TraySlots, authored: Option<seq<int>>, size: int) {
    exists i :: 0 <= i < |slots| && Lands(slots[i].0, authored, size)
  }

  method BuildAmsMapping(payload: Option<seq<Selection>>, count: Option<int>, authored: Option<seq<int>>)
    returns (mapping: Option<seq<int>>, useAms: bool)
    ensures var slots := Selected(payload.GetOr([]));
            if slots == [] then mapping == None && !useAms
            else
              var size := Size(slots, count, authored);
              && mapping.Some? && |mapping.value| == Max(size, 0)
              && (forall k | 0 <= k < size :: mapping.value[k] == EntryAt(slots, authored, k))
              && (useAms <==> AnyLands(slots, authored, size))
  {
    var slots := ExtractSelectedTraySlots(payload);
    if slots == [] {
      return None, false;
    }
    var size := Size(slots, count, authored);
    var entries := new int[Max(size, 0)](_ => -1);
    useAms := false;
    for i := 0 to |slots|
      invariant forall k | 0 <= k < size :: entries[k] == EntryAt(slots[..i], authored, k)
      invariant useAms <==> exists j :: 0 <= j < i && Lands(slots[j].0, authored, size)
    {
      assert slots[..i + 1][..i] == slots[..i];
      var slot := SlotOf(slots[i].0, authored);
      if slot.None? || slot.value < 0 || slot.value >= size {
        continue;
      }
      entries[slot.value] := slots[i].1;
      useAms := true;
    }
    assert slots[..|slots|] == slots;
    mapping := Some(entries[..]);
  }

  predicate NonNegative(s: seq<int>) {
    forall x | x in s :: x >= 0
  }

  lemma {:induction false} AuthoredFits(slots: TraySlots, count: Option<int>, authored: seq<int>, p: nat)
    requires slots != [] && p < |authored|
    ensures authored[p] < Size(slots, count, Some(authored))
  {
    MaxBounds(authored, p);
  }

  lemma {:induction false} EntryIsChoice(slots: TraySlots, authored: seq<int>, p: nat, tray: int)
    requires Distinct(authored) && DistinctPositions(slots) && p < |authored| && Chosen(slots, p, tray)
    ensures EntryAt(slots, Some(authored), authored[p]) == tray
    decreases slots
  {
    var init, last := slots[..|slots| - 1], slots[|slots| - 1];
    if SlotOf(last.0, Some(authored)) == Some(authored[p]) {
      assert last.0 == p;
      var i :| 0 <= i < |slots| && slots[i] == (p as int, tray);
      assert i == |slots| - 1;
    } else {
      var i :| 0 <= i < |slots| && slots[i] == (p as int, tray);
      assert init[i] == slots[i];
      EntryIsChoice(init, authored, p, tray);
    }
  }

  lemma {:induction false} EntryIsUnset(slots: TraySlots, authored: seq<int>, k: int)
    requires forall i | 0 <= i < |slots| :: SlotOf(slots[i].0, Some(authored)) != Some(k)
    ensures EntryAt(slots, Some(authored), k) == -1
    decreases slots
  {
    if slots != [] {
      EntryIsUnset(slots[..|slots| - 1], authored, k);
    }
  }

  /**
   * With distinct authored slots: the tray last chosen for a position lands at that position's authored
   * slot, within the array; an entry no chosen position is authored on is -1; and AMS is used exactly
   * when some position of the project was given a tray.
   */
  lemma {:induction false} ChoicesLandOnTheirSlots(payload: seq<Selection>, count: Option<int>, authored: seq<int>,
                                                   p: nat, tray: int, k: nat)
    requires Distinct(authored) && NonNegative(authored) && Selected(payload) != []
    ensures var slots := Selected(payload);
            var size := Size(slots, count, Some(authored));
            && (p < |authored| && LastChoice(payload, p, tray) ==>
                  0 <= authored[p] < size && EntryAt(slots, Some(authored), authored[p]) == tray)
            && ((forall q: nat, t | q < |authored| && LastChoice(payload, q, t) :: authored[q] != k) ==>
                  EntryAt(slots, Some(authored), k) == -1)
            && (AnyLands(slots, Some(authored), size) <==>
                  exists q: nat, t :: q < |authored| && LastChoice(payload, q, t))
  {
    hide Selected, LastChoice, Size;
    var slots := Selected(payload);
    var size := Size(slots, count, Some(authored));
    SelectionsAreLast(payload, p, tray);
    if p < |authored| {
      AuthoredFits(slots, count, authored, p);
      assert authored[p] in authored;
      if LastChoice(payload, p, tray) {
        EntryIsChoice(slots, authored, p, tray);
      }
    }
    if forall q: nat, t | q < |authored| && LastChoice(payload, q, t) :: authored[q] != k {
      forall i | 0 <= i < |slots|
        ensures SlotOf(slots[i].0, Some(authored)) != Some(k)
      {
        SelectionsAreLast(payload, slots[i].0, slots[i].1);
      }
      EntryIsUnset(slots, authored, k);
    }
    if AnyLands(slots, Some(authored), size) {
      var i :| 0 <= i < |slots| && Lands(slots[i].0, Some(authored), size);
      SelectionsAreLast(payload, slots[i].0, slots[i].1);
    }
    if q: nat, t :| q < |authored| && LastChoice(payload, q, t) {
      SelectionsAreLast(payload, q, t);
      var i :| 0 <= i < |slots| && slots[i] == (q as int, t);
      AuthoredFits(slots, count, authored, q);
      assert authored[q] in authored;
      assert Lands(slots[i].0, Some(authored), size);
    }
  }

  lemma {:induction false} DenseEntry(slots: TraySlots, k: nat, tray: int)
    requires DistinctPositions(slots)
    ensures Chosen(slots, k, tray) ==> EntryAt(slots, None, k) == tray
    ensures EntryAt(slots, None, k) == -1 || Chosen(slots, k, EntryAt(slots, None, k))
    decreases slots
  {
    if slots != [] {
      var init, last := slots[..|slots| - 1], slots[|slots| - 1];
      DenseEntry(init, k, tray);
      assert slots == init + [last];
      if Chosen(slots, k, tray) && last.0 != k {
        assert Chosen(init, k, tray);
      }
    }
  }

  /** Without authored slots a position is its own slot. */
  lemma {:induction false} DenseChoices(payload: seq<Selection>, k: nat, tray: int)
    ensures LastChoice(payload, k, tray) ==> EntryAt(Selected(payload), None, k) == tray
    ensures (forall t :: !LastChoice(payload, k, t)) ==> EntryAt(Selected(payload), None, k) == -1
  {
    hide LastChoice, Selected;
    SelectionsAreLast(payload, k, tray);
    DenseEntry(Selected(payload), k, tray);
    SelectionsAreLast(payload, k, EntryAt(Selected(payload), None, k));
  }

  /** The AMS is then used exactly when a tray was chosen for a position the array has. */
  lemma {:induction false} DenseUse(payload: seq<Selection>, size: int)
    ensures AnyLands(Selected(payload), None, size) <==> exists k, t :: 0 <= k < size && LastChoice(payload, k, t)
  {
    hide LastChoice, Selected;
    var slots := Selected(payload);
    if AnyLands(slots, None, size) {
      var i :| 0 <= i < |slots| && Lands(slots[i].0, None, size);
      SelectionsAreLast(payload, slots[i].0, slots[i].1);
    }
    if k, t :| 0 <= k < size && LastChoice(payload, k, t) {
      SelectionsAreLast(payload, k, t);
      var i :| 0 <= i < |slots| && slots[i] == (k, t);
      assert Lands(slots[i].0, None, size);
    }
  }

  // ---------------------------------------------------------------------
  // Splitting tray numbers for the print command.

  datatype Bay = Bay(amsId: int, slotId: int)

  function BayOf(tray: int): Bay {
    if tray < 0 then Bay(VIRTUAL_TRAY, VIRTUAL_TRAY) else Bay(tray / SLOTS_PER_AMS, tray % SLOTS_PER_AMS)
  }

  method BuildAmsMapping2(mapping: seq<int>) returns (bays: seq<Bay>)
    ensures |bays| == |mapping| && forall i | 0 <= i < |mapping| :: bays[i] == BayOf(mapping[i])
  {
    bays := [];
    for i := 0 to |mapping|
      invariant |bays| == i && forall j | 0 <= j < i :: bays[j] == BayOf(mapping[j])
    {
      if mapping[i] < 0 {
        bays := bays + [Bay(VIRTUAL_TRAY, VIRTUAL_TRAY)];
      } else {
        bays := bays + [Bay(mapping[i] / SLOTS_PER_AMS, mapping[i] % SLOTS_PER_AMS)];
      }
    }
  }

  /** A bay stands for one tray: four to a unit, numbered back from unit and place, or the virtual one for none. */
  lemma {:induction false} BayStandsForTray(tray: int, bay: Bay)
    ensures BayOf(tray) == bay <==>
            if tray < 0 then bay == Bay(255, 255)
            else 0 <= bay.slotId < 4 && bay.amsId * 4 + bay.slotId == tray
  {}

  /** A tray as the report numbers it splits back into its unit and its place there. */
  lemma TrayNumberRoundTrips(unit: RawUnit, raw: RawTray)
    requires unit.id >= 0 && 0 <= raw.id < SLOTS_PER_AMS
    ensures BayOf(TrayOf(unit, raw).slot) == Bay(unit.id, raw.id)
  {}

  /**
   * End to end: a tray the printer reported, chosen for a position of the project, is the tray the print
   * command names for the slot the position is authored on.
   */
  lemma {:induction false} ChosenTrayIsPrintedFrom(units: seq<RawUnit>, t: Tray, payload: seq<Selection>,
                                                   count: Option<int>, authored: seq<int>, p: nat)
    requires forall unit, raw | unit in units && raw in unit.trays :: unit.id >= 0 && 0 <= raw.id < SLOTS_PER_AMS
    requires t in AllTrays(units)
    requires Distinct(authored) && NonNegative(authored) && p < |authored| && LastChoice(payload, p, t.slot)
    ensures var slots := Selected(payload);
            && slots != []
            && 0 <= authored[p] < Size(slots, count, Some(authored))
            && BayOf(EntryAt(slots, Some(authored), authored[p])) == Bay(t.amsId, t.trayId)
  {
    hide LastChoice, Size, AllTrays, BayOf, Selected;
    SelectionsAreLast(payload, p, t.slot);
    ChoicesLandOnTheirSlots(payload, count, authored, p, t.slot, 0);
    TraysComeFromUnits(units, t);
    var unit, raw :| unit in units && raw in unit.trays && t == TrayOf(unit, raw);
    TrayNumberRoundTrips(unit, raw);
  }
}
