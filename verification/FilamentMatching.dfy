/** Resolving a project's filaments: the profile index, the profile search, and the preferred tray. */
module FilamentMatching {
  import opened Prelude
  import opened Text

  datatype Profile = Profile(name: string, filamentId: string, settingId: string, printers: seq<string>)

  function NormalizeId(id: string): string {
    Upper(Strip(id))
  }

  // ---------------------------------------------------------------------
  // The index by filament id.

  function Priority(f: Profile, machine: string): int {
    if machine != "" && machine in f.printers then 2
    else if f.printers == [] then 1
    else 0
  }

  // f may be indexed under id.
  predicate Usable(f: Profile, machine: string, id: string) {
    NormalizeId(f.filamentId) == id && Priority(f, machine) > 0
  }

  // What a linear search for id settles on: the first usable profile of the highest priority.
  ghost predicate FirstBest(profiles: seq<Profile>, machine: string, id: string, i: int) {
    && 0 <= i < |profiles| && Usable(profiles[i], machine, id)
    && (forall j | 0 <= j < |profiles| && Usable(profiles[j], machine, id) ::
        Priority(profiles[j], machine) <= Priority(profiles[i], machine))
    && (forall j | 0 <= j < i && Usable(profiles[j], machine, id) ::
        Priority(profiles[j], machine) < Priority(profiles[i], machine))
  }

  // r is what a linear search for id finds; nothing is found under the empty id.
  ghost predicate Found(profiles: seq<Profile>, machine: string, id: string, r: Option<Profile>) {
    match r
    case None => id == "" || forall i | 0 <= i < |profiles| :: !Usable(profiles[i], machine, id)
    case Some(f) => id != "" && exists i :: FirstBest(profiles, machine, id, i) && profiles[i] == f
  }

  function Better(r: Option<Profile>, f: Profile, machine: string, id: string): Option<Profile> {
    if id != "" && Usable(f, machine, id) && (r.None? || Priority(f, machine) > Priority(r.value, machine))
      then Some(f) else r
  }

  // How the search result moves when one more profile is looked at.
  lemma {:induction false} FoundNext(profiles: seq<Profile>, machine: string, id: string, r: Option<Profile>,
                                     f: Profile)
    requires Found(profiles, machine, id, r)
    ensures Found(profiles + [f], machine, id, Better(r, f, machine, id))
  {
    hide Usable, Priority;
    var grown := profiles + [f];
    assert forall j | 0 <= j < |profiles| :: grown[j] == profiles[j];
    if r.Some? {
      var i :| FirstBest(profiles, machine, id, i) && profiles[i] == r.value;
      if Better(r, f, machine, id) == r {
        assert FirstBest(grown, machine, id, i);
      } else {
        assert FirstBest(grown, machine, id, |profiles|);
      }
    } else if Better(r, f, machine, id).Some? {
      assert FirstBest(grown, machine, id, |profiles|);
    }
  }

  /**
   * The index holds, for each id but the empty one, what a linear search finds, and nothing where that finds nothing.
   */
  method IndexById(profiles: seq<Profile>, machine: string) returns (byId: map<string, Profile>)
    ensures forall id :: Found(profiles, machine, id, Lookup(byId, id))
  {
    hide FirstBest, Found, Priority, NormalizeId;
    byId := map[];
    var priorities: map<string, int> := map[];
    NothingFound(machine);
    for n := 0 to |profiles|
      invariant byId.Keys == priorities.Keys
      invariant forall id | id in byId :: priorities[id] == Priority(byId[id], machine)
      invariant forall id :: Found(profiles[..n], machine, id, Lookup(byId, id))
    {
      var f := profiles[n];
      ghost var before := byId;
      var id := NormalizeId(f.filamentId);
      var priority := Priority(f, machine);
      if id != "" && priority > 0 && (id !in priorities || priority > priorities[id]) {
        byId := byId[id := f];
        priorities := priorities[id := priority];
      }
      assert profiles[..n + 1] == profiles[..n] + [f];
      forall other
        ensures Found(profiles[..n + 1], machine, other, Lookup(byId, other))
      {
        FoundNext(profiles[..n], machine, other, Lookup(before, other), f);
      }
    }
    assert profiles[..|profiles|] == profiles;
  }

  lemma NothingFound(machine: string)
    ensures forall id :: Found([], machine, id, None)
  {}

  // ---------------------------------------------------------------------
  // The profile of a project filament.

  // Which field is compared.
  datatype Field = BySettingId | ByName

  function FieldOf(p: Profile, field: Field): string {
    Strip(if field == BySettingId then p.settingId else p.name)
  }

  function FirstWith(profiles: seq<Profile>, field: Field, wanted: string): Option<Profile> {
    if profiles == [] then None
    else if FieldOf(profiles[0], field) == wanted then Some(profiles[0])
    else FirstWith(profiles[1..], field, wanted)
  }

  function FindProfile(settingId: string, filtered: seq<Profile>, all: seq<Profile>): Option<Profile> {
    var wanted := Strip(settingId);
    if wanted == "" then None
    else
      var a, b, c := FirstWith(filtered, BySettingId, wanted), FirstWith(filtered, ByName, wanted),
        FirstWith(all, BySettingId, wanted);
      if a.Some? then a else if b.Some? then b else if c.Some? then c else FirstWith(all, ByName, wanted)
  }

  predicate Matches(profiles: seq<Profile>, field: Field, wanted: string) {
    exists i :: 0 <= i < |profiles| && FieldOf(profiles[i], field) == wanted
  }

  ghost predicate IsFirst(profiles: seq<Profile>, field: Field, wanted: string, p: Profile) {
    exists i :: 0 <= i < |profiles| && profiles[i] == p && FieldOf(p, field) == wanted
      && forall j | 0 <= j < i :: FieldOf(profiles[j], field) != wanted
  }

  lemma {:induction false} FirstWithIsFirst(profiles: seq<Profile>, field: Field, wanted: string)
    ensures match FirstWith(profiles, field, wanted)
            case None => !Matches(profiles, field, wanted)
            case Some(p) => IsFirst(profiles, field, wanted, p)
    ensures FirstWith(profiles, field, wanted).Some? <==> Matches(profiles, field, wanted)
    decreases profiles
  {
    hide FieldOf;
    if profiles != [] && FieldOf(profiles[0], field) != wanted {
      var rest := profiles[1..];
      FirstWithIsFirst(rest, field, wanted);
      assert forall j | 0 < j < |profiles| :: profiles[j] == rest[j - 1];
      if FirstWith(rest, field, wanted).Some? {
        var p := FirstWith(rest, field, wanted).value;
        var i :| 0 <= i < |rest| && rest[i] == p && FieldOf(p, field) == wanted
          && forall j | 0 <= j < i :: FieldOf(rest[j], field) != wanted;
        assert profiles[i + 1] == p && forall j | 0 <= j < i + 1 :: FieldOf(profiles[j], field) != wanted;
      }
    } else if profiles != [] {
      assert profiles[0] == FirstWith(profiles, field, wanted).value;
    }
  }

  /**
   * The machine's own profiles come before the whole catalogue, setting ids before names, and earlier
   * entries before later ones; nothing is found only for a blank id or one no profile carries.
   */
  lemma {:induction false} ProfileSearchOrder(settingId: string, filtered: seq<Profile>, all: seq<Profile>)
    ensures var wanted, found := Strip(settingId), FindProfile(settingId, filtered, all);
            if wanted == "" then found == None
            else if Matches(filtered, BySettingId, wanted)
              then found.Some? && IsFirst(filtered, BySettingId, wanted, found.value)
            else if Matches(filtered, ByName, wanted) then found.Some? && IsFirst(filtered, ByName, wanted, found.value)
            else if Matches(all, BySettingId, wanted) then found.Some? && IsFirst(all, BySettingId, wanted, found.value)
            else if Matches(all, ByName, wanted) then found.Some? && IsFirst(all, ByName, wanted, found.value)
            else found == None
  {
    var wanted := Strip(settingId);
    FirstWithIsFirst(filtered, BySettingId, wanted);
    FirstWithIsFirst(filtered, ByName, wanted);
    FirstWithIsFirst(all, BySettingId, wanted);
    FirstWithIsFirst(all, ByName, wanted);
    hide Strip;
  }

  // ---------------------------------------------------------------------
  // The preferred tray.

  // slot is the number the field reads as, if it does.
  datatype Tray = Tray(slot: Option<int>, infoIdx: string, filamentId: string, trayType: string)

  function SlotValue(t: Tray): Option<int> {
    if t.slot.Some? && t.slot.value >= 0 then t.slot else None
  }

  function TrayFilamentId(t: Tray): string {
    NormalizeId(if t.infoIdx != "" then t.infoIdx else t.filamentId)
  }

  // The sort key: numbered trays first, in order.
  predicate Before(a: Tray, b: Tray) {
    if SlotValue(a).None? then false
    else SlotValue(b).None? || SlotValue(a).value < SlotValue(b).value
  }

  // Inserts after every tray that does not come later, so equal keys keep their order.
  function Insert(sorted: seq<Tray>, t: Tray): seq<Tray> {
    if sorted == [] || !Before(t, sorted[|sorted| - 1]) then sorted + [t]
    else Insert(sorted[..|sorted| - 1], t) + [sorted[|sorted| - 1]]
  }

  function SortedTrays(trays: seq<Tray>): seq<Tray> {
    if trays == [] then [] else Insert(SortedTrays(trays[..|trays| - 1]), trays[|trays| - 1])
  }

  predicate Ordered(s: seq<Tray>) {
    forall i, j | 0 <= i < j < |s| :: !Before(s[j], s[i])
  }

  lemma {:induction false} InsertSorts(sorted: seq<Tray>, t: Tray)
    requires Ordered(sorted)
    ensures Ordered(Insert(sorted, t)) && multiset(Insert(sorted, t)) == multiset(sorted) + multiset{t}
    decreases sorted
  {
    hide Ordered, Before;
    if sorted == [] || !Before(t, sorted[|sorted| - 1]) {
      AppendSorts(sorted, t);
    } else {
      var init, last := sorted[..|sorted| - 1], sorted[|sorted| - 1];
      assert sorted == init + [last];
      InitSorted(sorted);
      InsertSorts(init, t);
      LastStaysLast(sorted, t, Insert(init, t));
    }
  }

  lemma AppendSorts(sorted: seq<Tray>, t: Tray)
    requires Ordered(sorted) && (sorted == [] || !Before(t, sorted[|sorted| - 1]))
    ensures Ordered(sorted + [t])
  {}

  lemma InitSorted(sorted: seq<Tray>)
    requires Ordered(sorted) && sorted != []
    ensures Ordered(sorted[..|sorted| - 1])
  {}

  lemma {:induction false} LastStaysLast(sorted: seq<Tray>, t: Tray, r: seq<Tray>)
    requires Ordered(sorted) && sorted != [] && Before(t, sorted[|sorted| - 1])
    requires Ordered(r) && multiset(r) == multiset(sorted[..|sorted| - 1]) + multiset{t}
    ensures Ordered(r + [sorted[|sorted| - 1]])
  {
    var init, last := sorted[..|sorted| - 1], sorted[|sorted| - 1];
    forall i | 0 <= i < |r|
      ensures !Before(last, r[i])
    {
      assert r[i] in multiset(r);
      if r[i] != t {
        assert r[i] in multiset(init);
        var k :| 0 <= k < |init| && init[k] == r[i];
      }
    }
  }

  lemma {:induction false} TraysSort(trays: seq<Tray>)
    ensures Ordered(SortedTrays(trays)) && multiset(SortedTrays(trays)) == multiset(trays)
    decreases trays
  {
    if trays != [] {
      var init := trays[..|trays| - 1];
      TraysSort(init);
      InsertSorts(SortedTrays(init), trays[|trays| - 1]);
      assert trays == init + [trays[|trays| - 1]];
    }
  }

  // What a tray is wanted for.
  datatype Want = ExactId(id: string) | SameType(kind: string)

  predicate Suits(t: Tray, want: Want) {
    match want
    case ExactId(id) => TrayFilamentId(t) == id
    case SameType(kind) => Upper(Strip(t.trayType)) == kind
  }

  ghost predicate LowestSlot(trays: seq<Tray>, want: Want, slot: int) {
    && (exists t :: t in trays && Suits(t, want) && SlotValue(t) == Some(slot))
    && (forall t | t in trays && Suits(t, want) && SlotValue(t).Some? :: slot <= SlotValue(t).value)
  }

  predicate Available(trays: seq<Tray>, want: Want) {
    exists t :: t in trays && Suits(t, want) && SlotValue(t).Some?
  }

  /** The first suitable tray in sorted order is the suitable one with the lowest slot, in whatever order they came. */
  method FirstSuitable(trays: seq<Tray>, want: Want) returns (slot: Option<int>)
    ensures slot.Some? <==> Available(trays, want)
    ensures slot.Some? ==> LowestSlot(trays, want, slot.value)
  {
    hide Suits, LowestSlot, Available, Ordered, Before;
    var sorted := SortedTrays(trays);
    TraysSort(trays);
    SameMembers(sorted, trays);
    for i := 0 to |sorted|
      invariant NoneBefore(sorted, want, i)
    {
      if SlotValue(sorted[i]).None? {
        continue;
      }
      if Suits(sorted[i], want) {
        FirstIsLowest(trays, sorted, want, i);
        return SlotValue(sorted[i]);
      }
    }
    NoneAvailable(trays, sorted, want);
    return None;
  }

  predicate NoneBefore(sorted: seq<Tray>, want: Want, i: nat)
    requires i <= |sorted|
  {
    forall j | 0 <= j < i :: !(Suits(sorted[j], want) && SlotValue(sorted[j]).Some?)
  }

  lemma {:induction false} FirstIsLowest(trays: seq<Tray>, sorted: seq<Tray>, want: Want, i: nat)
    requires Ordered(sorted) && i < |sorted| && NoneBefore(sorted, want, i)
    requires forall t :: t in sorted <==> t in trays
    requires Suits(sorted[i], want) && SlotValue(sorted[i]).Some?
    ensures Available(trays, want) && LowestSlot(trays, want, SlotValue(sorted[i]).value)
  {
    hide Suits;
    assert sorted[i] in trays;
    forall t | t in trays && Suits(t, want) && SlotValue(t).Some?
      ensures SlotValue(sorted[i]).value <= SlotValue(t).value
    {
      var j :| 0 <= j < |sorted| && sorted[j] == t;
      assert j >= i;
    }
  }

  lemma {:induction false} NoneAvailable(trays: seq<Tray>, sorted: seq<Tray>, want: Want)
    requires NoneBefore(sorted, want, |sorted|) && forall t :: t in sorted <==> t in trays
    ensures !Available(trays, want)
  {
    hide Suits;
    forall t | t in trays ensures !(Suits(t, want) && SlotValue(t).Some?) {
      var j :| 0 <= j < |sorted| && sorted[j] == t;
    }
  }

  lemma SameMembers(a: seq<Tray>, b: seq<Tray>)
    requires multiset(a) == multiset(b)
    ensures forall t :: t in a <==> t in b
  {
    forall t
      ensures t in a <==> t in b
    {
      assert t in multiset(a) <==> t in multiset(b);
    }
  }

  datatype Reason = NoMatch | ExactFilamentId | TypeFallback

  /** A project filament's tray: the lowest slot with its exact filament id, else the lowest of its type, else none. */
  method PreferredTray(settingId: string, kind: string, trays: seq<Tray>, filtered: seq<Profile>, all: seq<Profile>)
    returns (slot: Option<int>, reason: Reason)
    ensures var profile := FindProfile(settingId, filtered, all);
            var id := if profile.Some? then NormalizeId(profile.value.filamentId) else "";
            var wantedType := Upper(Strip(kind));
            if id != "" && Available(trays, ExactId(id)) then
              reason == ExactFilamentId && slot.Some? && LowestSlot(trays, ExactId(id), slot.value)
            else if wantedType != "" && Available(trays, SameType(wantedType)) then
              reason == TypeFallback && slot.Some? && LowestSlot(trays, SameType(wantedType), slot.value)
            else reason == NoMatch && slot.None?
  {
    var profile := FindProfile(settingId, filtered, all);
    var id := if profile.Some? then NormalizeId(profile.value.filamentId) else "";
    slot, reason := None, NoMatch;
    if id != "" {
      slot := FirstSuitable(trays, ExactId(id));
      if slot.Some? {
        return slot, ExactFilamentId;
      }
    }
    var wantedType := Upper(Strip(kind));
    if wantedType != "" {
      slot := FirstSuitable(trays, SameType(wantedType));
      if slot.Some? {
        return slot, TypeFallback;
      }
    }
  }
}
