/** What the filament searches settle on, on the fields of the profiles and trays. */
module FilamentChoices {
  import opened Prelude
  import opened Text
  import opened FilamentMatching

  // A profile made for the machine, and one made for any.
  predicate ForMachine(f: Profile, machine: string, id: string) {
    Upper(Strip(f.filamentId)) == id && machine != "" && machine in f.printers
  }

  predicate ForAny(f: Profile, id: string) {
    Upper(Strip(f.filamentId)) == id && f.printers == []
  }

  lemma UsableMeans(f: Profile, machine: string, id: string)
    ensures Usable(f, machine, id) <==> ForMachine(f, machine, id) || ForAny(f, id)
    ensures Usable(f, machine, id) ==> Priority(f, machine) == if ForMachine(f, machine, id) then 2 else 1
  {
    hide Upper, Strip;
  }

  /**
   * What the index holds under an id: the first profile with that id made for the machine; without one the first
   * with that id made for any machine; else nothing, and nothing under the empty id.
   */
  lemma {:induction false} IndexMeans(profiles: seq<Profile>, machine: string, id: string, r: Option<Profile>)
    requires Found(profiles, machine, id, r)
    ensures id == "" ==> r.None?
    ensures id != "" && (exists f :: f in profiles && ForMachine(f, machine, id)) ==>
              exists i :: 0 <= i < |profiles| && r == Some(profiles[i]) && ForMachine(profiles[i], machine, id)
                && forall j | 0 <= j < i :: !ForMachine(profiles[j], machine, id)
    ensures id != "" && !(exists f :: f in profiles && ForMachine(f, machine, id)) ==>
              if exists f :: f in profiles && ForAny(f, id) then
                exists i :: 0 <= i < |profiles| && r == Some(profiles[i]) && ForAny(profiles[i], id)
                  && forall j | 0 <= j < i :: !ForAny(profiles[j], id)
              else r.None?
  {
    hide ForMachine, ForAny, Usable, Priority;
    forall f
      ensures Usable(f, machine, id) <==> ForMachine(f, machine, id) || ForAny(f, id)
      ensures Usable(f, machine, id) ==> Priority(f, machine) == if ForMachine(f, machine, id) then 2 else 1
    {
      UsableMeans(f, machine, id);
    }
    if r.Some? {
      var i :| FirstBest(profiles, machine, id, i) && profiles[i] == r.value;
      assert profiles[i] in profiles;
      if f :| f in profiles && ForMachine(f, machine, id) {
        assert ForMachine(profiles[i], machine, id);
      } else {
        assert forall j | 0 <= j < |profiles| :: profiles[j] in profiles;
      }
    }
  }

  predicate Numbered(t: Tray, slot: int) {
    slot >= 0 && t.slot == Some(slot)
  }

  // The id a tray goes by: the one its chip tells, else the one entered for it.
  predicate Wanted(t: Tray, want: Want) {
    match want
    case ExactId(id) => Upper(Strip(if t.infoIdx == "" then t.filamentId else t.infoIdx)) == id
    case SameType(kind) => Upper(Strip(t.trayType)) == kind
  }

  /** A tray is found exactly among the wanted trays with a slot number from 0 up, and it is the lowest of them. */
  lemma {:induction false} LowestMeans(trays: seq<Tray>, want: Want, slot: int)
    ensures Available(trays, want) <==> exists t, n :: t in trays && Wanted(t, want) && Numbered(t, n)
    ensures LowestSlot(trays, want, slot) <==>
              && (exists t :: t in trays && Wanted(t, want) && Numbered(t, slot))
              && (forall t, n | t in trays && Wanted(t, want) && Numbered(t, n) :: slot <= n)
  {
    hide Suits, Wanted;
    forall t
      ensures Suits(t, want) <==> Wanted(t, want)
    {
      SuitsMeans(t, want);
    }
    forall t, n ensures SlotValue(t) == Some(n) <==> Numbered(t, n) {}
    forall t | t in trays && Wanted(t, want) && SlotValue(t).Some? ensures Numbered(t, SlotValue(t).value) {}
  }

  lemma SuitsMeans(t: Tray, want: Want)
    ensures Suits(t, want) <==> Wanted(t, want)
  {
    hide Upper, Strip;
  }

  predicate Carries(profiles: seq<Profile>, wanted: string) {
    exists p :: p in profiles && (Strip(p.settingId) == wanted || Strip(p.name) == wanted)
  }

  /**
   * A profile is found exactly when some profile carries the wanted text as its setting id or its name; it is one of
   * the machine's own whenever one of those does, and is found by its setting id whenever one there has that.
   */
  lemma {:induction false} ProfileMeans(settingId: string, filtered: seq<Profile>, all: seq<Profile>)
    ensures var wanted, found := Strip(settingId), FindProfile(settingId, filtered, all);
            var where := if Carries(filtered, wanted) then filtered else all;
            && (found.Some? <==> wanted != "" && (Carries(filtered, wanted) || Carries(all, wanted)))
            && (found.Some? ==>
                  && found.value in where
                  && (Strip(found.value.settingId) == wanted || Strip(found.value.name) == wanted)
                  && ((exists p :: p in where && Strip(p.settingId) == wanted) ==>
                        Strip(found.value.settingId) == wanted))
  {
    var wanted := Strip(settingId);
    ProfileSearchOrder(settingId, filtered, all);
    hide Strip, FindProfile;
    forall profiles: seq<Profile>
      ensures Matches(profiles, BySettingId, wanted) <==> exists p :: p in profiles && Strip(p.settingId) == wanted
      ensures Matches(profiles, ByName, wanted) <==> exists p :: p in profiles && Strip(p.name) == wanted
    {
      MatchesMeans(profiles, wanted);
    }
  }

  lemma {:induction false} MatchesMeans(profiles: seq<Profile>, wanted: string)
    ensures Matches(profiles, BySettingId, wanted) <==> exists p :: p in profiles && Strip(p.settingId) == wanted
    ensures Matches(profiles, ByName, wanted) <==> exists p :: p in profiles && Strip(p.name) == wanted
  {
    hide Strip;
    assert forall i | 0 <= i < |profiles| :: profiles[i] in profiles;
    if p :| p in profiles && Strip(p.settingId) == wanted {
      var i :| 0 <= i < |profiles| && profiles[i] == p;
      assert FieldOf(profiles[i], BySettingId) == wanted;
    }
    if p :| p in profiles && Strip(p.name) == wanted {
      var i :| 0 <= i < |profiles| && profiles[i] == p;
      assert FieldOf(profiles[i], ByName) == wanted;
    }
  }
}
