/** The encounter registry: the ordered list of monsters (newest first) and the active one. */
module Registry {
  import opened Model
  import Text

  /** `encounters.find(e => e.id === id)`, as an index: the first encounter with that id. */
  function IndexOf(encs: seq<Encounter>, id: Id): (r: Option<nat>)
    ensures r.Some? ==> r.value < |encs| && encs[r.value].id == id
    ensures r.Some? ==> forall j :: 0 <= j < r.value ==> encs[j].id != id
    ensures r.None? <==> forall j :: 0 <= j < |encs| ==> encs[j].id != id
  {
    if |encs| == 0 then None
    else if encs[0].id == id then Some(0)
    else match IndexOf(encs[1..], id)
      case None => None
      case Some(k) => Some(k + 1)
  }

  /** The encounter `find` returns, or none. */
  function Lookup(encs: seq<Encounter>, id: Id): Option<Encounter>
  {
    match IndexOf(encs, id)
    case None => None
    case Some(i) => Some(encs[i])
  }

  /** `findActiveEncounter()`: a missing or dangling active id means no active encounter. */
  function FindActive(g: Game): (r: Option<nat>)
    ensures r.Some? ==> g.activeId.Some? && r.value < |g.encounters| &&
                        g.encounters[r.value].id == g.activeId.value
    ensures r.Some? ==> forall j :: 0 <= j < r.value ==> g.encounters[j].id != g.activeId.value
    ensures r.None? <==> g.activeId.None? ||
                         forall j :: 0 <= j < |g.encounters| ==> g.encounters[j].id != g.activeId.value
  {
    if g.activeId.None? then None else IndexOf(g.encounters, g.activeId.value)
  }

  /** The bounds an encounter gets at creation and keeps under damage. */
  predicate EncounterOk(e: Encounter)
  {
    1 <= e.skill <= 99 && 1 <= e.stamina.initial <= 999 &&
    0 <= e.stamina.current <= e.stamina.initial
  }

  predicate AllOk(encs: seq<Encounter>)
  {
    forall j :: 0 <= j < |encs| ==> EncounterOk(encs[j])
  }

  /** The record `addEncounter` builds from already-parsed numbers. */
  function NewEncounter(id: Id, name: string, skill: int, stamina: int): (e: Encounter)
    ensures EncounterOk(e) && e.status == Active && e.id == id
    ensures 1 <= skill <= 99 ==> e.skill == skill
    ensures 1 <= stamina <= 999 ==> e.stamina == Pool(stamina, stamina)
    ensures stamina <= 0 ==> e.stamina == Pool(1, 0)
  {
    Encounter(id, Text.Trim(name), Clamp(skill, 1, 99),
              Pool(Clamp(stamina, 1, 999), Clamp(stamina, 0, 999)), Active)
  }

  /** `addEncounter()` with the prompt answers and the fresh id as inputs. An empty (or
      cancelled) name and a non-numeric skill or stamina (`None`) leave the state alone;
      otherwise the new encounter goes first and becomes the active one. */
  function AddEncounter(g: Game, id: Id, name: string, skill: Option<int>, stamina: Option<int>): (r: Game)
    ensures name == [] || skill.None? || stamina.None? ==> r == g
    ensures name != [] && skill.Some? && stamina.Some? ==>
      && r == g.(encounters := r.encounters, activeId := Some(id))
      && |r.encounters| == |g.encounters| + 1 && r.encounters[1..] == g.encounters
      && r.encounters[0].id == id && FindActive(r) == Some(0)
  {
    if name == [] || skill.None? || stamina.None? then g
    else
      var e := NewEncounter(id, name, skill.value, stamina.value);
      g.(encounters := [e] + g.encounters, activeId := Some(id))
  }

  /** `setActiveEncounter(id)`: no check that the id exists; a dangling id finds nothing. */
  function SetActive(g: Game, id: Id): (r: Game)
    ensures r.activeId == Some(id) && r == g.(activeId := r.activeId)
    ensures FindActive(r) == IndexOf(g.encounters, id)
  {
    g.(activeId := Some(id))
  }

  /** Lowers an encounter's stamina by `dmg`, clamped to [0, initial]; reaching 0 defeats it. */
  function Damage(e: Encounter, dmg: int): (r: Encounter)
    ensures r == e.(stamina := r.stamina, status := r.status)
    ensures r.stamina.initial == e.stamina.initial
    ensures 0 <= e.stamina.initial ==> 0 <= r.stamina.current <= r.stamina.initial
    ensures r.stamina.current == 0 ==> r.status == Defeated
    ensures r.stamina.current != 0 ==> r.status == e.status
    ensures 0 <= dmg && 0 <= e.stamina.current <= e.stamina.initial ==>
      r.stamina.current == Max(e.stamina.current - dmg, 0)
  {
    var c := Clamp(e.stamina.current - dmg, 0, e.stamina.initial);
    e.(stamina := e.stamina.(current := c), status := if c == 0 then Defeated else e.status)
  }

  /** `damageEncounter(id, dmg)`: changes only the first encounter with that id, and nothing
      at all when no encounter has it. */
  function DamageEncounter(g: Game, id: Id, dmg: int): (r: Game)
    ensures IndexOf(g.encounters, id).None? ==> r == g
    ensures IndexOf(g.encounters, id).Some? ==>
      var i := IndexOf(g.encounters, id).value;
      r == g.(encounters := r.encounters) && |r.encounters| == |g.encounters| &&
      r.encounters[i] == Damage(g.encounters[i], dmg) &&
      forall j :: 0 <= j < |g.encounters| && j != i ==> r.encounters[j] == g.encounters[j]
  {
    match IndexOf(g.encounters, id)
    case None => g
    case Some(i) => g.(encounters := g.encounters[i := Damage(g.encounters[i], dmg)])
  }

  /** `encounters.filter(e => e.id !== id)`. */
  function Without(encs: seq<Encounter>, id: Id): (r: seq<Encounter>)
    ensures |r| <= |encs|
    ensures forall e :: e in r <==> e in encs && e.id != id
  {
    if |encs| == 0 then []
    else if encs[0].id == id then Without(encs[1..], id)
    else [encs[0]] + Without(encs[1..], id)
  }

  /** `removeEncounter(id)`: drops every encounter with that id and clears the active id when
      it was the removed one. */
  function RemoveEncounter(g: Game, id: Id): (r: Game)
    ensures r == g.(encounters := r.encounters, activeId := r.activeId)
    ensures IndexOf(r.encounters, id).None?
    ensures r.encounters == Without(g.encounters, id)
    ensures r.activeId == if g.activeId == Some(id) then None else g.activeId
  {
    g.(encounters := Without(g.encounters, id),
       activeId := if g.activeId == Some(id) then None else g.activeId)
  }

  /** The escape toggle: escaped becomes active, anything else (defeated too) escaped. */
  function Toggle(e: Encounter): (r: Encounter)
    ensures r == e.(status := r.status)
    ensures r.status == Active <==> e.status == Escaped
    ensures r.status != Defeated
  {
    e.(status := if e.status == Escaped then Active else Escaped)
  }

  /** `toggleEncounterEscaped(id)`: no-op for an unknown id. */
  function ToggleEscaped(g: Game, id: Id): (r: Game)
    ensures IndexOf(g.encounters, id).None? ==> r == g
    ensures IndexOf(g.encounters, id).Some? ==>
      var i := IndexOf(g.encounters, id).value;
      r == g.(encounters := r.encounters) && |r.encounters| == |g.encounters| &&
      r.encounters[i] == Toggle(g.encounters[i]) &&
      forall j :: 0 <= j < |g.encounters| && j != i ==> r.encounters[j] == g.encounters[j]
  {
    match IndexOf(g.encounters, id)
    case None => g
    case Some(i) => g.(encounters := g.encounters[i := Toggle(g.encounters[i])])
  }

  // ---- Properties ----

  /** Filtering keeps the remaining encounters in their original order: it distributes over
      concatenation. */
  lemma {:induction false} WithoutAppend(a: seq<Encounter>, b: seq<Encounter>, id: Id)
    ensures Without(a + b, id) == Without(a, id) + Without(b, id)
  {
    if |a| == 0 {
      assert a + b == b;
    } else {
      assert (a + b)[1..] == a[1..] + b;
      WithoutAppend(a[1..], b, id);
    }
  }

  /** Filtering an id nobody has returns the list unchanged. */
  lemma {:induction false} WithoutAbsent(encs: seq<Encounter>, id: Id)
    requires forall j :: 0 <= j < |encs| ==> encs[j].id != id
    ensures Without(encs, id) == encs
  {
    if |encs| > 0 {
      var rest := encs[1..];
      assert forall j :: 0 <= j < |rest| ==> rest[j].id != id by {
        forall j | 0 <= j < |rest| ensures rest[j].id != id { assert rest[j] == encs[j + 1]; }
      }
      WithoutAbsent(rest, id);
      assert Without(encs, id) == [encs[0]] + rest;
      assert [encs[0]] + rest == encs;
    }
  }

  /** A lookup checks the head first, then the rest of the list. */
  lemma LookupUnfold(encs: seq<Encounter>, id: Id)
    requires |encs| > 0
    ensures Lookup(encs, id) == if encs[0].id == id then Some(encs[0]) else Lookup(encs[1..], id)
  {
  }

  /** Removing one id does not change what a lookup of another id finds. */
  lemma {:induction false} WithoutKeepsLookup(encs: seq<Encounter>, id: Id, other: Id)
    requires other != id
    ensures Lookup(Without(encs, id), other) == Lookup(encs, other)
  {
    if |encs| > 0 {
      var rest := encs[1..];
      WithoutKeepsLookup(rest, id, other);
      LookupUnfold(encs, other);
      if encs[0].id != id {
        var w := Without(encs, id);
        assert w == [encs[0]] + Without(rest, id);
        assert w[1..] == Without(rest, id);
        LookupUnfold(w, other);
      }
    }
  }

  /** Removing an encounter other than the active one leaves the active encounter in place;
      removing the active one leaves no active encounter. */
  lemma RemoveKeepsActive(g: Game, id: Id)
    ensures g.activeId == Some(id) ==> FindActive(RemoveEncounter(g, id)).None?
    ensures g.activeId.Some? && g.activeId != Some(id) ==>
      Lookup(RemoveEncounter(g, id).encounters, g.activeId.value) == Lookup(g.encounters, g.activeId.value)
  {
    if g.activeId.Some? && g.activeId != Some(id) {
      WithoutKeepsLookup(g.encounters, id, g.activeId.value);
    }
  }

  /** Toggling twice restores an active or escaped encounter, but turns a defeated one into an
      active one: the toggle discards the defeated status. */
  lemma ToggleTwice(e: Encounter)
    ensures Toggle(Toggle(e)).status == if e.status == Defeated then Active else e.status
  {
  }

  /** The new encounter carries the clamped prompt answers and is what findActiveEncounter
      returns afterwards. */
  lemma AddEncounterEffect(g: Game, id: Id, name: string, skill: int, stamina: int)
    requires name != []
    ensures var r := AddEncounter(g, id, name, Some(skill), Some(stamina));
      && Lookup(r.encounters, id) == Some(r.encounters[0])
      && r.encounters[0].name == Text.Trim(name)
      && r.encounters[0].skill == Clamp(skill, 1, 99)
      && r.encounters[0].stamina == Pool(Clamp(stamina, 1, 999), Clamp(stamina, 0, 999))
      && r.encounters[0].status == Active
      && EncounterOk(r.encounters[0])
  {
  }

  lemma AddKeepsBounds(g: Game, id: Id, name: string, skill: Option<int>, stamina: Option<int>)
    requires AllOk(g.encounters)
    ensures AllOk(AddEncounter(g, id, name, skill, stamina).encounters)
  {
    var r := AddEncounter(g, id, name, skill, stamina).encounters;
    if r != g.encounters {
      forall j | 0 <= j < |r| ensures EncounterOk(r[j]) {
        if j > 0 { assert r[j] == g.encounters[j - 1]; }
      }
    }
  }

  lemma DamageKeepsBounds(g: Game, id: Id, dmg: int)
    requires AllOk(g.encounters)
    ensures AllOk(DamageEncounter(g, id, dmg).encounters)
  {
  }

  lemma RemoveKeepsBounds(g: Game, id: Id)
    requires AllOk(g.encounters)
    ensures AllOk(RemoveEncounter(g, id).encounters)
  {
    var r := RemoveEncounter(g, id).encounters;
    forall j | 0 <= j < |r| ensures EncounterOk(r[j]) {
      assert r[j] in r;
    }
  }

  lemma ToggleKeepsBounds(g: Game, id: Id)
    requires AllOk(g.encounters)
    ensures AllOk(ToggleEscaped(g, id).encounters)
  {
  }

  /** Every registry operation keeps the creation bounds of all encounters. */
  lemma {:induction false} RegistryKeepsBounds(g: Game, id: Id, name: string, skill: Option<int>, stamina: Option<int>, dmg: int)
    requires AllOk(g.encounters)
    ensures AllOk(AddEncounter(g, id, name, skill, stamina).encounters)
    ensures AllOk(DamageEncounter(g, id, dmg).encounters)
    ensures AllOk(RemoveEncounter(g, id).encounters)
    ensures AllOk(ToggleEscaped(g, id).encounters)
    ensures AllOk(SetActive(g, id).encounters)
  {
    AddKeepsBounds(g, id, name, skill, stamina);
    DamageKeepsBounds(g, id, dmg);
    RemoveKeepsBounds(g, id);
    ToggleKeepsBounds(g, id);
  }
}
