/** The running session: the game state as mutable objects, and the rule operations as
    methods that update it in place, each proved to agree with the rules on values. */
module Engine {
  import opened Model
  import opened Dice
  import Rules
  import Registry
  import Combat
  import Persistence
  import Text

  /** `state.player`: the character sheet, updated field by field. */
  class Player {
    var name: string
    var skill: Stat
    var stamina: Stat
    var luck: Stat
    var provisions: int
    var gold: int
    var equipment: seq<string>
    var treasure: seq<string>
    var potion: Potion

    /** The sheet as a value. */
    function Value(): Sheet
      reads this
    {
      Sheet(name, skill, stamina, luck, provisions, gold, equipment, treasure, potion)
    }

    constructor Of(p: Sheet)
      ensures Value() == p
    {
      name, skill, stamina, luck := p.name, p.skill, p.stamina, p.luck;
      provisions, gold := p.provisions, p.gold;
      equipment, treasure, potion := p.equipment, p.treasure, p.potion;
    }

    /** `hasStatsRolled()`. */
    predicate StatsRolled(): (b: bool)
      reads this
      ensures b == Model.StatsRolled(Value())
    {
      skill.initial.Some? && stamina.initial.Some? && luck.initial.Some?
    }

    /** `p[k] = s`. */
    method SetStat(k: StatKey, s: Stat)
      modifies this
      ensures Value() == old(Value()).With(k, s)
    {
      match k
      case SkillKey => skill := s;
      case StaminaKey => stamina := s;
      case LuckKey => luck := s;
    }

    /** `p[kind] = items`. */
    method SetList(kind: ListKind, items: seq<string>)
      modifies this
      ensures Value() == old(Value()).WithList(kind, items)
    {
      match kind
      case Equipment => equipment := items;
      case Treasure => treasure := items;
    }
  }

  /** The global `state`: the sheet, the encounter registry and the three logs. */
  class GameState {
    const player: Player
    var encounters: seq<Encounter>
    var activeId: Option<Id>
    var luckLog: seq<Entry>
    var combatLog: seq<Entry>
    var diceLog: seq<Entry>

    /** The whole state as a value. */
    function Snapshot(): Game
      reads this, player
    {
      Game(player.Value(), encounters, activeId, luckLog, combatLog, diceLog)
    }

    /** The caps enforceCaps establishes hold between operations. */
    predicate Valid()
      reads this, player
    {
      Capped(Snapshot())
    }

    constructor Of(g: Game)
      ensures fresh(player) && Snapshot() == g
    {
      player := new Player.Of(g.player);
      encounters, activeId := g.encounters, g.activeId;
      luckLog, combatLog, diceLog := g.luckLog, g.combatLog, g.diceLog;
    }

    /** `sanitizeState(s)` followed by making the result the session state. */
    static method Sanitize(raw: Persistence.RawState) returns (s: GameState)
      ensures fresh(s) && fresh(s.player)
      ensures s.Valid() && s.Snapshot() == Persistence.Sanitize(raw)
    {
      s := new GameState.Of(Persistence.Merge(raw));
      s.EnforceCaps();
    }

    /** `enforceCaps()`: the loop over the three stat keys, then provisions and gold. */
    method EnforceCaps()
      modifies player
      ensures Valid()
      ensures Snapshot() == CapAll(old(Snapshot()))
    {
      var keys := [SkillKey, StaminaKey, LuckKey];
      ghost var p0 := player.Value();
      for i := 0 to |keys|
        invariant forall j :: 0 <= j < i ==> player.Value().Get(keys[j]) == CapStat(p0.Get(keys[j]))
        invariant forall j :: i <= j < |keys| ==> player.Value().Get(keys[j]) == p0.Get(keys[j])
        invariant player.Value() == p0.(skill := player.skill, stamina := player.stamina, luck := player.luck)
      {
        var k := keys[i];
        var s := player.Value().Get(k);
        if s.initial.Some? && s.current.Some? {
          player.SetStat(k, s.(current := Some(Clamp(s.current.value, 0, s.initial.value))));
        }
      }
      player.provisions := Clamp(player.provisions, 0, MaxProvisions);
      player.gold := Clamp(player.gold, 0, MaxGold);
      assert player.skill == player.Value().Get(keys[0]);
      assert player.stamina == player.Value().Get(keys[1]);
      assert player.luck == player.Value().Get(keys[2]);
    }

    method LogLuck(e: Entry)
      modifies this
      ensures Snapshot() == Rules.LogLuck(old(Snapshot()), e)
    {
      luckLog := [e] + luckLog;
    }

    method LogCombat(e: Entry)
      modifies this
      ensures Snapshot() == Rules.LogCombat(old(Snapshot()), e)
    {
      combatLog := [e] + combatLog;
    }

    /** `rollInitialStats()`. */
    method RollInitialStats(skillDie: D6, staminaDice: TwoDice, luckDie: D6)
      requires Valid()
      modifies this, player
      ensures Valid() && player.StatsRolled()
      ensures Snapshot() == Rules.RollInitialStats(old(Snapshot()), skillDie, staminaDice, luckDie)
    {
      player.skill := player.skill.(initial := Some(skillDie + 6));
      player.skill := player.skill.(current := player.skill.initial);
      player.stamina := player.stamina.(initial := Some(staminaDice.Total() + 12));
      player.stamina := player.stamina.(current := player.stamina.initial);
      player.luck := player.luck.(initial := Some(luckDie + 6));
      player.luck := player.luck.(current := player.luck.initial);
      LogLuck(RolledInitialStats);
    }

    /** `eatProvision()`. */
    method EatProvision()
      requires Valid()
      modifies this, player
      ensures Valid()
      ensures Snapshot() == Rules.EatProvision(old(Snapshot()))
    {
      if !player.StatsRolled() {
        LogLuck(RollStatsFirst);
        return;
      }
      if player.provisions <= 0 {
        LogLuck(NoProvisionsLeft);
        return;
      }
      player.provisions := player.provisions - 1;
      player.stamina := player.stamina.(current :=
        Some(Clamp(NumOr0(player.stamina.current) + 4, 0, player.stamina.initial.value)));
    }

    /** `testLuck()`: returns whether the test was lucky, or nothing before the roll. */
    method TestLuck(roll: TwoDice) returns (lucky: Option<bool>)
      requires Valid()
      modifies this, player
      ensures Valid()
      ensures Snapshot() == Rules.TestLuck(old(Snapshot()), roll)
      ensures lucky == Rules.LuckVerdict(old(Snapshot()), roll)
    {
      if !player.StatsRolled() {
        LogLuck(RollStatsFirst);
        return None;
      }
      var r := roll.Total();
      var wasLucky := r <= NumOr0(player.luck.current);
      var before := player.luck.current;
      player.luck := player.luck.(current :=
        Some(Clamp(NumOr0(player.luck.current) - 1, 0, player.luck.initial.value)));
      LogLuck(LuckTested(r, before, wasLucky, player.luck.current.value));
      lucky := Some(wasLucky);
    }

    /** `choosePotion(value)`. */
    method ChoosePotion(choice: PotionChoice)
      requires Valid()
      modifies player
      ensures Valid()
      ensures Snapshot() == Rules.ChoosePotion(old(Snapshot()), choice)
    {
      player.potion := player.potion.(choice := choice);
    }

    /** `usePotion()`. */
    method UsePotion()
      requires Valid()
      modifies this, player
      ensures Valid()
      ensures Snapshot() == Rules.UsePotion(old(Snapshot()))
    {
      var p := player;
      if !p.StatsRolled() {
        LogLuck(RollStatsFirst);
        return;
      }
      if p.potion.used {
        LogLuck(PotionAlreadyUsed);
        return;
      }
      if p.potion.choice == NoPotion {
        LogLuck(ChoosePotionFirst);
        return;
      }
      var choice := p.potion.choice;
      if choice == SkillPotion {
        p.skill := p.skill.(current := p.skill.initial);
      } else if choice == StrengthPotion {
        p.stamina := p.stamina.(current := p.stamina.initial);
      } else if choice == FortunePotion {
        p.luck := p.luck.(initial := Some(NumOr0(p.luck.initial) + 1));
        p.luck := p.luck.(current := p.luck.initial);
      }
      LogLuck(PotionUsed(choice));
      p.potion := p.potion.(used := true);
      EnforceCaps();
    }

    /** `addListItem(kind, text)`. */
    method AddListItem(kind: ListKind, text: string)
      requires Valid()
      modifies player
      ensures Valid()
      ensures Snapshot() == Rules.AddListItem(old(Snapshot()), kind, text)
    {
      var clean := Text.Trim(text);
      if clean == [] {
        return;
      }
      player.SetList(kind, player.Value().List(kind) + [clean]);
    }

    /** `removeListItem(kind, index)`. */
    method RemoveListItem(kind: ListKind, index: int)
      requires Valid()
      modifies player
      ensures Valid()
      ensures Snapshot() == Rules.RemoveListItem(old(Snapshot()), kind, index)
    {
      player.SetList(kind, Rules.RemoveAt(player.Value().List(kind), index));
    }

    /** The `adjustStat(key, delta)` stepper. */
    method AdjustStat(k: StatKey, delta: int)
      requires Valid()
      modifies player
      ensures Valid()
      ensures Snapshot() == Rules.AdjustStat(old(Snapshot()), k, delta)
    {
      if !player.StatsRolled() {
        return;
      }
      var s := player.Value().Get(k);
      assert s.initial.Some? by { assert k.SkillKey? || k.StaminaKey? || k.LuckKey?; }
      player.SetStat(k, s.(current := Some(Clamp(NumOr0(s.current) + delta, 0, s.initial.value))));
    }

    /** The stepper buttons: stats through adjustStat, provisions and gold directly. */
    method Step(c: Rules.Counter, up: bool)
      requires Valid()
      modifies player
      ensures Valid()
      ensures Snapshot() == Rules.Step(old(Snapshot()), c, up)
    {
      var delta := if up then 1 else -1;
      match c
      case StatCounter(k) =>
        AdjustStat(k, delta);
      case ProvisionsCounter =>
        player.provisions := Clamp(player.provisions + delta, 0, MaxProvisions);
      case GoldCounter =>
        player.gold := Clamp(player.gold + delta, 0, MaxGold);
    }

    /** `addEncounter()` with the prompt answers and the fresh id as inputs. */
    method AddEncounter(id: Id, name: string, skill: Option<int>, stamina: Option<int>)
      requires Valid()
      modifies this
      ensures Valid()
      ensures Snapshot() == Registry.AddEncounter(old(Snapshot()), id, name, skill, stamina)
    {
      if name == [] {
        return;
      }
      if skill.None? || stamina.None? {
        return;
      }
      var enc := Encounter(id, Text.Trim(name), Clamp(skill.value, 1, 99),
                           Pool(Clamp(stamina.value, 1, 999), Clamp(stamina.value, 0, 999)), Active);
      encounters := [enc] + encounters;
      activeId := Some(id);
    }

    /** `setActiveEncounter(id)`. */
    method SetActiveEncounter(id: Id)
      requires Valid()
      modifies this
      ensures Valid()
      ensures Snapshot() == Registry.SetActive(old(Snapshot()), id)
    {
      activeId := Some(id);
    }

    /** `damageEncounter(id, dmg)`. */
    method DamageEncounter(id: Id, dmg: int)
      requires Valid()
      modifies this
      ensures Valid()
      ensures Snapshot() == Registry.DamageEncounter(old(Snapshot()), id, dmg)
    {
      var found := Registry.IndexOf(encounters, id);
      if found.None? {
        return;
      }
      var i := found.value;
      var enc := encounters[i];
      enc := enc.(stamina := enc.stamina.(current := Clamp(enc.stamina.current - dmg, 0, enc.stamina.initial)));
      if enc.stamina.current == 0 {
        enc := enc.(status := Defeated);
      }
      encounters := encounters[i := enc];
    }

    /** `removeEncounter(id)`. */
    method RemoveEncounter(id: Id)
      requires Valid()
      modifies this
      ensures Valid()
      ensures Snapshot() == Registry.RemoveEncounter(old(Snapshot()), id)
    {
      encounters := Registry.Without(encounters, id);
      if activeId == Some(id) {
        activeId := None;
      }
    }

    /** `toggleEncounterEscaped(id)`. */
    method ToggleEncounterEscaped(id: Id)
      requires Valid()
      modifies this
      ensures Valid()
      ensures Snapshot() == Registry.ToggleEscaped(old(Snapshot()), id)
    {
      var found := Registry.IndexOf(encounters, id);
      if found.None? {
        return;
      }
      var i := found.value;
      var enc := encounters[i];
      encounters := encounters[i := enc.(status := if enc.status == Escaped then Active else Escaped)];
    }

    /** The luck test inside a round: roll against luck, lose one point, log it. */
    method TestLuckInCombat(luckDice: TwoDice) returns (lucky: bool)
      requires player.StatsRolled()
      modifies this, player
      ensures lucky == (luckDice.Total() <= NumOr0(old(player.luck.current)))
      ensures Snapshot() == Combat.LuckStage(old(Snapshot()), luckDice, lucky)
    {
      var luckRoll := luckDice.Total();
      var beforeLuck := player.luck.current;
      lucky := luckRoll <= NumOr0(player.luck.current);
      player.luck := player.luck.(current := Some(Clamp(NumOr0(player.luck.current) - 1, 0, player.luck.initial.value)));
      LogCombat(LuckUsed(luckRoll, beforeLuck, lucky, player.luck.current.value));
    }

    /** The damage step of a round: the loser of the decided round takes the damage. */
    method ApplyRound(i: nat, rd: Combat.Round)
      requires player.StatsRolled() && i < |encounters|
      modifies this, player
      ensures Snapshot() == Combat.ApplyRound(old(Snapshot()), i, rd)
    {
      var enc := encounters[i];
      if rd.outcome == PlayerWins {
        var hit := enc.(stamina := enc.stamina.(current := Clamp(enc.stamina.current - rd.damage, 0, enc.stamina.initial)));
        if hit.stamina.current == 0 {
          hit := hit.(status := Defeated);
        }
        encounters := encounters[i := hit];
        LogCombat(PlayerWon(rd.playerAS, rd.playerRoll, player.skill.current,
                            rd.monsterAS, rd.monsterRoll, enc.skill, rd.damage));
      } else if rd.outcome == MonsterWins {
        player.stamina := player.stamina.(current :=
          Some(Clamp(NumOr0(player.stamina.current) - rd.damage, 0, player.stamina.initial.value)));
        LogCombat(MonsterWon(rd.playerAS, rd.playerRoll, player.skill.current,
                             rd.monsterAS, rd.monsterRoll, enc.skill, rd.damage));
      } else {
        LogCombat(Tied(rd.playerAS, rd.monsterAS));
      }
    }

    /** `combatRound(useLuck)` with its three 2d6 rolls as inputs. */
    method CombatRound(useLuck: bool, playerDice: TwoDice, monsterDice: TwoDice, luckDice: TwoDice)
      requires Valid()
      modifies this, player
      ensures Valid()
      ensures Snapshot() == Combat.CombatRound(old(Snapshot()), useLuck, playerDice, monsterDice, luckDice)
    {
      var found := if activeId.None? then None else Registry.IndexOf(encounters, activeId.value);
      assert found == Registry.FindActive(Snapshot());
      if !player.StatsRolled() {
        LogCombat(RollStatsFirst);
        return;
      }
      if found.None? {
        LogCombat(NoActiveMonster);
        return;
      }
      var i := found.value;
      var enc := encounters[i];
      if enc.status != Active {
        LogCombat(MonsterNotActive);
        return;
      }
      ghost var g0 := Snapshot();

      var playerRoll := playerDice.Total();
      var monsterRoll := monsterDice.Total();
      var playerAS := playerRoll + NumOr0(player.skill.current);
      var monsterAS := monsterRoll + enc.skill;

      var damage := 2;
      var outcome := Tie;
      if playerAS > monsterAS {
        outcome := PlayerWins;
      } else if monsterAS > playerAS {
        outcome := MonsterWins;
      }

      var tested := useLuck && outcome != Tie;
      var lucky := false;
      if tested {
        lucky := TestLuckInCombat(luckDice);
        if outcome == PlayerWins {
          damage := if lucky then 4 else 1;
        } else {
          damage := if lucky then 1 else 3;
        }
      }
      var rd := Combat.Round(playerRoll, monsterRoll, playerAS, monsterAS, outcome, tested, lucky, damage);
      assert rd == Combat.Resolve(NumOr0(g0.player.skill.current), enc.skill, NumOr0(g0.player.luck.current),
                                  useLuck, playerDice, monsterDice, luckDice);
      ApplyRound(i, rd);
      EnforceCaps();
    }
  }
}
