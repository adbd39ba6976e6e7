/** Worked rounds of play with fixed dice, on the rule functions. */
module Scenarios {
  import opened Model
  import opened Dice
  import Rules
  import Registry
  import Combat

  /** A rolled sheet with the given skill, stamina and luck, all at full. */
  function RolledGame(skill: int, stamina: int, luck: int): Game
  {
    var d := Default();
    d.(player := d.player.(skill := Full(skill), stamina := Full(stamina), luck := Full(luck)))
  }

  /** The same sheet facing one active monster, selected as the active encounter. */
  function Facing(skill: int, luck: int, monsterSkill: int, monsterStamina: int): Game
  {
    RolledGame(skill, 20, luck).(
      encounters := [Encounter("m1", "Orc", monsterSkill, Pool(monsterStamina, monsterStamina), Active)],
      activeId := Some("m1"))
  }

  /** Every die showing 4: skill 10, stamina 4 + 4 + 12 = 20, luck 10, all at full. */
  lemma FirstRollAllFours()
    ensures var r := Rules.RollInitialStats(Default(), 4, TwoDice(4, 4), 4);
      r.player.skill == Full(10) && r.player.stamina == Full(20) && r.player.luck == Full(10)
  {
  }

  /** A potion of skill drunk at full skill: skill stays 10, the potion is spent. */
  lemma SkillPotionAtFullSkill()
    ensures var g := RolledGame(10, 20, 9);
      var r := Rules.UsePotion(Rules.ChoosePotion(g, SkillPotion));
      r.player.skill == Full(10) && r.player.potion == Potion(SkillPotion, true)
  {
  }

  /** Ten damage on an 8-stamina monster: stamina 0, defeated. */
  lemma OverkillDefeats()
    ensures var r := Registry.DamageEncounter(Facing(10, 10, 8, 8), "m1", 10);
      r.encounters[0].stamina == Pool(8, 0) && r.encounters[0].status == Defeated
  {
  }

  /** Attack strength 6 + 10 = 16 against 3 + 8 = 11 without luck: the player wins and the
      monster loses 2 stamina. */
  lemma PlayerWinsWithoutLuck()
    ensures var r := Combat.CombatRound(Facing(10, 10, 8, 8), false, TwoDice(3, 3), TwoDice(1, 2), TwoDice(1, 1));
      r.encounters[0].stamina == Pool(8, 6) && r.player.luck == Full(10)
  {

  }

  /** The same round with luck and a luck roll of 2 against luck 10: still a player win, now
      for 4 damage, and luck drops to 9. */
  lemma PlayerWinsLucky()
    ensures var r := Combat.CombatRound(Facing(10, 10, 8, 8), true, TwoDice(3, 3), TwoDice(1, 2), TwoDice(1, 1));
      r.encounters[0].stamina == Pool(8, 4) && r.player.luck == Stat(Some(10), Some(9))
  {

  }
}
