/** One round of combat between the player and the active encounter. */
module Combat {
  import opened Model
  import opened Dice
  import opened Rules
  import opened Registry

  /** Higher attack strength wins; equal strengths are a tie. */
  function Decide(playerAS: int, monsterAS: int): (o: Outcome)
    ensures o == PlayerWins <==> playerAS > monsterAS
    ensures o == MonsterWins <==> monsterAS > playerAS
    ensures o == Tie <==> playerAS == monsterAS
  {
    if playerAS > monsterAS then PlayerWins
    else if monsterAS > playerAS then MonsterWins
    else Tie
  }

  /** What a round decided, before anything is applied to the state. */
  datatype Round = Round(
    playerRoll: int, monsterRoll: int,
    playerAS: int, monsterAS: int,
    outcome: Outcome,
    luckTested: bool, lucky: bool,
    damage: int)

  /** Attack strengths, outcome and damage. Base damage is 2; luck is tested only when asked
      for and the round is not a tie, and then only the damage changes. */
  function Resolve(playerSkill: int, monsterSkill: int, luck: int, useLuck: bool,
                   playerDice: TwoDice, monsterDice: TwoDice, luckDice: TwoDice): (rd: Round)
    ensures rd.playerAS == playerDice.Total() + playerSkill && rd.monsterAS == monsterDice.Total() + monsterSkill
    ensures rd.luckTested <==> useLuck && rd.outcome != Tie
    ensures 1 <= rd.damage <= 4
  {
    var playerAS := playerDice.Total() + playerSkill;
    var monsterAS := monsterDice.Total() + monsterSkill;
    var outcome := Decide(playerAS, monsterAS);
    var tested := useLuck && outcome != Tie;
    var lucky := tested && luckDice.Total() <= luck;
    var damage :=
      if !tested then 2
      else if outcome == PlayerWins then (if lucky then 4 else 1)
      else (if lucky then 1 else 3);
    Round(playerDice.Total(), monsterDice.Total(), playerAS, monsterAS, outcome, tested, lucky, damage)
  }

  /** The luck test inside a round: costs one luck point and logs to the combat log. */
  function LuckStage(g: Game, luckDice: TwoDice, lucky: bool): (r: Game)
    requires StatsRolled(g.player)
    ensures r.player == g.player.(luck := r.player.luck) && StatsRolled(r.player)
    ensures Capped(g) ==> Capped(r)
  {
    var l := g.player.luck;
    var after := LuckAfterTest(l);
    LogCombat(g.(player := g.player.(luck := l.(current := Some(after)))),
              LuckUsed(luckDice.Total(), l.current, lucky, after))
  }

  /** The combat-log line of a decided round. */
  function RoundEntry(rd: Round, playerSkill: Option<int>, monsterSkill: int): Entry
  {
    match rd.outcome
    case PlayerWins => PlayerWon(rd.playerAS, rd.playerRoll, playerSkill,
                                 rd.monsterAS, rd.monsterRoll, monsterSkill, rd.damage)
    case MonsterWins => MonsterWon(rd.playerAS, rd.playerRoll, playerSkill,
                                   rd.monsterAS, rd.monsterRoll, monsterSkill, rd.damage)
    case Tie => Tied(rd.playerAS, rd.monsterAS)
  }

  /** Applies a decided round: the loser takes the damage, a tie hurts nobody. */
  function ApplyRound(g: Game, i: nat, rd: Round): (r: Game)
    requires StatsRolled(g.player) && i < |g.encounters|
    ensures |r.encounters| == |g.encounters|
    ensures Capped(g) ==> Capped(r)
  {
    var enc := g.encounters[i];
    match rd.outcome
    case PlayerWins =>
      LogCombat(g.(encounters := g.encounters[i := Damage(enc, rd.damage)]),
                RoundEntry(rd, g.player.skill.current, enc.skill))
    case MonsterWins =>
      var st := g.player.stamina;
      var hurt := st.(current := Some(Clamp(NumOr0(st.current) - rd.damage, 0, st.initial.value)));
      LogCombat(g.(player := g.player.(stamina := hurt)),
                RoundEntry(rd, g.player.skill.current, enc.skill))
    case Tie =>
      LogCombat(g, RoundEntry(rd, g.player.skill.current, enc.skill))
  }

  /** `combatRound(useLuck)` with its three 2d6 rolls as inputs (the luck roll is only used
      when luck is tested). */
  function CombatRound(g: Game, useLuck: bool, playerDice: TwoDice, monsterDice: TwoDice, luckDice: TwoDice): (r: Game)
    ensures Capped(g) ==> Capped(r)
    ensures r.activeId == g.activeId && r.luckLog == g.luckLog && r.diceLog == g.diceLog
  {
    var p := g.player;
    var found := FindActive(g);
    if !StatsRolled(p) then LogCombat(g, RollStatsFirst)
    else if found.None? then LogCombat(g, NoActiveMonster)
    else if g.encounters[found.value].status != Active then LogCombat(g, MonsterNotActive)
    else
      var i := found.value;
      var rd := Resolve(NumOr0(p.skill.current), g.encounters[i].skill, NumOr0(p.luck.current),
                        useLuck, playerDice, monsterDice, luckDice);
      var g1 := if rd.luckTested then LuckStage(g, luckDice, rd.lucky) else g;
      CapAll(ApplyRound(g1, i, rd))
  }

  // ---- Properties ----

  /** The damage table: 2 without luck; with luck, 4 or 1 for a player win and 1 or 3 for a
      monster win, lucky meaning the luck roll is at most the luck value before the test. */
  lemma DamageTable(playerSkill: int, monsterSkill: int, luck: int, useLuck: bool,
                    playerDice: TwoDice, monsterDice: TwoDice, luckDice: TwoDice)
    ensures var rd := Resolve(playerSkill, monsterSkill, luck, useLuck, playerDice, monsterDice, luckDice);
      && rd.outcome == Decide(playerDice.Total() + playerSkill, monsterDice.Total() + monsterSkill)
      && (!useLuck ==> rd.damage == 2 && !rd.luckTested)
      && (rd.luckTested ==> rd.lucky == (luckDice.Total() <= luck))
      && (rd.luckTested && rd.outcome == PlayerWins ==> rd.damage == if rd.lucky then 4 else 1)
      && (rd.luckTested && rd.outcome == MonsterWins ==> rd.damage == if rd.lucky then 1 else 3)
  {
  }

  /** Luck never decides who wins: with or without it, and whatever the luck roll and value,
      the same attack rolls give the same outcome. */
  lemma LuckNeverChangesWinner(playerSkill: int, monsterSkill: int, luck1: int, luck2: int,
                               playerDice: TwoDice, monsterDice: TwoDice, luckDice1: TwoDice, luckDice2: TwoDice)
    ensures Resolve(playerSkill, monsterSkill, luck1, true, playerDice, monsterDice, luckDice1).outcome
         == Resolve(playerSkill, monsterSkill, luck2, false, playerDice, monsterDice, luckDice2).outcome
  {
  }

  /** A round is refused, with only a combat-log entry, before the roll, without a (live)
      active encounter, or when the active encounter is not in active status. */
  lemma CombatRefused(g: Game, useLuck: bool, playerDice: TwoDice, monsterDice: TwoDice, luckDice: TwoDice)
    ensures !StatsRolled(g.player) ==>
      CombatRound(g, useLuck, playerDice, monsterDice, luckDice) == g.(combatLog := [RollStatsFirst] + g.combatLog)
    ensures StatsRolled(g.player) && FindActive(g).None? ==>
      CombatRound(g, useLuck, playerDice, monsterDice, luckDice) == g.(combatLog := [NoActiveMonster] + g.combatLog)
    ensures StatsRolled(g.player) && FindActive(g).Some? && g.encounters[FindActive(g).value].status != Active ==>
      CombatRound(g, useLuck, playerDice, monsterDice, luckDice) == g.(combatLog := [MonsterNotActive] + g.combatLog)
  {
  }

  /** A fought round on a capped state. A player win damages only the active encounter
      (clamped to [0, initial], defeated at 0); a monster win lowers only the player's stamina;
      a tie deals no damage. Luck is tested, costing exactly one point, only when asked for on
      a non-tie. Skill, inventory, potion and the other encounters do not change. */
  lemma CombatEffect(g: Game, useLuck: bool, playerDice: TwoDice, monsterDice: TwoDice, luckDice: TwoDice)
    requires Capped(g) && StatsRolled(g.player)
    requires FindActive(g).Some? && g.encounters[FindActive(g).value].status == Active
    ensures var i := FindActive(g).value;
      var p := g.player;
      var enc := g.encounters[i];
      var rd := Resolve(NumOr0(p.skill.current), enc.skill, NumOr0(p.luck.current),
                        useLuck, playerDice, monsterDice, luckDice);
      var r := CombatRound(g, useLuck, playerDice, monsterDice, luckDice);
      && r.player == p.(stamina := r.player.stamina, luck := r.player.luck)
      && r.activeId == g.activeId && r.luckLog == g.luckLog && r.diceLog == g.diceLog
      && r.player.luck == (if rd.luckTested then Stat(p.luck.initial, Some(Max(NumOr0(p.luck.current) - 1, 0)))
                           else p.luck)
      && (rd.outcome == PlayerWins ==>
            r.encounters == g.encounters[i := Damage(enc, rd.damage)] && r.player.stamina == p.stamina)
      && (rd.outcome == MonsterWins ==>
            r.encounters == g.encounters &&
            r.player.stamina.initial == p.stamina.initial &&
            (0 <= p.stamina.initial.value ==>
               r.player.stamina.current == Some(Max(NumOr0(p.stamina.current) - rd.damage, 0))))
      && (rd.outcome == Tie ==> r.encounters == g.encounters && r.player.stamina == p.stamina)
      && r.combatLog == [RoundEntry(rd, p.skill.current, enc.skill)]
                        + (if rd.luckTested
                           then [LuckUsed(luckDice.Total(), p.luck.current, rd.lucky, Max(NumOr0(p.luck.current) - 1, 0))]
                           else [])
                        + g.combatLog
  {

  }

  /** A combat round keeps every encounter within its creation bounds. */
  lemma CombatKeepsBounds(g: Game, useLuck: bool, playerDice: TwoDice, monsterDice: TwoDice, luckDice: TwoDice)
    requires AllOk(g.encounters)
    ensures AllOk(CombatRound(g, useLuck, playerDice, monsterDice, luckDice).encounters)
  {
  }
}
