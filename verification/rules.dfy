/** The character-sheet rules: initial rolls, provisions, luck tests, potions, inventory and
    the +/- steppers. Each operation maps the state before to the state after. */
module Rules {
  import opened Model
  import opened Dice
  import Text

  /** `logLuck(msg)`: newest entry first. */
  function LogLuck(g: Game, e: Entry): (r: Game)
    ensures |r.luckLog| == |g.luckLog| + 1 && r.luckLog[0] == e && r.luckLog[1..] == g.luckLog
    ensures r == g.(luckLog := r.luckLog)
  {
    g.(luckLog := [e] + g.luckLog)
  }

  /** `logCombat(msg)`: newest entry first. */
  function LogCombat(g: Game, e: Entry): (r: Game)
    ensures |r.combatLog| == |g.combatLog| + 1 && r.combatLog[0] == e && r.combatLog[1..] == g.combatLog
    ensures r == g.(combatLog := r.combatLog)
  {
    g.(combatLog := [e] + g.combatLog)
  }

  /** `rollInitialStats()` with its dice as inputs: skill 1d6+6, stamina 2d6+12, luck 1d6+6,
      each current equal to its initial; one entry in the luck log. */
  function RollInitialStats(g: Game, skillDie: D6, staminaDice: TwoDice, luckDie: D6): (r: Game)
    ensures StatsRolled(r.player)
    ensures Capped(g) ==> Capped(r)
    ensures 7 <= r.player.skill.initial.value <= 12 && r.player.skill.current == r.player.skill.initial
    ensures 14 <= r.player.stamina.initial.value <= 24 && r.player.stamina.current == r.player.stamina.initial
    ensures 7 <= r.player.luck.initial.value <= 12 && r.player.luck.current == r.player.luck.initial
    ensures r.player.skill == Full(skillDie + 6) && r.player.stamina == Full(staminaDice.Total() + 12)
    ensures r.player.luck == Full(luckDie + 6)
    ensures r == g.(player := r.player, luckLog := [RolledInitialStats] + g.luckLog)
    ensures r.player == g.player.(skill := r.player.skill, stamina := r.player.stamina, luck := r.player.luck)
  {
    var p := g.player.(skill := Full(skillDie + 6),
                       stamina := Full(staminaDice.Total() + 12),
                       luck := Full(luckDie + 6));
    LogLuck(g.(player := p), RolledInitialStats)
  }

  /** `eatProvision()`. */
  function EatProvision(g: Game): (r: Game)
    ensures Capped(g) ==> Capped(r)
  {
    if !StatsRolled(g.player) then LogLuck(g, RollStatsFirst)
    else if g.player.provisions <= 0 then LogLuck(g, NoProvisionsLeft)
    else
      var st := g.player.stamina;
      g.(player := g.player.(provisions := g.player.provisions - 1,
                             stamina := st.(current := Some(Clamp(NumOr0(st.current) + 4, 0, st.initial.value)))))
  }

  /** The luck value after a test: one point less, never below 0 nor above initial. */
  function LuckAfterTest(luck: Stat): (n: int)
    requires luck.initial.Some?
    ensures StatCapped(luck.(current := Some(n)))
    ensures StatCapped(luck) ==> n == Max(NumOr0(luck.current) - 1, 0)
  {
    Clamp(NumOr0(luck.current) - 1, 0, luck.initial.value)
  }

  /** `testLuck()` with its 2d6 as input: the state afterwards. */
  function TestLuck(g: Game, roll: TwoDice): (r: Game)
    ensures Capped(g) ==> Capped(r)
  {
    if !StatsRolled(g.player) then LogLuck(g, RollStatsFirst)
    else
      var l := g.player.luck;
      var lucky := roll.Total() <= NumOr0(l.current);
      var after := LuckAfterTest(l);
      LogLuck(g.(player := g.player.(luck := l.(current := Some(after)))),
              LuckTested(roll.Total(), l.current, lucky, after))
  }

  /** `testLuck()`'s return value: undefined when the stats are not rolled, otherwise whether
      the roll was at most the luck value before the test. */
  function LuckVerdict(g: Game, roll: TwoDice): (lucky: Option<bool>)
    ensures lucky.Some? <==> StatsRolled(g.player)
  {
    if !StatsRolled(g.player) then None else Some(roll.Total() <= NumOr0(g.player.luck.current))
  }

  /** `choosePotion(value)`: no guard, not even on a potion already used. */
  function ChoosePotion(g: Game, choice: PotionChoice): (r: Game)
    ensures r.player.potion == Potion(choice, g.player.potion.used)
    ensures r == g.(player := g.player.(potion := r.player.potion))
  {
    g.(player := g.player.(potion := g.player.potion.(choice := choice)))
  }

  /** The effect of drinking the chosen potion on the sheet, before re-capping. */
  function PotionEffect(p: Sheet): (r: Sheet)
    ensures r == p.(skill := r.skill, stamina := r.stamina, luck := r.luck)
    ensures p.potion.choice == SkillPotion ==>
      r == p.(skill := Stat(p.skill.initial, p.skill.initial))
    ensures p.potion.choice == StrengthPotion ==>
      r == p.(stamina := Stat(p.stamina.initial, p.stamina.initial))
    ensures p.potion.choice == FortunePotion ==>
      r == p.(luck := Full(NumOr0(p.luck.initial) + 1)) && r.luck.initial == r.luck.current
    ensures p.potion.choice == NoPotion ==> r == p
  {
    match p.potion.choice
    case SkillPotion => p.(skill := p.skill.(current := p.skill.initial))
    case StrengthPotion => p.(stamina := p.stamina.(current := p.stamina.initial))
    case FortunePotion => p.(luck := Full(NumOr0(p.luck.initial) + 1))
    case NoPotion => p
  }

  /** `usePotion()`. */
  function UsePotion(g: Game): (r: Game)
    ensures Capped(r) || r.player == g.player
    ensures !StatsRolled(g.player) || g.player.potion.used || g.player.potion.choice == NoPotion ==>
      r.player == g.player
    ensures Capped(g) ==> Capped(r)
  {
    var p := g.player;
    if !StatsRolled(p) then LogLuck(g, RollStatsFirst)
    else if p.potion.used then LogLuck(g, PotionAlreadyUsed)
    else if p.potion.choice == NoPotion then LogLuck(g, ChoosePotionFirst)
    else
      var g1 := LogLuck(g.(player := PotionEffect(p)), PotionUsed(p.potion.choice));
      CapAll(g1.(player := g1.player.(potion := g1.player.potion.(used := true))))
  }

  /** `addListItem(kind, text)`: the trimmed text is appended unless it is empty. */
  function AddListItem(g: Game, kind: ListKind, text: string): (r: Game)
    ensures r == g.(player := g.player.WithList(kind, r.player.List(kind)))
    ensures Capped(g) ==> Capped(r)
  {
    var clean := Text.Trim(text);
    if clean == [] then g
    else g.(player := g.player.WithList(kind, g.player.List(kind) + [clean]))
  }

  /** Where `splice(index, 1)` starts: a negative index counts from the end. */
  function SpliceStart(len: nat, index: int): (st: nat)
    ensures st <= len
    ensures 0 <= index ==> st == Min(index, len)
    ensures index < 0 ==> st == Max(len + index, 0)
  {
    if index < 0 then Max(len + index, 0) else Min(index, len)
  }

  /** `list.splice(index, 1)`: removes at most one item. */
  function RemoveAt(s: seq<string>, index: int): (r: seq<string>)
    ensures 0 <= index < |s| ==> r == s[..index] + s[index + 1..]
    ensures index >= |s| ==> r == s
    ensures -|s| <= index < 0 ==> r == s[..|s| + index] + s[|s| + index + 1..]
    ensures index < -|s| && s != [] ==> r == s[1..]
    ensures |r| == if s == [] || index >= |s| then |s| else |s| - 1
  {
    var st := SpliceStart(|s|, index);
    if st < |s| then s[..st] + s[st + 1..] else s
  }

  /** `removeListItem(kind, index)`. */
  function RemoveListItem(g: Game, kind: ListKind, index: int): (r: Game)
    ensures r == g.(player := g.player.WithList(kind, r.player.List(kind)))
    ensures multiset(r.player.List(kind)) <= multiset(g.player.List(kind))
    ensures r.player.List(kind) == RemoveAt(g.player.List(kind), index)
    ensures Capped(g) ==> Capped(r)
  {
    var s := g.player.List(kind);
    var st := SpliceStart(|s|, index);
    assert st < |s| ==> s == s[..st] + [s[st]] + s[st + 1..];
    g.(player := g.player.WithList(kind, RemoveAt(s, index)))
  }

  /** `adjustStat(key, delta)`: nothing happens until the stats are rolled. */
  function AdjustStat(g: Game, k: StatKey, delta: int): (r: Game)
    ensures Capped(g) ==> Capped(r)
    ensures !StatsRolled(g.player) ==> r == g
    ensures r == g.(player := g.player.With(k, r.player.Get(k)))
    ensures r.player.Get(k).initial == g.player.Get(k).initial
  {
    if !StatsRolled(g.player) then g
    else
      var s := g.player.Get(k);
      assert s.initial.Some? by { assert k.SkillKey? || k.StaminaKey? || k.LuckKey?; }
      g.(player := g.player.With(k, s.(current := Some(Clamp(NumOr0(s.current) + delta, 0, s.initial.value)))))
  }

  /** What a stepper button changes. */
  datatype Counter = StatCounter(key: StatKey) | ProvisionsCounter | GoldCounter

  /** The stepper dispatch: +1 when `up`, otherwise -1. Provisions and gold have no guard. */
  function Step(g: Game, c: Counter, up: bool): (r: Game)
    ensures Capped(g) ==> Capped(r)
    ensures c.ProvisionsCounter? ==> 0 <= r.player.provisions <= MaxProvisions
    ensures c.GoldCounter? ==> 0 <= r.player.gold <= MaxGold
    ensures c.ProvisionsCounter? ==> r == g.(player := g.player.(provisions := r.player.provisions))
    ensures c.GoldCounter? ==> r == g.(player := g.player.(gold := r.player.gold))
  {
    var delta := if up then 1 else -1;
    match c
    case StatCounter(k) => AdjustStat(g, k, delta)
    case ProvisionsCounter =>
      g.(player := g.player.(provisions := Clamp(g.player.provisions + delta, 0, MaxProvisions)))
    case GoldCounter =>
      g.(player := g.player.(gold := Clamp(g.player.gold + delta, 0, MaxGold)))
  }

  // ---- Properties ----

  /** A luck test on an unrolled sheet only writes the luck log. Otherwise it is lucky exactly
      when the roll is at most the luck value before the test, and it costs exactly one luck
      point (never going below 0) whatever the outcome; nothing else changes. */
  lemma TestLuckEffect(g: Game, roll: TwoDice)
    requires Capped(g)
    ensures !StatsRolled(g.player) ==>
      TestLuck(g, roll) == g.(luckLog := [RollStatsFirst] + g.luckLog) && LuckVerdict(g, roll).None?
    ensures StatsRolled(g.player) ==>
      var r := TestLuck(g, roll);
      var before := NumOr0(g.player.luck.current);
      && LuckVerdict(g, roll) == Some(roll.Total() <= before)
      && r.player.luck == Stat(g.player.luck.initial, Some(Max(before - 1, 0)))
      && r.player == g.player.(luck := r.player.luck)
      && r == g.(player := r.player, luckLog := r.luckLog)
      && r.luckLog == [LuckTested(roll.Total(), g.player.luck.current, roll.Total() <= before, Max(before - 1, 0))] + g.luckLog
  {
  }

  /** Eating is refused (log only) before the roll or with no provisions left; otherwise it
      costs exactly one provision and restores 4 stamina up to the initial value, and changes
      nothing else. */
  lemma EatProvisionEffect(g: Game)
    requires Capped(g)
    ensures !StatsRolled(g.player) ==> EatProvision(g) == g.(luckLog := [RollStatsFirst] + g.luckLog)
    ensures StatsRolled(g.player) && g.player.provisions <= 0 ==>
      EatProvision(g) == g.(luckLog := [NoProvisionsLeft] + g.luckLog)
    ensures StatsRolled(g.player) && g.player.provisions > 0 ==>
      var r := EatProvision(g);
      var st := g.player.stamina;
      && r.player.provisions == g.player.provisions - 1
      && (0 <= st.initial.value ==> r.player.stamina.current == Some(Min(NumOr0(st.current) + 4, st.initial.value)))
      && r.player.stamina.initial == st.initial
      && r == g.(player := g.player.(provisions := r.player.provisions, stamina := r.player.stamina))
  {
  }

  /** A potion is refused (log only) before the roll, after one was used, or with none
      chosen. Otherwise skill and strength restore current to initial, fortune raises initial
      luck by one and restores luck to it, and the potion is marked used in every case. */
  lemma UsePotionEffect(g: Game)
    requires Capped(g)
    ensures !StatsRolled(g.player) ==> UsePotion(g) == g.(luckLog := [RollStatsFirst] + g.luckLog)
    ensures StatsRolled(g.player) && g.player.potion.used ==>
      UsePotion(g) == g.(luckLog := [PotionAlreadyUsed] + g.luckLog)
    ensures StatsRolled(g.player) && !g.player.potion.used && g.player.potion.choice == NoPotion ==>
      UsePotion(g) == g.(luckLog := [ChoosePotionFirst] + g.luckLog)
    ensures StatsRolled(g.player) && !g.player.potion.used && g.player.potion.choice != NoPotion ==>
      var r := UsePotion(g);
      var p := g.player;
      && r.player.potion == Potion(p.potion.choice, true)
      && r.luckLog == [PotionUsed(p.potion.choice)] + g.luckLog
      && r == g.(player := r.player, luckLog := r.luckLog)
      && (p.potion.choice == SkillPotion && 0 <= p.skill.initial.value ==>
            r.player == p.(skill := Full(p.skill.initial.value), potion := r.player.potion))
      && (p.potion.choice == StrengthPotion && 0 <= p.stamina.initial.value ==>
            r.player == p.(stamina := Full(p.stamina.initial.value), potion := r.player.potion))
      && (p.potion.choice == FortunePotion && 0 <= p.luck.initial.value ==>
            r.player == p.(luck := Full(p.luck.initial.value + 1), potion := r.player.potion))
  {

  }

  /** A second potion is always refused: after a successful use, using again only logs. */
  lemma PotionOncePerAdventure(g: Game)
    requires Capped(g) && StatsRolled(g.player)
    ensures UsePotion(g).player.potion.used ==>
      UsePotion(UsePotion(g)) == UsePotion(g).(luckLog := [PotionAlreadyUsed] + UsePotion(g).luckLog)
  {

  }

  /** Adding an item appends its trimmed text, or does nothing when the text is blank. */
  lemma AddListItemEffect(g: Game, kind: ListKind, text: string)
    ensures (forall i :: 0 <= i < |text| ==> Text.IsSpace(text[i])) ==> AddListItem(g, kind, text) == g
    ensures (exists i :: 0 <= i < |text| && !Text.IsSpace(text[i])) ==>
      AddListItem(g, kind, text).player.List(kind) == g.player.List(kind) + [Text.Trim(text)]
  {
  }

  /** With rolled stats and a set current value in [0, initial], a +1 step raises it by one up
      to initial and a -1 step lowers it by one down to 0; stepping up then down from below the
      cap returns to the start. */
  lemma StepStatEffect(g: Game, k: StatKey)
    requires Capped(g) && StatsRolled(g.player) && g.player.Get(k).current.Some?
    requires 0 <= g.player.Get(k).current.value <= g.player.Get(k).initial.value
    ensures var c := g.player.Get(k).current.value;
            var i := g.player.Get(k).initial.value;
            && Step(g, StatCounter(k), true).player.Get(k).current == Some(Min(c + 1, i))
            && Step(g, StatCounter(k), false).player.Get(k).current == Some(Max(c - 1, 0))
    ensures g.player.Get(k).current.value < g.player.Get(k).initial.value ==>
      Step(Step(g, StatCounter(k), true), StatCounter(k), false) == g
  {

  }

  /** On a capped state every stepper changes one field and nothing else: provisions and gold
      move by one within their bounds, and a stat stepper rewrites only that stat's current
      value, keeping its initial. */
  lemma StepEffect(g: Game, c: Counter, up: bool)
    requires Capped(g)
    ensures var p := g.player.provisions;
      c.ProvisionsCounter? ==>
        Step(g, c, up) == g.(player := g.player.(provisions := if up then Min(p + 1, MaxProvisions) else Max(p - 1, 0)))
    ensures var m := g.player.gold;
      c.GoldCounter? ==>
        Step(g, c, up) == g.(player := g.player.(gold := if up then Min(m + 1, MaxGold) else Max(m - 1, 0)))
    ensures var r := Step(g, c, up);
      c.StatCounter? ==>
        && r == g.(player := g.player.With(c.key, r.player.Get(c.key)))
        && r.player.Get(c.key).initial == g.player.Get(c.key).initial
  {

  }
}
