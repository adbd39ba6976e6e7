/** The game state record of the Fighting Fantasy companion, its default value and its caps. */
module Model {

  datatype Option<+T> = None | Some(value: T)

  /** JavaScript coerces `null` to 0 in arithmetic and comparisons; a current value that is
      still null (a loaded save may hold rolled initials with null currents) counts as 0. */
  function NumOr0(o: Option<int>): int
  {
    if o.Some? then o.value else 0
  }

  function Max(a: int, b: int): int { if a < b then b else a }
  function Min(a: int, b: int): int { if a < b then a else b }

  /** `clamp(n, min, max)`, which is `Math.max(min, Math.min(max, n))`: when `hi < lo` the
      lower bound wins. */
  function Clamp(n: int, lo: int, hi: int): (r: int)
    ensures lo <= r
    ensures lo <= hi ==> r <= hi
    ensures lo <= n <= hi ==> r == n
    ensures n < lo ==> r == lo
    ensures hi < n ==> r == Max(lo, hi)
  {
    Max(lo, Min(hi, n))
  }

  /** A player stat: both halves are null until the stat is rolled. */
  datatype Stat = Stat(initial: Option<int>, current: Option<int>)

  const Unrolled: Stat := Stat(None, None)

  /** A freshly rolled stat: current equals initial. */
  function Full(n: int): Stat { Stat(Some(n), Some(n)) }

  datatype StatKey = SkillKey | StaminaKey | LuckKey

  datatype PotionChoice = NoPotion | SkillPotion | StrengthPotion | FortunePotion

  datatype Potion = Potion(choice: PotionChoice, used: bool)

  datatype ListKind = Equipment | Treasure

  /** The character sheet, `state.player`. */
  datatype Sheet = Sheet(
    name: string,
    skill: Stat,
    stamina: Stat,
    luck: Stat,
    provisions: int,
    gold: int,
    equipment: seq<string>,
    treasure: seq<string>,
    potion: Potion)
  {
    /** `p[k]` for a stat key. */
    function Get(k: StatKey): Stat
    {
      match k
      case SkillKey => skill
      case StaminaKey => stamina
      case LuckKey => luck
    }

    /** The sheet with `p[k]` replaced. */
    function With(k: StatKey, s: Stat): (r: Sheet)
      ensures r.Get(k) == s
      ensures forall j :: j != k ==> r.Get(j) == Get(j)
    {
      match k
      case SkillKey => this.(skill := s)
      case StaminaKey => this.(stamina := s)
      case LuckKey => this.(luck := s)
    }

    /** `p[kind]` for an inventory list. */
    function List(kind: ListKind): seq<string>
    {
      match kind
      case Equipment => equipment
      case Treasure => treasure
    }

    function WithList(kind: ListKind, items: seq<string>): (r: Sheet)
      ensures r.List(kind) == items
    {
      match kind
      case Equipment => this.(equipment := items)
      case Treasure => this.(treasure := items)
    }
  }

  /** The opaque identifier `uid()` hands out. */
  type Id = string

  datatype Status = Active | Defeated | Escaped

  /** An encounter's stamina: plain numbers, set when the encounter is created. */
  datatype Pool = Pool(initial: int, current: int)

  datatype Encounter = Encounter(id: Id, name: string, skill: int, stamina: Pool, status: Status)

  datatype Outcome = PlayerWins | MonsterWins | Tie

  /** Log lines, without their timestamps and formatting. */
  datatype Entry =
    | RolledInitialStats
    | RollStatsFirst
    | NoProvisionsLeft
    | LuckTested(roll: int, before: Option<int>, lucky: bool, after: int)
    | PotionAlreadyUsed
    | ChoosePotionFirst
    | PotionUsed(choice: PotionChoice)
    | NoActiveMonster
    | MonsterNotActive
    | LuckUsed(roll: int, before: Option<int>, lucky: bool, after: int)
    | PlayerWon(playerAS: int, playerRoll: int, playerSkill: Option<int>,
                monsterAS: int, monsterRoll: int, monsterSkill: int, damage: int)
    | MonsterWon(playerAS: int, playerRoll: int, playerSkill: Option<int>,
                 monsterAS: int, monsterRoll: int, monsterSkill: int, damage: int)
    | Tied(playerAS: int, monsterAS: int)

  /** The whole game state: sheet, encounter registry and the three logs (newest first). */
  datatype Game = Game(
    player: Sheet,
    encounters: seq<Encounter>,
    activeId: Option<Id>,
    luckLog: seq<Entry>,
    combatLog: seq<Entry>,
    diceLog: seq<Entry>)

  const DefaultProvisions := 10
  const MaxProvisions := 999
  const MaxGold := 999999

  /** `createDefaultState()`. */
  function Default(): Game
  {
    Game(Sheet("", Unrolled, Unrolled, Unrolled, DefaultProvisions, 0, [], [], Potion(NoPotion, false)),
         [], None, [], [], [])
  }

  /** `hasStatsRolled()`: all three initial values are numbers. */
  predicate StatsRolled(p: Sheet): (b: bool)
    ensures b <==> forall k :: p.Get(k).initial.Some?
  {
    assert p.Get(SkillKey) == p.skill && p.Get(StaminaKey) == p.stamina && p.Get(LuckKey) == p.luck;
    p.skill.initial.Some? && p.stamina.initial.Some? && p.luck.initial.Some?
  }

  /** What enforceCaps guarantees of one stat. When the initial value is non-negative this is
      `0 <= current <= initial`; a negative initial (only a save can hold one) forces 0. */
  predicate StatCapped(s: Stat)
  {
    s.initial.Some? && s.current.Some? ==>
      0 <= s.current.value && (s.current.value <= s.initial.value || s.current.value == 0)
  }

  predicate SheetCapped(p: Sheet)
  {
    StatCapped(p.skill) && StatCapped(p.stamina) && StatCapped(p.luck) &&
    0 <= p.provisions <= MaxProvisions && 0 <= p.gold <= MaxGold
  }

  predicate Capped(g: Game)
  {
    SheetCapped(g.player)
  }

  /** One step of enforceCaps' loop: a stat with both halves set gets its current value
      clamped to [0, initial]; a stat with a null half is left alone. */
  function CapStat(s: Stat): (r: Stat)
    ensures StatCapped(r)
    ensures r.initial == s.initial && r.current.Some? == s.current.Some?
    ensures StatCapped(s) ==> r == s
    ensures s.initial.Some? && s.current.Some? && 0 <= s.initial.value && s.current.value > s.initial.value
      ==> r.current == s.initial
    ensures s.initial.Some? && s.current.Some? && s.current.value < 0 ==> r.current == Some(0)
  {
    if s.initial.Some? && s.current.Some? then
      Stat(s.initial, Some(Clamp(s.current.value, 0, s.initial.value)))
    else s
  }

  /** `enforceCaps(s)`: clamps the three stats, provisions to [0, 999] and gold to [0, 999999];
      nothing outside those five fields changes, and a capped state is a fixed point. */
  function CapAll(g: Game): (r: Game)
    ensures Capped(r)
    ensures Capped(g) ==> r == g
    ensures forall k :: r.player.Get(k) == CapStat(g.player.Get(k))
    ensures r == g.(player := g.player.(skill := r.player.skill, stamina := r.player.stamina,
                    luck := r.player.luck, provisions := r.player.provisions, gold := r.player.gold))
    ensures StatsRolled(r.player) == StatsRolled(g.player)
    ensures r.player.provisions == Clamp(g.player.provisions, 0, MaxProvisions)
    ensures r.player.gold == Clamp(g.player.gold, 0, MaxGold)
  {
    var p := g.player;
    g.(player := p.(skill := CapStat(p.skill), stamina := CapStat(p.stamina), luck := CapStat(p.luck),
                    provisions := Clamp(p.provisions, 0, MaxProvisions),
                    gold := Clamp(p.gold, 0, MaxGold)))
  }

  /** A fresh state is capped and its stats are not rolled. */
  lemma DefaultIsCapped()
    ensures Capped(Default()) && !StatsRolled(Default().player)
    ensures Default().player.provisions == 10 && Default().player.gold == 0
  {
  }

  /** Applying enforceCaps a second time changes nothing. */
  lemma CapAllIdempotent(g: Game)
    ensures CapAll(CapAll(g)) == CapAll(g)
  {
  }

  /** Where the source's clamp and the stat invariant part: a saved negative initial leaves
      current at 0, above initial. */
  lemma NegativeInitialCapsToZero(s: Stat)
    requires s.initial.Some? && s.current.Some? && s.initial.value < 0
    ensures CapStat(s).current == Some(0)
    ensures CapStat(s).current.value > CapStat(s).initial.value
  {
  }
}
