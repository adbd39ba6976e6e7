/** The load-time repair of a saved state: a parsed, loosely typed record is merged over the
    default state, wrong-typed fields are replaced, and the caps are enforced. */
module Persistence {
  import opened Model

  /** A scalar field of the parsed save, as JSON can hold it. `Missing` is an absent key;
      `Composite` is an array or an object. */
  datatype Scalar = Missing | Null | Bool(b: bool) | Num(n: int) | Str(s: string) | Composite

  /** A list field: an array, or anything else (including an absent key). */
  datatype RawList<T> = Array(items: seq<T>) | NotArray

  /** A sub-record of the save; `None` stands for an absent key and for any value that is
      falsy or not an object, all of which spread to nothing. */
  datatype RawStat = RawStat(initial: Scalar, current: Scalar)
  datatype RawPotion = RawPotion(choice: Scalar, used: Scalar)
  datatype RawPlayer = RawPlayer(
    name: Scalar,
    skill: Option<RawStat>, stamina: Option<RawStat>, luck: Option<RawStat>,
    provisions: Scalar, gold: Scalar,
    equipment: RawList<string>, treasure: RawList<string>,
    potion: Option<RawPotion>)
  datatype RawLogs = RawLogs(luck: RawList<Entry>, combat: RawList<Entry>, dice: RawList<Entry>)
  datatype RawState = RawState(
    player: Option<RawPlayer>,
    encounters: RawList<Encounter>,
    activeId: Option<Id>,
    logs: Option<RawLogs>)

  /** `{}`: the empty parsed object. */
  const Empty: RawState := RawState(None, NotArray, None, None)

  /** JavaScript truthiness, `!!v`. */
  predicate Truthy(v: Scalar)
  {
    match v
    case Missing => false
    case Null => false
    case Bool(b) => b
    case Num(n) => n != 0
    case Str(s) => s != []
    case Composite => true
  }

  /** A stat half: a number is kept, null and an absent key give null. */
  function StatField(v: Scalar): (r: Option<int>)
    ensures r.Some? <==> v.Num?
    ensures v.Num? ==> r == Some(v.n)
  {
    if v.Num? then Some(v.n) else None
  }

  function MergeStat(raw: Option<RawStat>): (s: Stat)
    ensures raw.None? ==> s == Unrolled
  {
    match raw
    case None => Unrolled
    case Some(r) => Stat(StatField(r.initial), StatField(r.current))
  }

  /** A non-finite (here: non-numeric) value is replaced by the default. */
  function NumberOr(v: Scalar, default: int): (n: int)
    ensures v.Num? ==> n == v.n
    ensures !v.Num? ==> n == default
  {
    if v.Num? then v.n else default
  }

  function ListOr<T>(l: RawList<T>): (s: seq<T>)
    ensures l.NotArray? ==> s == []
  {
    if l.Array? then l.items else []
  }

  /** The four accepted potion names; anything else reads as none. */
  function ParseChoice(v: Scalar): (c: PotionChoice)
    ensures c != NoPotion ==> v == Str(ChoiceName(c))
    ensures v in {Str("skill"), Str("strength"), Str("fortune")} ==> Str(ChoiceName(c)) == v
    ensures v !in {Str("skill"), Str("strength"), Str("fortune")} ==> c == NoPotion
  {
    if v == Str("skill") then SkillPotion
    else if v == Str("strength") then StrengthPotion
    else if v == Str("fortune") then FortunePotion
    else NoPotion
  }

  function ChoiceName(c: PotionChoice): string
  {
    match c
    case NoPotion => "none"
    case SkillPotion => "skill"
    case StrengthPotion => "strength"
    case FortunePotion => "fortune"
  }

  function MergePotion(raw: Option<RawPotion>): (p: Potion)
    ensures raw.None? ==> p == Potion(NoPotion, false)
  {
    match raw
    case None => Potion(NoPotion, false)
    case Some(r) => Potion(ParseChoice(r.choice), Truthy(r.used))
  }

  function MergePlayer(raw: Option<RawPlayer>): (p: Sheet)
    ensures raw.None? ==> p == Default().player
  {
    match raw
    case None => Default().player
    case Some(r) =>
      Sheet(if r.name.Str? then r.name.s else "",
            MergeStat(r.skill), MergeStat(r.stamina), MergeStat(r.luck),
            NumberOr(r.provisions, DefaultProvisions), NumberOr(r.gold, 0),
            ListOr(r.equipment), ListOr(r.treasure),
            MergePotion(r.potion))
  }

  /** The merge part of `sanitizeState(s)`: defaults under the saved fields, type repairs. */
  function Merge(raw: RawState): (g: Game)
    ensures raw.player.None? ==> g.player == Default().player
    ensures raw.encounters.Array? ==> g.encounters == raw.encounters.items
    ensures raw.encounters.NotArray? ==> g.encounters == []
    ensures g.activeId == raw.activeId
  {
    var logs := if raw.logs.Some? then raw.logs.value else RawLogs(NotArray, NotArray, NotArray);
    Game(MergePlayer(raw.player), ListOr(raw.encounters), raw.activeId,
         ListOr(logs.luck), ListOr(logs.combat), ListOr(logs.dice))
  }

  /** The saved record of one stat, `None` when the player or stat record is absent. */
  function SavedStat(raw: RawState, k: StatKey): Option<RawStat>
  {
    if raw.player.None? then None
    else match k
      case SkillKey => raw.player.value.skill
      case StaminaKey => raw.player.value.stamina
      case LuckKey => raw.player.value.luck
  }

  /** The saved potion choice, `Missing` when the player or potion record is absent. */
  function SavedChoice(raw: RawState): Scalar
  {
    if raw.player.Some? && raw.player.value.potion.Some? then raw.player.value.potion.value.choice
    else Missing
  }

  /** `sanitizeState(s)`: whatever was loaded, the result satisfies every cap; non-numeric
      provisions become 10 and gold 0; non-array lists and logs become empty; a potion choice
      other than the three potion names becomes none. */
  function Sanitize(raw: RawState): (g: Game)
    ensures Capped(g)
    ensures raw.player.Some? && !raw.player.value.provisions.Num? ==> g.player.provisions == DefaultProvisions
    ensures raw.player.Some? && !raw.player.value.gold.Num? ==> g.player.gold == 0
    ensures raw.player.Some? && raw.player.value.equipment.NotArray? ==> g.player.equipment == []
    ensures raw.player.Some? && raw.player.value.treasure.NotArray? ==> g.player.treasure == []
    ensures raw.player.Some? && raw.player.value.equipment.Array? ==> g.player.equipment == raw.player.value.equipment.items
    ensures raw.player.Some? && raw.player.value.treasure.Array? ==> g.player.treasure == raw.player.value.treasure.items
    ensures raw.player.None? ==> g.player == Default().player
    ensures forall k :: g.player.Get(k) == CapStat(MergeStat(SavedStat(raw, k)))
    ensures raw.encounters.Array? ==> g.encounters == raw.encounters.items
    ensures raw.player.Some? && raw.player.value.provisions.Num? ==>
      g.player.provisions == Clamp(raw.player.value.provisions.n, 0, MaxProvisions)
    ensures raw.player.Some? && raw.player.value.gold.Num? ==>
      g.player.gold == Clamp(raw.player.value.gold.n, 0, MaxGold)
    ensures g.player.name == if raw.player.Some? && raw.player.value.name.Str? then raw.player.value.name.s else ""
    ensures raw.encounters.NotArray? ==> g.encounters == []
    ensures raw.logs.None? ==> g.luckLog == [] && g.combatLog == [] && g.diceLog == []
    ensures raw.logs.Some? && raw.logs.value.luck.NotArray? ==> g.luckLog == []
    ensures raw.logs.Some? && raw.logs.value.combat.NotArray? ==> g.combatLog == []
    ensures raw.logs.Some? && raw.logs.value.dice.NotArray? ==> g.diceLog == []
    ensures raw.logs.Some? && raw.logs.value.luck.Array? ==> g.luckLog == raw.logs.value.luck.items
    ensures raw.logs.Some? && raw.logs.value.combat.Array? ==> g.combatLog == raw.logs.value.combat.items
    ensures raw.logs.Some? && raw.logs.value.dice.Array? ==> g.diceLog == raw.logs.value.dice.items
    ensures g.player.potion.choice != NoPotion ==> SavedChoice(raw) == Str(ChoiceName(g.player.potion.choice))
    ensures SavedChoice(raw) in {Str("skill"), Str("strength"), Str("fortune")} ==>
      Str(ChoiceName(g.player.potion.choice)) == SavedChoice(raw)
    ensures g.player.potion.used <==>
      raw.player.Some? && raw.player.value.potion.Some? && Truthy(raw.player.value.potion.value.used)
    ensures g.activeId == raw.activeId
  {
    CapAll(Merge(raw))
  }

  // ---- Serialising (what JSON.stringify keeps) ----

  function NumOrNull(o: Option<int>): Scalar
  {
    if o.Some? then Num(o.value) else Null
  }

  function SerializeStat(s: Stat): RawStat
  {
    RawStat(NumOrNull(s.initial), NumOrNull(s.current))
  }

  function SerializePlayer(p: Sheet): RawPlayer
  {
    RawPlayer(Str(p.name),
              Some(SerializeStat(p.skill)), Some(SerializeStat(p.stamina)), Some(SerializeStat(p.luck)),
              Num(p.provisions), Num(p.gold),
              Array(p.equipment), Array(p.treasure),
              Some(RawPotion(Str(ChoiceName(p.potion.choice)), Bool(p.potion.used))))
  }

  /** The saved document of a state. */
  function Serialize(g: Game): (raw: RawState)
    ensures Merge(raw) == g
  {
    RawState(Some(SerializePlayer(g.player)), Array(g.encounters), g.activeId,
             Some(RawLogs(Array(g.luckLog), Array(g.combatLog), Array(g.diceLog))))
  }

  // ---- Properties ----

  /** Loading `{}` gives exactly the default state. */
  lemma SanitizeEmpty()
    ensures Sanitize(Empty) == Default()
  {

  }

  /** Saving then loading a capped state gives the same state back. */
  lemma RoundTrip(g: Game)
    requires Capped(g)
    ensures Sanitize(Serialize(g)) == g
  {

  }

  /** Loading is a repair, not a transformation: loading the save of a loaded state changes
      nothing more. */
  lemma SanitizeStable(raw: RawState)
    ensures Sanitize(Serialize(Sanitize(raw))) == Sanitize(raw)
  {

  }
}
