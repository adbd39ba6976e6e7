/** Dice rolls. The game draws them at random; the model takes them as inputs. */
module Dice {

  /** The face of one six-sided die. */
  type D6 = x: int | 1 <= x <= 6 witness 1

  /** A 2d6 roll: two independent six-sided dice, used through their sum. */
  datatype TwoDice = TwoDice(first: D6, second: D6) {

    function Total(): (t: int)
      ensures 2 <= t <= 12
      ensures t == 12 ==> first == 6 && second == 6
    {
      first + second
    }
  }
}
