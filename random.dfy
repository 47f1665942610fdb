/**
 * The bot's uses of `Math.random()`: picking a decorative emoji and choosing
 * the pause before the next broadcast. A draw is taken as the exact fraction
 * `num / den` in [0, 1); floating-point rounding is not modelled.
 */
module Random {
  import opened Arith

  /** One value of `Math.random()`, as the fraction `num / den`, `0 <= num < den`. */
  datatype Fraction = Fraction(num: nat, den: nat)
  type Draw = f: Fraction | f.num < f.den witness Fraction(0, 1)

  /** `Math.floor(r * n)`: the floor of `n * num / den`. */
  function Scale(r: Draw, n: nat): (k: nat)
    ensures k * r.den <= r.num * n < (k + 1) * r.den
    ensures n > 0 ==> k < n
  {
    var k := r.num * n / r.den;
    MulMono(n, k, r.den);
    MulStrict(r.num, r.den, n);
    k
  }

  /** Every index below `n` is the result of some draw. */
  lemma ScaleOnto(n: nat, k: nat)
    requires k < n
    ensures Scale(Fraction(k, n), n) == k
  {}

  /** The emoji pool of the bot, in source order. */
  const Emojis: seq<string> := ["{:chuu11:}", "{:chuuChuu13:}", "{:chuu10:}"]

  /** `randomEmoji()`: the pool entry at `Math.floor(r * emojis.length)`. */
  function RandomEmoji(r: Draw): (e: string)
    ensures e in Emojis
  {
    Emojis[EmojiIndex(r)]
  }

  /** The index `randomEmoji()` reads, always inside the three-entry pool. */
  function EmojiIndex(r: Draw): (i: nat)
    ensures 0 <= i < |Emojis| == 3
  {
    Scale(r, |Emojis|)
  }

  /** Each emoji of the pool can be drawn. */
  lemma EveryEmojiDrawable(e: string)
    requires e in Emojis
    ensures exists r: Draw :: RandomEmoji(r) == e
  {
    var i :| 0 <= i < |Emojis| && Emojis[i] == e;
    ScaleOnto(|Emojis|, i);
    assert RandomEmoji(Fraction(i, |Emojis|)) == e;
  }

  /** The lower end and the width of the broadcast pause as the expression writes them. */
  const BroadcastBase: nat := 100000
  const BroadcastSpan: nat := 250000 - 150000 + 1

  /**
   * `autoMessageLoop`'s pause in milliseconds:
   * `Math.floor(Math.random() * (250000 - 150000 + 1)) + 100000`,
   * so between 100 and 200 seconds.
   */
  function BroadcastDelay(r: Draw): (ms: nat)
    ensures 100000 <= ms <= 200000
  {
    Scale(r, BroadcastSpan) + BroadcastBase
  }

  /** The bounds are tight: every pause from 100000 to 200000 ms can occur. */
  lemma BroadcastDelayOnto(ms: nat)
    requires 100000 <= ms <= 200000
    ensures exists r: Draw :: BroadcastDelay(r) == ms
  {
    ScaleOnto(BroadcastSpan, ms - BroadcastBase);
    assert BroadcastDelay(Fraction(ms - BroadcastBase, BroadcastSpan)) == ms;
  }
}
