/**
 * The colour initialisers of OpenCollab/Sources/Util/UIExtensions.swift.
 *
 * A `UIColor` is its four `CGFloat` components. `rgb` is a Swift `Int`, a
 * 64-bit two's-complement word: bit `i` of it is `(rgb / 2^i) % 2` with
 * Dafny's flooring `/` and non-negative `%`, which is also how the bits of
 * a negative word read. `rgb >> k` is the arithmetic shift, floor division
 * by 2^k, and `& 0xFF` keeps the low eight bits, defined here bit by bit.
 * Both are exact for every 64-bit value, so the model needs no range
 * precondition.
 */
module UIExtensions {
  import opened Extensions

  datatype Color = Color(red: real, green: real, blue: real, alpha: real)

  function Pow2(n: nat): (p: int)
    ensures p >= 1
  {
    if n == 0 then 1 else 2 * Pow2(n - 1)
  }

  /** Bit `i` of the two's-complement word `x`. */
  function Bit(x: int, i: nat): (b: int)
    ensures b == 0 || b == 1
  {
    (x / Pow2(i)) % 2
  }

  /** `x >> k` on a signed word: the arithmetic shift. */
  function ShiftRight(x: int, k: nat): int
  {
    x / Pow2(k)
  }

  /** `x & (2^n - 1)`: bits 0 to `n - 1` of `x`, each at its own weight, and no other bit. */
  function LowBits(x: int, n: nat): int
  {
    if n == 0 then 0 else LowBits(x, n - 1) + Bit(x, n - 1) * Pow2(n - 1)
  }

  /** `x & 0xFF`. */
  function LowByte(x: int): int
  {
    LowBits(x, 8)
  }

  lemma Pow2Add(a: nat, b: nat)
    ensures Pow2(a + b) == Pow2(a) * Pow2(b)
    decreases a
  {
    if a > 0 {
      Pow2Add(a - 1, b);
    }
  }

  /** Adding whole multiples of `d` moves the quotient by that many and keeps the remainder. */
  lemma AddMultiple(k: int, m: int, d: int)
    requires d > 0
    ensures (k * d + m) / d == k + m / d && (k * d + m) % d == m % d
  {
    assert m == (m / d) * d + m % d;
    assert (k + m / d) * d == k * d + (m / d) * d;
    ModUnique(k * d + m, d, k + m / d, m % d);
  }

  lemma MulMonotone(x: int, y: int, a: int)
    requires x <= y && a >= 0
    ensures x * a <= y * a
  {
    assert y * a - x * a == (y - x) * a;
  }

  /** Dividing by `a` and then by `b` is dividing by `a * b`. */
  lemma DivDiv(x: int, a: int, b: int)
    requires a > 0 && b > 0
    ensures x / a / b == x / (a * b)
  {
    var q1, r1 := x / a, x % a;
    var q2, r2 := q1 / b, q1 % b;
    assert x == q1 * a + r1;
    assert q1 == q2 * b + r2;
    assert q1 * a == q2 * (a * b) + r2 * a by {
      assert (q2 * b + r2) * a == (q2 * b) * a + r2 * a;
      assert (q2 * b) * a == q2 * (a * b);
    }
    MulMonotone(r2, b - 1, a);
    assert (b - 1) * a == a * b - a;
    ModUnique(x, a * b, q2, r2 * a + r1);
  }

  /** Bit `i` of `x >> k` is bit `i + k` of `x`. */
  lemma ShiftMovesBits(x: int, k: nat, i: nat)
    ensures Bit(ShiftRight(x, k), i) == Bit(x, i + k)
  {
    Pow2Add(k, i);
    assert Pow2(i + k) == Pow2(k) * Pow2(i);
    DivDiv(x, Pow2(k), Pow2(i));
  }

  /** Dividing by `p` part of the way to `p * rest`: the whole multiples of `p * rest` come out as multiples of `rest`. */
  lemma DivOfSplit(y: int, p: int, rest: int)
    requires p > 0 && rest > 0
    ensures y / p == (y / (p * rest)) * rest + (y % (p * rest)) / p
  {
    var q := y / (p * rest);
    var m := y % (p * rest);
    assert y == (q * rest) * p + m by {
      assert y == q * (p * rest) + m;
      assert q * (p * rest) == (q * rest) * p;
    }
    AddMultiple(q * rest, m, p);
  }

  /** The digit of weight `p` survives a remainder modulo an even multiple of `p`. */
  lemma DigitOfLowPart(y: int, p: int, half: int)
    requires p > 0 && half > 0
    ensures ((y % (p * (2 * half))) / p) % 2 == (y / p) % 2
  {
    DivOfSplit(y, p, 2 * half);
    var k := y / (p * (2 * half));
    var t := (y % (p * (2 * half))) / p;
    assert k * (2 * half) == (k * half) * 2;
    AddMultiple(k * half, t, 2);
  }

  /** Below bit `n`, the remainder modulo 2^n has the bits of the word itself. */
  lemma BitOfLowPart(y: int, n: nat, i: nat)
    requires i < n
    ensures Bit(y % Pow2(n), i) == Bit(y, i)
  {
    var p := Pow2(i);
    var half := Pow2(n - i - 1);
    Pow2Add(i, n - i);
    assert Pow2(n - i) == 2 * half;
    DigitOfLowPart(y, p, half);
  }

  /** Taking the low `n` bits is the remainder modulo 2^n, never negative, even for a negative word. */
  lemma {:induction false} LowBitsIsMod(x: int, n: nat)
    ensures LowBits(x, n) == x % Pow2(n)
    decreases n
  {
    if n > 0 {
      LowBitsIsMod(x, n - 1);
      var p := Pow2(n - 1);
      var q := x / p;
      assert x == q * p + x % p;
      var q2, b := q / 2, q % 2;
      assert q == q2 * 2 + b;
      assert x == q2 * (2 * p) + (b * p + x % p) by {
        assert q * p == q2 * 2 * p + b * p;
      }
      ModUnique(x, 2 * p, q2, b * p + x % p);
    }
  }

  /** The channel at bit `shift`: `(rgb >> shift) & 0xFF`. */
  function Channel(rgb: int, shift: nat): (c: int)
    ensures 0 <= c <= 255
    ensures c == (rgb / Pow2(shift)) % 256
  {
    LowBitsIsMod(ShiftRight(rgb, shift), 8);
    LowByte(ShiftRight(rgb, shift))
  }

  /** Each bit of a channel is the corresponding bit of `rgb`: red is bits 16 to 23, green 8 to 15 and blue 0 to 7. */
  lemma ChannelBits(rgb: int, shift: nat, i: nat)
    requires i < 8
    ensures Bit(Channel(rgb, shift), i) == Bit(rgb, shift + i)
  {
    var y := ShiftRight(rgb, shift);
    assert Pow2(8) == 256;
    assert Channel(rgb, shift) == y % Pow2(8);
    BitOfLowPart(y, 8, i);
    ShiftMovesBits(rgb, shift, i);
  }

  function Red(rgb: int): int { Channel(rgb, 16) }
  function Green(rgb: int): int { Channel(rgb, 8) }
  function Blue(rgb: int): int { Channel(rgb, 0) }

  /** `UIColor(red:green:blue:a:)` on integer components: each divided by 255, and alpha 1 unless given. */
  function FromComponents(red: int, green: int, blue: int, a: real := 1.0): (c: Color)
    ensures c.red * 255.0 == red as real && c.green * 255.0 == green as real && c.blue * 255.0 == blue as real
    ensures c.alpha == a
  {
    Color(red as real / 255.0, green as real / 255.0, blue as real / 255.0, a)
  }

  /** `UIColor(rgb:a:)`. */
  function FromRGB(rgb: int, a: real := 1.0): (c: Color)
    ensures 0.0 <= c.red <= 1.0 && 0.0 <= c.green <= 1.0 && 0.0 <= c.blue <= 1.0
    ensures c.alpha == a
  {
    FromComponents(Red(rgb), Green(rgb), Blue(rgb), a)
  }

  /** Leaving out the alpha gives an opaque colour. */
  lemma AlphaDefaultsToOne(red: int, green: int, blue: int, rgb: int)
    ensures FromComponents(red, green, blue).alpha == 1.0
    ensures FromRGB(rgb).alpha == 1.0
  {
  }

  /** The three channels put back at their weights give the low 24 bits of `rgb`, for every word. */
  lemma ChannelsRecompose(rgb: int)
    ensures Red(rgb) * 65536 + Green(rgb) * 256 + Blue(rgb) == rgb % 16777216
  {
    assert Pow2(0) == 1 && Pow2(8) == 256 && Pow2(16) == 65536;
    var b := rgb % 256;
    var q8 := rgb / 256;
    var g := q8 % 256;
    var q16 := q8 / 256;
    var r := q16 % 256;
    DivDiv(rgb, 256, 256);
    assert rgb / 65536 == q16;
    assert Red(rgb) == r && Green(rgb) == g && Blue(rgb) == b;
    assert rgb == q8 * 256 + b;
    assert q8 == q16 * 256 + g;
    assert q16 == (q16 / 256) * 256 + r;
    assert rgb == (q16 / 256) * 16777216 + (r * 65536 + g * 256 + b);
    ModUnique(rgb, 16777216, q16 / 256, r * 65536 + g * 256 + b);
  }

  /** Channels in 0...255 packed into a word decode to themselves, so both initialisers give the same colour. */
  lemma PackedChannelsRoundTrip(red: int, green: int, blue: int, a: real)
    requires 0 <= red <= 255 && 0 <= green <= 255 && 0 <= blue <= 255
    ensures var rgb := red * 65536 + green * 256 + blue;
            Red(rgb) == red && Green(rgb) == green && Blue(rgb) == blue
            && FromRGB(rgb, a) == FromComponents(red, green, blue, a)
  {
    var rgb := red * 65536 + green * 256 + blue;
    assert Pow2(0) == 1 && Pow2(8) == 256 && Pow2(16) == 65536;
    ModUnique(rgb, 256, red * 256 + green, blue);
    ModUnique(rgb, 65536, red, green * 256 + blue);
    ModUnique(red * 256 + green, 256, red, green);
    ModUnique(red, 256, 0, red);
  }
}
