/**
 * The PID tuner on the controller screen (src/test.cpp).
 *
 * The tuner lists the selected gain set, three rows at a time, marks the
 * selected row, and makes the digit the next step would change flicker.
 * Up and Down move the selection, Right and Left queue a step of one unit
 * of the current scale, Y and A make the step ten times finer or coarser.
 * The shared `data` record becomes the fields of one object whose methods
 * are the button handlers and the display task's update of the selected
 * row; the value's decimal text is an input.
 */
module PidTuner {

  // ---------------------------------------------------------- get_power

  function Pow10(k: nat): int {
    if k == 0 then 1 else 10 * Pow10(k - 1)
  }

  lemma {:induction false} Pow10Positive(k: nat)
    ensures Pow10(k) >= 1
  {
    if k > 0 {
      Pow10Positive(k - 1);
    }
  }

  /** One step of get_power: a tenth of m has a smaller floor, and m / 10 times 10 power is m times power. */
  lemma TenthShrinks(m: real, power: int)
    requires m >= 10.0
    ensures (m / 10.0).Floor < m.Floor && m / 10.0 >= 1.0
    ensures (m / 10.0) * (power * 10) as real == m * power as real
  {
    assert m / 10.0 <= m - 9.0;
  }

  /**
   * get_power: the largest power of ten not above n, by dividing n by ten
   * while it is at least ten; 1 for n at most zero and for n below ten.
   * `k` is the exponent found.
   */
  method GetPower(n: real) returns (power: int, ghost k: nat)
    ensures power == Pow10(k)
    ensures n < 10.0 ==> power == 1
    ensures n >= 1.0 ==> power as real <= n < 10.0 * power as real
  {
    if n <= 0.0 {
      return 1, 0;
    }
    var m := n;
    power, k := 1, 0;
    while m >= 10.0
      invariant power == Pow10(k) && (power == 1 || power >= 10)
      invariant m > 0.0 && m * power as real == n
      invariant n >= 1.0 ==> m >= 1.0
      invariant power > 1 ==> m >= 1.0
      decreases m.Floor
    {
      TenthShrinks(m, power);
      m := m / 10.0;
      power, k := power * 10, k + 1;
    }
    PowerFound(n, m, power);
  }

  /** When the loop of get_power stops, power is the power of ten the contract names. */
  lemma PowerFound(n: real, m: real, power: int)
    requires (power == 1 || power >= 10) && 0.0 < m < 10.0 && m * power as real == n
    requires n >= 1.0 ==> m >= 1.0
    requires power > 1 ==> m >= 1.0
    ensures n < 10.0 ==> power == 1
    ensures n >= 1.0 ==> power as real <= n < 10.0 * power as real
  {
    if power > 1 {
      assert n >= power as real by {
        assert m * power as real >= 1.0 * power as real;
      }
    }
    if n >= 1.0 {
      assert m * power as real < 10.0 * power as real;
    }
  }

  // --------------------------------------------------- get_flicker_index

  /** std::string::find('.') cast to int: the first dot's index, or -1 when there is none. */
  function FindDot(s: string): (r: int)
    ensures r == -1 <==> '.' !in s
    ensures r >= 0 ==> r < |s| && s[r] == '.' && '.' !in s[..r]
  {
    if |s| == 0 then -1
    else if s[0] == '.' then 0
    else
      var r := FindDot(s[1..]);
      assert s[1..][..if r >= 0 then r else 0] == s[1..if r >= 0 then r + 1 else 1];
      if r < 0 then -1 else r + 1
  }

  /** The decimal exponent of the digit at index i: units left of the dot (or at the end), tenths right of it. */
  function DigitExponent(value: string, i: int): int {
    var dot := FindDot(value);
    if dot == -1 then |value| - 1 - i
    else if i < dot then dot - 1 - i
    else dot - i
  }

  /**
   * get_flicker_index: where the digit a step of 10^-place changes sits in
   * the value's text (place is log10 of the step scale). In a text with a
   * dot the index marks the digit of exponent -place, the one a step of
   * 1 / scale with scale = 10^place changes, and never the dot itself. In a
   * text without a dot the index counts the other way and marks the digit
   * of exponent +place.
   */
  function FlickerIndex(value: string, place: int): (idx: int)
    ensures FindDot(value) >= 0 ==> DigitExponent(value, idx) == -place && idx != FindDot(value)
    ensures FindDot(value) == -1 ==> DigitExponent(value, idx) == place
  {
    var dot := FindDot(value);
    if dot == -1 then |value| - 1 - place
    else if place > 0 then dot + place
    else dot - 1 + place
  }

  function IsDigit(c: char): bool {
    '0' <= c <= '9'
  }

  /**
   * The flicker overwrite: a digit at an index inside the text is replaced,
   * '1' by '-' and any other digit by '_'; anything else leaves the text as
   * it is.
   */
  function FlickerOverwrite(value: string, idx: int): (r: string)
    ensures |r| == |value|
    ensures forall k :: 0 <= k < |value| && k != idx ==> r[k] == value[k]
    ensures r != value <==> 0 <= idx < |value| && IsDigit(value[idx])
    ensures 0 <= idx < |value| && IsDigit(value[idx]) ==> r[idx] == (if value[idx] == '1' then '-' else '_')
  {
    if 0 <= idx < |value| && IsDigit(value[idx]) then
      value[idx := if value[idx] == '1' then '-' else '_']
    else value
  }

  // ------------------------------------------------------------- tuner

  /** The rows shown: three, ending after the selected row but never before the third. */
  function Window(index: int): (rows: (int, int))
    ensures rows.1 - rows.0 == 3
    ensures 0 <= index ==> 0 <= rows.0 <= index < rows.1
    ensures index >= 2 ==> rows.1 == index + 1
  {
    var max := if 3 >= index + 1 then 3 else index + 1;
    (max - 3, max)
  }

  /** Y: ten times finer a step, but never below one unit of the value's largest power of ten, inverted. */
  function ScaleFiner(scale: real, upperSize: real): (r: real)
    requires upperSize > 0.0
    ensures r >= 1.0 / upperSize
    ensures r == scale / 10.0 || r == 1.0 / upperSize
    ensures scale / 10.0 >= 1.0 / upperSize ==> r == scale / 10.0
  {
    var s := scale / 10.0;
    if s < 1.0 / upperSize then 1.0 / upperSize else s
  }

  /** A: ten times coarser a step, but never above 1000. */
  function ScaleCoarser(scale: real): (r: real)
    ensures r <= 1000.0
    ensures r == scale * 10.0 || r == 1000.0
    ensures scale * 10.0 <= 1000.0 ==> r == scale * 10.0
  {
    var s := scale * 10.0;
    if s > 1000.0 then 1000.0 else s
  }

  class Tuner {
    var names: seq<string>
    var values: seq<real>
    var index: int
    var rowMin: int
    var rowMax: int
    var modifierScale: real
    var modifier: real
    var needsUpdate: bool
    var varUpperSize: real

    /** The selection is a row of a non-empty list and the step scale is positive and at most 1000. */
    ghost predicate Valid()
      reads this
    {
      && |names| == |values| >= 1
      && 0 <= index < |values|
      && 0.0 < modifierScale <= 1000.0
      && varUpperSize >= 1.0
    }

    constructor (names: seq<string>, values: seq<real>)
      requires |names| == |values| >= 1
      ensures this.names == names && this.values == values && index == 0 && modifierScale == 1.0
      ensures !needsUpdate && Valid()
    {
      this.names, this.values := names, values;
      index, rowMin, rowMax := 0, 0, 3;
      modifierScale, modifier, needsUpdate, varUpperSize := 1.0, 0.0, false, 1.0;
    }

    /** The window the display task computes at the top of each pass. */
    method UpdateWindow()
      modifies this`rowMin, this`rowMax
      ensures (rowMin, rowMax) == Window(index)
    {
      rowMax := if 3 >= index + 1 then 3 else index + 1;
      rowMin := rowMax - 3;
    }

    /** Up: select the row above, if any, and reset the step to one unit. */
    method Up()
      requires Valid()
      modifies this`index, this`modifierScale
      ensures index == if old(index) > 0 then old(index) - 1 else old(index)
      ensures modifierScale == 1.0 && Valid()
    {
      if index > 0 {
        index := index - 1;
      }
      modifierScale := 1.0;
    }

    /** Down: select the row below, if any, and reset the step to one unit. */
    method Down()
      requires Valid()
      modifies this`index, this`modifierScale
      ensures index == if old(index) < |values| - 1 then old(index) + 1 else old(index)
      ensures modifierScale == 1.0 && Valid()
    {
      if index < |values| - 1 {
        index := index + 1;
      }
      modifierScale := 1.0;
    }

    /** Right: queue a step of one unit of the scale upwards. */
    method Right()
      requires Valid()
      modifies this`modifier, this`needsUpdate
      ensures modifier == 1.0 / modifierScale && modifier > 0.0 && needsUpdate
    {
      modifier := 1.0 / modifierScale;
      needsUpdate := true;
    }

    /** Left: queue a step of one unit of the scale downwards. */
    method Left()
      requires Valid()
      modifies this`modifier, this`needsUpdate
      ensures modifier == -1.0 / modifierScale && modifier < 0.0 && needsUpdate
    {
      modifier := -1.0 / modifierScale;
      needsUpdate := true;
    }

    /** Y: a ten times finer step. */
    method Finer()
      requires Valid()
      modifies this`modifierScale
      ensures modifierScale == ScaleFiner(old(modifierScale), varUpperSize) && Valid()
    {
      modifierScale := modifierScale / 10.0;
      if modifierScale < 1.0 / varUpperSize {
        modifierScale := 1.0 / varUpperSize;
      }
    }

    /** A: a ten times coarser step. */
    method Coarser()
      requires Valid()
      modifies this`modifierScale
      ensures modifierScale == ScaleCoarser(old(modifierScale)) && Valid()
    {
      modifierScale := modifierScale * 10.0;
      if modifierScale > 1000.0 {
        modifierScale := 1000.0;
      }
    }

    /**
     * The display task's pass over the selected row: record the value's
     * largest power of ten, and apply a queued step to the value once.
     */
    method RefreshSelected()
      requires Valid()
      modifies this`varUpperSize, this`values, this`needsUpdate
      ensures var v := old(values)[index];
              && varUpperSize >= 1.0
              && (v < 10.0 ==> varUpperSize == 1.0)
              && (v >= 1.0 ==> varUpperSize <= v < 10.0 * varUpperSize)
      ensures values == if old(needsUpdate) then old(values)[index := old(values)[index] + modifier] else old(values)
      ensures !needsUpdate && Valid()
    {
      var power, k := GetPower(values[index]);
      Pow10Positive(k);
      varUpperSize := power as real;
      if needsUpdate {
        values := values[index := values[index] + modifier];
        needsUpdate := false;
      }
    }
  }
}
