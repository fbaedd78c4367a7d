/**
 * Component identifiers of the UI (src/654-Template/654-UI/UI_util.cpp).
 *
 * An identifier packs three decimal fields: two digits of component type,
 * two digits of toggle group and a running counter, as
 * type * 10000 + group * 100 + counter. The decoders use C++ integer
 * division and remainder, which truncate toward zero; they are written out
 * here because Dafny's `/` and `%` are Euclidean.
 */
module UiIds {
  import opened Wrappers

  /** C++ `a / b` for a positive divisor: the quotient truncated toward zero. */
  function TruncDiv(a: int, b: int): (q: int)
    requires b > 0
    ensures a >= 0 ==> 0 <= q * b <= a < q * b + b
    ensures a < 0 ==> q * b - b < a <= q * b <= 0
  {
    if a >= 0 then
      EuclidOfNonNegative(a, b);
      a / b
    else
      EuclidOfNonNegative(-a, b);
      -((-a) / b)
  }

  lemma EuclidOfNonNegative(a: int, b: int)
    requires a >= 0 && b > 0
    ensures a / b >= 0 && (a / b) * b <= a < (a / b) * b + b
  {
    var q, r := a / b, a % b;
    assert a == q * b + r && 0 <= r < b;
  }

  /** C++ `a % b` for a positive divisor: the remainder takes the sign of `a`. */
  function TruncMod(a: int, b: int): (r: int)
    requires b > 0
    ensures a == TruncDiv(a, b) * b + r
    ensures a >= 0 ==> 0 <= r < b
    ensures a < 0 ==> -b < r <= 0
  {
    a - TruncDiv(a, b) * b
  }

  function DecodeComponentType(id: int): int {
    TruncDiv(id, 10000)
  }

  function DecodeToggleGroup(id: int): int {
    TruncDiv(TruncMod(id, 10000), 100)
  }

  function DecodeUniqueId(id: int): int {
    TruncMod(TruncMod(id, 10000), 100)
  }

  /** The packing the decoders undo. */
  function Pack(componentType: int, toggleGroup: int, unique: int): int {
    componentType * 10000 + toggleGroup * 100 + unique
  }

  /**
   * The three decoded fields always put the identifier back together, for
   * negative identifiers too.
   */
  lemma DecodeRecomposes(id: int)
    ensures Pack(DecodeComponentType(id), DecodeToggleGroup(id), DecodeUniqueId(id)) == id
  {
    var low := TruncMod(id, 10000);
    assert id == DecodeComponentType(id) * 10000 + low;
    assert low == DecodeToggleGroup(id) * 100 + DecodeUniqueId(id);
  }

  /**
   * A non-negative identifier decodes to a non-negative type and to group
   * and counter fields of two digits; a negative one to fields that are
   * all at most zero, with two-digit magnitudes.
   */
  lemma DecodeBounds(id: int)
    ensures id >= 0 ==> DecodeComponentType(id) >= 0 && 0 <= DecodeToggleGroup(id) <= 99 && 0 <= DecodeUniqueId(id) <= 99
    ensures id < 0 ==> DecodeComponentType(id) <= 0 && -99 <= DecodeToggleGroup(id) <= 0 && -99 <= DecodeUniqueId(id) <= 0
  {
    var low := TruncMod(id, 10000);
    assert id >= 0 ==> 0 <= low < 10000;
    assert id < 0 ==> -10000 < low <= 0;
  }

  /** Fields that each fit their digits decode back from the packed identifier. */
  lemma {:induction false} DecodePacked(componentType: int, toggleGroup: int, unique: int)
    requires 0 <= componentType <= 99 && 0 <= toggleGroup <= 99 && 0 <= unique <= 99
    ensures DecodeComponentType(Pack(componentType, toggleGroup, unique)) == componentType
    ensures DecodeToggleGroup(Pack(componentType, toggleGroup, unique)) == toggleGroup
    ensures DecodeUniqueId(Pack(componentType, toggleGroup, unique)) == unique
  {
    var id := Pack(componentType, toggleGroup, unique);
    var low := toggleGroup * 100 + unique;
    assert 0 <= low < 10000;
    assert id / 10000 == componentType && id % 10000 == low;
    assert low / 100 == toggleGroup && low % 100 == unique;
  }

  lemma MulAtLeast(d: int, b: int)
    requires d >= 1 && b > 0
    ensures d * b >= b
  {
    assert d * b == (d - 1) * b + b;
  }

  /** Euclidean quotient and remainder are determined by a == q * b + r with 0 <= r < b. */
  lemma DivModUnique(a: int, b: int, q: int, r: int)
    requires b > 0 && 0 <= r < b && a == q * b + r
    ensures a / b == q && a % b == r
  {
    var q', r' := a / b, a % b;
    assert a == q' * b + r' && 0 <= r' < b;
    var d := q - q';
    assert d * b == r' - r by {
      assert q * b - q' * b == d * b;
    }
    if d >= 1 {
      MulAtLeast(d, b);
    } else if d <= -1 {
      MulAtLeast(-d, b);
    }
    assert d == 0;
  }

  /**
   * The counter is not confined to its two digits: packed after a type and
   * a group, a counter of 100 or more carries its hundreds into the group
   * digits, and the group's own overflow into the type. Only the last two
   * digits of the counter come back from DecodeUniqueId.
   */
  lemma {:induction false} CounterSpillsIntoGroup(componentType: int, toggleGroup: int, unique: nat)
    requires 0 <= componentType <= 99 && 0 <= toggleGroup <= 99
    ensures var id := Pack(componentType, toggleGroup, unique);
            && DecodeUniqueId(id) == unique % 100
            && DecodeToggleGroup(id) == (toggleGroup + unique / 100) % 100
            && DecodeComponentType(id) == componentType + (toggleGroup + unique / 100) / 100
  {
    var id := Pack(componentType, toggleGroup, unique);
    var q, r := unique / 100, unique % 100;
    var m := toggleGroup + q;
    var big, n := m / 100, m % 100;
    var low := n * 100 + r;
    assert 0 <= low < 10000;
    assert id == (componentType + big) * 10000 + low by {
      assert unique == q * 100 + r;
      assert m == big * 100 + n;
    }
    DivModUnique(id, 10000, componentType + big, low);
    DivModUnique(low, 100, n, r);
  }

  /** The file-scope counter behind UI_create_ID. */
  class IdAllocator {
    var counter: nat

    constructor ()
      ensures counter == 0
    {
      counter := 0;
    }

    /**
     * UI_create_ID: fields outside 0..99 abort the program (None here);
     * otherwise the counter is incremented first and packed after the two
     * fields.
     */
    method CreateId(componentType: int, toggleGroup: int) returns (id: Option<int>)
      modifies this
      ensures var valid := 0 <= componentType <= 99 && 0 <= toggleGroup <= 99;
              && (!valid ==> id == None && counter == old(counter))
              && (valid ==> counter == old(counter) + 1 && id == Some(Pack(componentType, toggleGroup, counter)))
              && (valid && counter <= 99 ==>
                    && DecodeComponentType(id.value) == componentType
                    && DecodeToggleGroup(id.value) == toggleGroup
                    && DecodeUniqueId(id.value) == counter)
              && (valid && counter > 99 ==>
                    DecodeToggleGroup(id.value) == (toggleGroup + counter / 100) % 100)
    {
      if componentType < 0 || componentType > 99 || toggleGroup < 0 || toggleGroup > 99 {
        return None;
      }
      counter := counter + 1;
      id := Some(Pack(componentType, toggleGroup, counter));
      CounterSpillsIntoGroup(componentType, toggleGroup, counter);
    }
  }

  datatype DistanceUnits = Inches | Centimeters | Pixels

  function ToPixels(distance: real, units: DistanceUnits): real {
    match units
    case Inches => 96.0 * distance
    case Centimeters => 37.79527559 * distance
    case Pixels => 1.0 * distance
  }

  /**
   * to_pixels is a linear, order-preserving scaling: it carries sums to
   * sums, keeps order and sign, and leaves pixels alone.
   */
  lemma ToPixelsIsScaling(a: real, b: real, units: DistanceUnits)
    ensures ToPixels(a + b, units) == ToPixels(a, units) + ToPixels(b, units)
    ensures a <= b ==> ToPixels(a, units) <= ToPixels(b, units)
    ensures (ToPixels(a, units) < 0.0 <==> a < 0.0) && (ToPixels(a, units) == 0.0 <==> a == 0.0)
    ensures ToPixels(a, Pixels) == a
  {
  }
}
