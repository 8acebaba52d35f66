/**
 * The unit converter of menu 17: four quantities, each between a base unit
 * and a unit 1000 times smaller or larger, in either direction. The menu
 * repeats until the user picks category 0.
 */
module Units {

  datatype Unit = Volt | Millivolt | Ohm | Kiloohm | Hertz | Kilohertz | Metre | Millimetre

  /** The outcome of one pass through the menu 17 loop. */
  datatype Step =
    | Leave
    | Converted(from: Unit, to: Unit, value: real, result: real)
    | InvalidDirection
    | InvalidCategory

  /** One request: the category (0 to leave), the direction (1 or 2) and the value. */
  datatype Request = Request(category: int, direction: int, value: real)

  /** The size of each unit in its base unit (volt, ohm, hertz, metre). */
  function Size(u: Unit): real {
    match u
    case Volt => 1.0
    case Millivolt => 0.001
    case Ohm => 1.0
    case Kiloohm => 1000.0
    case Hertz => 1.0
    case Kilohertz => 1000.0
    case Metre => 1.0
    case Millimetre => 0.001
  }

  /** The unit pair of a category: direction 1 converts from the first to the second. */
  function Pair(category: int): (Unit, Unit)
    requires 1 <= category <= 4
  {
    if category == 1 then (Volt, Millivolt)
    else if category == 2 then (Ohm, Kiloohm)
    else if category == 3 then (Hertz, Kilohertz)
    else (Metre, Millimetre)
  }

  /**
   * One pass of the menu 17 loop after its inputs have been read: 0 leaves;
   * V -> mV and m -> mm multiply by 1000, ohm -> kilo-ohm and Hz -> kHz divide
   * by 1000, and direction 2 does the opposite.
   */
  function Convert(category: int, direction: int, value: real): (s: Step)
    ensures s == Leave <==> category == 0
    ensures s == InvalidCategory <==> category != 0 && !(1 <= category <= 4)
    ensures s == InvalidDirection <==> 1 <= category <= 4 && direction != 1 && direction != 2
    ensures s.Converted? ==> s.value == value
    ensures s.Converted? ==> s.result * Size(s.to) == s.value * Size(s.from)
    ensures s.Converted? && direction == 1 ==> (s.from, s.to) == Pair(category)
    ensures s.Converted? && direction == 2 ==> (s.to, s.from) == Pair(category)
  {
    if category == 0 then Leave
    else if category < 1 || category > 4 then InvalidCategory
    else if direction != 1 && direction != 2 then InvalidDirection
    else if category == 1 then
      if direction == 1 then Converted(Volt, Millivolt, value, value * 1000.0)
      else Converted(Millivolt, Volt, value, value / 1000.0)
    else if category == 2 then
      if direction == 1 then Converted(Ohm, Kiloohm, value, value / 1000.0)
      else Converted(Kiloohm, Ohm, value, value * 1000.0)
    else if category == 3 then
      if direction == 1 then Converted(Hertz, Kilohertz, value, value / 1000.0)
      else Converted(Kilohertz, Hertz, value, value * 1000.0)
    else
      if direction == 1 then Converted(Metre, Millimetre, value, value * 1000.0)
      else Converted(Millimetre, Metre, value, value / 1000.0)
  }

  /** Converting there and back returns the value entered, in every category and direction. */
  lemma RoundTrip(category: int, direction: int, value: real)
    requires 1 <= category <= 4 && (direction == 1 || direction == 2)
    ensures Convert(category, direction, value).Converted?
    ensures Convert(category, 3 - direction, Convert(category, direction, value).result).result == value
  {
    var there := Convert(category, direction, value);
    var back := Convert(category, 3 - direction, there.result);
    assert back.from == there.to && back.to == there.from;
    assert back.result * Size(there.from) == value * Size(there.from);
    assert Size(there.from) == 1.0 || Size(there.from) == 0.001 || Size(there.from) == 1000.0;
  }

  /**
   * The menu 17 loop: serves the requests in order and stops at the first one
   * whose category is 0.
   */
  method RunConverter(requests: seq<Request>) returns (steps: seq<Step>)
    ensures |steps| <= |requests|
    ensures forall i :: 0 <= i < |steps| ==>
      requests[i].category != 0
      && steps[i] == Convert(requests[i].category, requests[i].direction, requests[i].value)
    ensures |steps| < |requests| ==> requests[|steps|].category == 0
  {
    steps := [];
    var i := 0;
    while i < |requests|
      invariant i == |steps| <= |requests|
      invariant forall k :: 0 <= k < i ==>
        requests[k].category != 0
        && steps[k] == Convert(requests[k].category, requests[k].direction, requests[k].value)
    {
      var req := requests[i];
      if req.category == 0 {
        break;
      }
      steps := steps + [Convert(req.category, req.direction, req.value)];
      i := i + 1;
    }
  }
}
