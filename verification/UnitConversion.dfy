/** Conversion of a line's quantity to its item's base unit (`apps/api/src/inventory/item.service.ts`). */
module UnitConversion {
  import opened Money
  import opened Optional

  /** Why a stock transaction fails, rolling everything back. */
  datatype Failure = StateConflict | ItemNotFound | NoConversion | InsufficientStock

  /** Each item's base unit, and the registered factors to it, in millionths. */
  datatype Units = Units(base: map<nat, nat>, factors: map<(nat, nat), int>)

  /** A line as entered; no unit means the base unit. */
  datatype DocLine = DocLine(item: nat, unit: Option<nat>, qty: int)

  function ToBase(units: Units, line: DocLine): Result<int, Failure> {
    if line.item !in units.base then Err(ItemNotFound)
    else if line.unit.None? || line.unit.value == units.base[line.item] then Ok(line.qty)
    else if (line.item, line.unit.value) !in units.factors then Err(NoConversion)
    else Ok(Round((line.qty * units.factors[(line.item, line.unit.value)]) as real / SCALE6))
  }

  /**
   A line of the base unit, or of none, keeps its quantity; any other unit's registered factor multiplies it,
   so that one whole unit converts to the factor itself. It fails exactly for an unknown item or, beyond the
   base unit, an unregistered factor.
   */
  lemma {:induction false} ToBaseMeans(units: Units, line: DocLine)
    ensures var base := line.item in units.base && (line.unit == None || line.unit == Some(units.base[line.item]));
            match ToBase(units, line)
            case Ok(qty) =>
              && line.item in units.base
              && (base ==> qty == line.qty)
              && (!base ==>
                    && (line.item, line.unit.value) in units.factors
                    && var factor := units.factors[(line.item, line.unit.value)];
                       Nearest(line.qty * factor, 1000000, qty) && (line.qty == 1000000 ==> qty == factor))
            case Err(e) =>
              && (e == ItemNotFound <==> line.item !in units.base)
              && (e == NoConversion <==>
                    line.item in units.base && !base && (line.item, line.unit.value) !in units.factors)
              && (e == ItemNotFound || e == NoConversion)
  {
    if line.unit.Some? && (line.item, line.unit.value) in units.factors {
      var factor := units.factors[(line.item, line.unit.value)];
      RoundIsNearest(line.qty * factor, 1000000);
      if line.qty == 1000000 {
        NearestIsUnique(1000000 * factor, 1000000, factor, Round((line.qty * factor) as real / SCALE6));
      }
      hide Nearest, Round;
    }
  }

  /** All quantities in base units, or the failure of the first line that has none. */
  function AllToBase(units: Units, lines: seq<DocLine>): (converted: Result<seq<int>, Failure>)
    ensures converted.Ok? ==> |converted.value| == |lines|
    ensures converted.Ok? ==> forall i | 0 <= i < |lines| :: ToBase(units, lines[i]) == Ok(converted.value[i])
    ensures converted.Err? ==>
              exists i | 0 <= i < |lines| ::
                ToBase(units, lines[i]) == Err(converted.error) && forall j | 0 <= j < i :: ToBase(units, lines[j]).Ok?
    ensures converted.Ok? <==> forall line | line in lines :: ToBase(units, line).Ok?
  {
    if lines == [] then Ok([])
    else
      assert lines == [lines[0]] + lines[1..];
      match (ToBase(units, lines[0]), AllToBase(units, lines[1..]))
      case (Err(e), _) => Err(e)
      case (Ok(_), Err(e)) => Err(e)
      case (Ok(qty), Ok(rest)) => Ok([qty] + rest)
  }
}
