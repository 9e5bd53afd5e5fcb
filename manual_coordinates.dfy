/**
 * Reading four comma-separated numbers typed into a prompt:
 * `input.split(",").map(Number)`, accepted only when there are exactly four
 * fields and none of them converts to NaN. The text-to-number conversion
 * (`Number`) is not modelled; callers pass it in.
 */
module ManualCoordinates {
  import opened Wrappers
  import opened Text
  import Geo

  type NumberConversion = string -> Geo.Num

  /** The four numbers, in the order they were typed. */
  datatype Quad = Quad(first: real, second: real, third: real, fourth: real)

  function FourNumbers(input: string, toNumber: NumberConversion): (r: Option<Quad>)
    ensures r.Some? <==>
      |Split(input, ',')| == 4 && forall k :: 0 <= k < 4 ==> toNumber(Split(input, ',')[k]).Real?
    ensures r.Some? ==> r.value == Quad(
      toNumber(Split(input, ',')[0]).value, toNumber(Split(input, ',')[1]).value,
      toNumber(Split(input, ',')[2]).value, toNumber(Split(input, ',')[3]).value)
  {
    var fields := Split(input, ',');
    if |fields| == 4 && toNumber(fields[0]).Real? && toNumber(fields[1]).Real?
       && toNumber(fields[2]).Real? && toNumber(fields[3]).Real?
    then Some(Quad(toNumber(fields[0]).value, toNumber(fields[1]).value,
                   toNumber(fields[2]).value, toNumber(fields[3]).value))
    else None
  }

  /**
   * Four comma-free fields that each convert to a number, joined with
   * commas, are read back as those four numbers in order.
   */
  lemma FourNumbersOfJoin(a: string, b: string, c: string, d: string, toNumber: NumberConversion)
    requires ',' !in a && ',' !in b && ',' !in c && ',' !in d
    requires toNumber(a).Real? && toNumber(b).Real? && toNumber(c).Real? && toNumber(d).Real?
    ensures FourNumbers(Join([a, b, c, d], ','), toNumber) ==
      Some(Quad(toNumber(a).value, toNumber(b).value, toNumber(c).value, toNumber(d).value))
  {
    SplitJoin([a, b, c, d], ',');
  }
}
