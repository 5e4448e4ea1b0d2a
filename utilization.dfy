/** The capacity-utilisation figure the page derives from monthly output and
    production capacity. */
module Utilization {
  import opened Wrappers

  /** `Number.parseFloat(s) || 0` for a numeric field: an empty field reads as 0. */
  function NumberOrZero(s: string, parse: string -> real): real {
    if s == "" then 0.0 else parse(s)
  }

  /** The utilisation percentage, defined only when capacity is positive. */
  function DerivedUtilization(output: real, capacity: real): (u: Option<real>)
    ensures u.Some? <==> capacity > 0.0
    ensures u.Some? ==> u.value * capacity == output * 100.0
  {
    if capacity > 0.0 then Some((output / capacity) * 100.0) else None
  }

  /** The percentage lies in [0, 100] exactly when the output lies between
      zero and the capacity. */
  lemma {:induction false} UtilizationWithinCapacity(output: real, capacity: real)
    requires capacity > 0.0
    ensures 0.0 <= DerivedUtilization(output, capacity).value <==> 0.0 <= output
    ensures DerivedUtilization(output, capacity).value <= 100.0 <==> output <= capacity
  {
    var u := DerivedUtilization(output, capacity).value;
    assert u * capacity == output * 100.0;
    if 0.0 <= output {
      assert 0.0 <= u;
    }
    if u <= 100.0 {
      assert u * capacity <= 100.0 * capacity;
    }
    if output <= capacity {
      assert u * capacity <= 100.0 * capacity;
    }
  }

  /** 5000 units against a capacity of 10000 is a utilisation of 50; a zero
      or empty capacity derives nothing. */
  lemma UtilizationExamples(parse: string -> real)
    ensures DerivedUtilization(5000.0, 10000.0) == Some(50.0)
    ensures DerivedUtilization(5000.0, 0.0) == None
    ensures DerivedUtilization(5000.0, NumberOrZero("", parse)) == None
  {
  }
}
