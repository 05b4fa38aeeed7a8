/** plugin/utils/stamped_tu.py: a translation unit with the time it was last
    used. The clock is the `now` argument of every operation that reads it. */
module StampedTus {

  class StampedTu<T> {
    const translationUnit: T
    /** The time of the last use, in seconds. */
    var time: real

    /** `StampedTu(translation_unit)`, stamped with the current time. */
    constructor (translationUnit: T, now: real)
      ensures this.translationUnit == translationUnit && time == now
    {
      this.translationUnit := translationUnit;
      time := now;
    }

    /** `is_older_than(age_in_seconds)`: strictly more than `age` seconds
        have passed since the last use. */
    function IsOlderThan(now: real, age: real): (r: bool)
      reads this
      ensures r <==> time < now - age
    {
      if now - time > age then true else false
    }

    /** `touch()` */
    method Touch(now: real)
      modifies this
      ensures time == now && CreationTime() == now && !IsOlderThan(now, 0.0)
    {
      time := now;
    }

    /** `tu()`: the unit this was made with; using it counts as a use. */
    method Tu(now: real) returns (tu: T)
      modifies this
      ensures tu == translationUnit && CreationTime() == now && !IsOlderThan(now, 0.0)
    {
      time := now;
      return translationUnit;
    }

    /** `creation_time()`: the stamp of the last use, which is the creation
        time only until the first `touch` or `tu`. */
    function CreationTime(): real
      reads this
    {
      time
    }
  }
}
