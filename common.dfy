/** Small value types shared by every module: Rust's `Option` and `std::cmp::Ordering`. */
module Common {

  datatype Option<+T> = None | Some(value: T)

  datatype Ordering = Less | Equal | Greater

  /** `x.cmp(&y)` on unsigned integers. */
  function Compare(x: int, y: int): (o: Ordering)
    ensures o == Less <==> x < y
    ensures o == Equal <==> x == y
    ensures o == Greater <==> x > y
  {
    if x < y then Less else if x == y then Equal else Greater
  }
}
