/** `std::size_t`, the unsigned machine word that counts things. */
module SizeT {

  const SIZE_MAX: nat := 0xFFFF_FFFF_FFFF_FFFF

  function Decrement(x: nat): nat {
    if x == 0 then SIZE_MAX else x - 1
  }

  function Add(x: nat, y: nat): (r: nat)
    requires x <= SIZE_MAX && y <= SIZE_MAX
    ensures r <= SIZE_MAX
  {
    if x + y > SIZE_MAX then x + y - SIZE_MAX - 1 else x + y
  }
}
