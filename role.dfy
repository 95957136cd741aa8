/** The privilege scale of role.py: five roles backed by the integers
    0..4 and compared by that value. */
module Roles {

  datatype Role = Open | Sub | Mod | Admin | Owner

  /** The enum value `Role.X.value`, from `OPEN, SUB, MOD, ADMIN, OWNER = range(5)`. */
  function Value(r: Role): (v: nat)
    ensures v < 5
  {
    match r
    case Open => 0
    case Sub => 1
    case Mod => 2
    case Admin => 3
    case Owner => 4
  }

  /** `Role(v)`: the role whose value is v. */
  function FromValue(v: nat): (r: Role)
    requires v < 5
    ensures Value(r) == v
  {
    if v == 0 then Open
    else if v == 1 then Sub
    else if v == 2 then Mod
    else if v == 3 then Admin
    else Owner
  }

  /** Distinct roles have distinct values, and `Role(r.value)` is r again. */
  lemma ValueRoundTrip(r: Role, s: Role)
    ensures FromValue(Value(r)) == r
    ensures Value(r) == Value(s) ==> r == s
  {
  }

  /** The `rank` attribute set in `__init__`: it is the value. */
  function Rank(r: Role): (k: nat)
    ensures k == Value(r)
  {
    Value(r)
  }

  /** `a < b` (`__lt__`). */
  predicate Less(a: Role, b: Role) {
    Value(a) < Value(b)
  }

  /** `a >= b` (`__ge__`). */
  predicate AtLeast(a: Role, b: Role) {
    Value(a) >= Value(b)
  }

  /** The aliases `Role.min` and `Role.max`. */
  const Min: Role := Open
  const Max: Role := Owner

  /** For any two roles exactly one of `a < b` and `a >= b` holds. */
  lemma LessOrAtLeast(a: Role, b: Role)
    ensures Less(a, b) != AtLeast(a, b)
  {
  }

  /** `>=` is a total order on roles. */
  lemma AtLeastIsTotalOrder()
    ensures forall a :: AtLeast(a, a)
    ensures forall a, b :: AtLeast(a, b) && AtLeast(b, a) ==> a == b
    ensures forall a, b, c :: AtLeast(a, b) && AtLeast(b, c) ==> AtLeast(a, c)
    ensures forall a, b :: AtLeast(a, b) || AtLeast(b, a)
  {
  }

  /** Every role lies between `Role.min` and `Role.max`. */
  lemma MinMaxBound(r: Role)
    ensures Min == Open && Max == Owner
    ensures AtLeast(r, Min) && AtLeast(Max, r)
  {
  }

  /** The module's self-check: ADMIN >= MOD. */
  lemma AdminAtLeastMod()
    ensures AtLeast(Admin, Mod) && !Less(Admin, Mod)
  {
  }

  /** `role.name.lower()`. */
  function LowerName(r: Role): (s: string)
    ensures 3 <= |s| <= 5
    ensures forall i :: 0 <= i < |s| ==> 'a' <= s[i] <= 'z'
  {
    match r
    case Open => "open"
    case Sub => "sub"
    case Mod => "mod"
    case Admin => "admin"
    case Owner => "owner"
  }

  /** Distinct roles print under distinct names. */
  lemma LowerNameInjective(a: Role, b: Role)
    ensures LowerName(a) == LowerName(b) ==> a == b
  {
  }
}
