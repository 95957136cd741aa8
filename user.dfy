/** The `User` record of user.py and its one-line rendering. */
module Users {
  import opened Roles

  datatype User = User(chatId: int, name: string, role: Role)

  function MaxNat(a: nat, b: nat): (m: nat) {
    if a < b then b else a
  }

  /** Python's `'{:w}'.format(s)` for a string: left-aligned, padded with
      spaces to at least `width`, never truncated. */
  function PadRight(s: string, width: nat): (r: string)
    ensures |r| == MaxNat(|s|, width)
    ensures r[..|s|] == s
    ensures forall i :: |s| <= i < |r| ==> r[i] == ' '
  {
    if |s| >= width then s else s + seq(width - |s|, _ => ' ')
  }

  const NameWidth: nat := 14
  const RoleWidth: nat := 6

  /** `User.__repr__`: `'{:14} [ {:6s} ]'.format(name, role.name.lower())`. */
  function Repr(u: User): (r: string)
    ensures var w := MaxNat(|u.name|, NameWidth);
      && |r| == w + 11
      && r[..|u.name|] == u.name
      && (forall i :: |u.name| <= i < w ==> r[i] == ' ')
      && r[w..w + 3] == " [ "
      && r[w + 3..w + 3 + |LowerName(u.role)|] == LowerName(u.role)
      && (forall i :: w + 3 + |LowerName(u.role)| <= i < w + 9 ==> r[i] == ' ')
      && r[w + 9..] == " ]"
  {
    PadRight(u.name, NameWidth) + " [ " + PadRight(LowerName(u.role), RoleWidth) + " ]"
  }

  /** The example at the bottom of user.py. */
  lemma ReprExample()
    ensures Repr(User(123, "username", Admin)) == "username       [ admin  ]"
  {
    assert PadRight("username", NameWidth) == "username      ";
    assert PadRight("admin", RoleWidth) == "admin ";
  }
}
