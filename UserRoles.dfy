/** The role codes of `USER_ROLES` (defined in `src/types`, which is not part
    of this model); the values are the literals the user-administration
    screen compares against. */
module UserRoles {
  const Admin := "admin"
  const Juez := "juez"
  const Secretario := "secretario"
  const Operador := "operador"

  const AllRoles: set<string> := {Admin, Juez, Secretario, Operador}
}
