/** The user roles and the user record from types/user.ts. */
module UserTypes {
  import opened Optional

  /** `UserRole`: the four roles a user of the dashboard can have. */
  datatype Role = Admin | Lawyer | Paralegal | Intern {
    /** The string value of the enumeration member. */
    function Name(): (r: string)
      ensures r in ["admin", "lawyer", "paralegal", "intern"]
    {
      match this
      case Admin => "admin"
      case Lawyer => "lawyer"
      case Paralegal => "paralegal"
      case Intern => "intern"
    }
  }

  /** `User`; the optional avatar is `None` when absent. */
  datatype User = User(id: string, name: string, email: string, role: Role, avatar: Option<string>)

  /** Distinct roles have distinct string values. */
  lemma RoleNamesDistinct(a: Role, b: Role)
    ensures a.Name() == b.Name() <==> a == b
  {
  }
}
