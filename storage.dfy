/** The employee record of the directory and its validation rules. */
module Storage {
  import opened Wrappers
  import opened GoText

  /** One row of the `employees` table; the wage is a float64 in Go. */
  datatype Employee = Employee(
    id: int,
    firstName: string,
    lastName: string,
    recipient: string,
    wage: real,
    department: string)

  const FirstNameEmpty := "first name cannot be empty"
  const LastNameEmpty := "last name cannot be empty"
  const RecipientEmpty := "recipient cannot be empty"
  const WageNegative := "wage cannot be negative"
  const DepartmentEmpty := "department cannot be empty"

  predicate Blank(s: string)
  {
    TrimSpace(s) == ""
  }

  /** `Employee.Validate`: the first failing guard, in source order, decides
      the message; `None` is Go's nil error. */
  function Validate(e: Employee): (err: Option<string>)
    ensures err == None <==>
      !Blank(e.firstName) && !Blank(e.lastName) && !Blank(e.recipient)
      && e.wage >= 0.0 && !Blank(e.department)
    ensures Blank(e.firstName) ==> err == Some(FirstNameEmpty)
    ensures !Blank(e.firstName) && Blank(e.lastName) ==> err == Some(LastNameEmpty)
    ensures !Blank(e.firstName) && !Blank(e.lastName) && Blank(e.recipient)
      ==> err == Some(RecipientEmpty)
    ensures e.wage < 0.0 ==> err.Some?
    ensures !Blank(e.firstName) && !Blank(e.lastName) && !Blank(e.recipient) && e.wage < 0.0
      ==> err == Some(WageNegative)
    ensures !Blank(e.firstName) && !Blank(e.lastName) && !Blank(e.recipient) && e.wage >= 0.0 && Blank(e.department)
      ==> err == Some(DepartmentEmpty)
  {
    if Blank(e.firstName) then Some(FirstNameEmpty)
    else if Blank(e.lastName) then Some(LastNameEmpty)
    else if Blank(e.recipient) then Some(RecipientEmpty)
    else if e.wage < 0.0 then Some(WageNegative)
    else if Blank(e.department) then Some(DepartmentEmpty)
    else None
  }

  /** A text field is rejected exactly when every character is white space
      (the empty string included), whatever the other fields hold. */
  lemma {:induction false} BlankIsAllSpace(s: string)
    ensures Blank(s) <==> AllSpace(s)
  {
    TrimSpaceEmpty(s);
  }

  /** A record whose four text fields each hold a non-space character and
      whose wage is zero passes: zero is an accepted wage. */
  lemma {:induction false} ZeroWageAccepted(e: Employee, i: nat, j: nat, k: nat, l: nat)
    requires i < |e.firstName| && !IsSpace(e.firstName[i])
    requires j < |e.lastName| && !IsSpace(e.lastName[j])
    requires k < |e.recipient| && !IsSpace(e.recipient[k])
    requires l < |e.department| && !IsSpace(e.department[l])
    requires e.wage == 0.0
    ensures Validate(e) == None
  {
    BlankIsAllSpace(e.firstName);
    BlankIsAllSpace(e.lastName);
    BlankIsAllSpace(e.recipient);
    BlankIsAllSpace(e.department);
  }

  /** The handler test's case: an empty last name with a valid first name
      is rejected with the last-name message. */
  lemma {:induction false} EmptyLastNameRejected(e: Employee)
    requires !Blank(e.firstName) && e.lastName == ""
    ensures Validate(e) == Some(LastNameEmpty)
  {
    BlankIsAllSpace(e.lastName);
  }
}
