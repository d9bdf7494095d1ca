/**
 The focused accessible object, reduced to what the add-on inspects of it: its role
 and its set of states, and the rule that decides whether it is an editable control.
 */
module Focus {

  /** The roles the add-on names; every other role of the screen reader is OtherRole. */
  datatype Role = EditableText | Document | Terminal | OtherRole

  /** The states the add-on names; every other state is OtherState. */
  datatype State = Editable | ReadOnly | OtherState

  datatype FocusObject = FocusObject(role: Role, states: set<State>)

  /** The roles that count as editable on their own. */
  const EditableRoles: set<Role> := {EditableText, Document, Terminal}

  /** `is_editable`: an editable role or the EDITABLE state, and never READONLY. */
  function IsEditable(obj: FocusObject): (editable: bool)
    ensures ReadOnly in obj.states ==> !editable
    ensures ReadOnly !in obj.states && Editable in obj.states ==> editable
    ensures ReadOnly !in obj.states && !obj.role.OtherRole? ==> editable
    ensures obj.role.OtherRole? && Editable !in obj.states ==> !editable
  {
    (obj.role in EditableRoles || Editable in obj.states) && ReadOnly !in obj.states
  }

  /** A read-only document is not editable. */
  lemma ReadOnlyDocumentIsNotEditable(states: set<State>)
    requires ReadOnly in states
    ensures !IsEditable(FocusObject(Document, states))
  {
  }

  /** A terminal that is not read-only is editable. */
  lemma TerminalIsEditable(states: set<State>)
    requires ReadOnly !in states
    ensures IsEditable(FocusObject(Terminal, states))
  {
  }
}
