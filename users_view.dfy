/** The team and role cells of the Users view (Users.js lines 105 and 108): the value
    when it is truthy, otherwise a muted '-' placeholder. */
module UsersView {
  import opened Wrappers
  import opened JsValues

  /** What a table cell shows. */
  datatype Cell = Shown(value: Json) | Dash

  /** `value || <span className="text-muted">-</span>`. */
  function PlaceholderCell(value: Option<Json>): (c: Cell)
    ensures c.Dash? <==> !Truthy(value)
    ensures c.Shown? ==> Some(c.value) == value && Truthy(Some(c.value))
  {
    if Truthy(value) then Shown(value.value) else Dash
  }

  /** The cell of a user row showing `user[key] || '-'`: the team cell (`key` "team")
      and the role cell (`key` "role"). */
  function FieldCell(user: Json, key: string): (c: Cell)
    requires !user.JNull?
    ensures c.Dash? <==> !(user.JObj? && key in user.fields && Truthy(Some(user.fields[key])))
    ensures c.Shown? ==> c.value == user.fields[key]
  {
    PlaceholderCell(GetProp(user, key).value)
  }

  /** A row with a non-empty team and role string shows both, never the placeholder. */
  lemma NonEmptyFieldsShown(user: Json, team: string, role: string)
    requires user.JObj? && "team" in user.fields && "role" in user.fields
    requires user.fields["team"] == JStr(team) && team != ""
    requires user.fields["role"] == JStr(role) && role != ""
    ensures FieldCell(user, "team") == Shown(JStr(team)) && FieldCell(user, "role") == Shown(JStr(role))
  {
  }
}
