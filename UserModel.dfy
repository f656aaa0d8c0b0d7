/**
 * The user document (app/models/user.py): its `full_name` property and
 * the serialisation that writes the id as a string.
 */
module UserModel {
  import opened Domain

  /** A user. `id` is the ObjectId as its string form, absent before the first save. */
  datatype User = User(
    id: Option<string>,
    email: string,
    hashedPassword: string,
    firstName: Option<string>,
    lastName: Option<string>,
    isActive: bool,
    createdAt: int,
    updatedAt: int)

  /** Python truthiness of an optional string: present and not empty. */
  predicate Truthy(s: Option<string>)
  {
    s.Some? && s.value != ""
  }

  /** `full_name`. */
  function FullName(u: User): string
  {
    if Truthy(u.firstName) && Truthy(u.lastName) then u.firstName.value + " " + u.lastName.value
    else if Truthy(u.firstName) then u.firstName.value
    else ""
  }

  /**
   * The full name is empty exactly when there is no first name, a last
   * name alone included; it always begins with the first name, and with
   * a last name it continues with one space and the last name.
   */
  lemma FullNameParts(u: User)
    ensures FullName(u) == "" <==> !Truthy(u.firstName)
    ensures Truthy(u.firstName) ==> u.firstName.value <= FullName(u)
    ensures Truthy(u.firstName) && Truthy(u.lastName) ==>
              var n := |u.firstName.value|;
              |FullName(u)| == n + 1 + |u.lastName.value| && FullName(u)[n] == ' ' && FullName(u)[n + 1..] == u.lastName.value
    ensures Truthy(u.firstName) && !Truthy(u.lastName) ==> FullName(u) == u.firstName.value
  {
    if Truthy(u.firstName) && Truthy(u.lastName) {
      var f, l := u.firstName.value, u.lastName.value;
      assert FullName(u) == f + " " + l;
      assert FullName(u)[|f| + 1..] == l;
    }
  }

  /** A field of the serialised user. An id is dumped as the ObjectId itself. */
  datatype DumpValue = TextValue(s: string) | IdValue(hex: string) | FlagValue(b: bool) | TimeValue(t: int) | NoValue

  function IdOrNone(id: Option<string>): DumpValue
  {
    if id.Some? then IdValue(id.value) else NoValue
  }

  function TextOrNone(s: Option<string>): DumpValue
  {
    if s.Some? then TextValue(s.value) else NoValue
  }

  /** The inherited serialisation: every field of the document under its name. */
  function FieldsOf(u: User): map<string, DumpValue>
  {
    map["id" := IdOrNone(u.id),
        "email" := TextValue(u.email),
        "hashed_password" := TextValue(u.hashedPassword),
        "first_name" := TextOrNone(u.firstName),
        "last_name" := TextOrNone(u.lastName),
        "is_active" := FlagValue(u.isActive),
        "created_at" := TimeValue(u.createdAt),
        "updated_at" := TimeValue(u.updatedAt)]
  }

  /** The id written as its string form, when there is one. */
  function WithTextId(data: map<string, DumpValue>, id: Option<string>): map<string, DumpValue>
  {
    if id.Some? then data["id" := TextValue(id.value)] else data
  }

  /**
   * `model_dump` as written: `exclude` is taken out of the keyword
   * arguments and then dropped, so every field is written whatever it
   * names; the id is written as its string.
   */
  function ModelDumpAsWritten(u: User, exclude: set<string>): (data: map<string, DumpValue>)
    ensures data.Keys == FieldsOf(u).Keys
    ensures data["id"] == (if u.id.Some? then TextValue(u.id.value) else NoValue)
    ensures forall k :: k in data && k != "id" ==> data[k] == FieldsOf(u)[k]
  {
    WithTextId(FieldsOf(u), u.id)
  }

  /** Asking to leave out the password hash still writes it. */
  lemma ExcludeIgnored(u: User)
    ensures "hashed_password" in ModelDumpAsWritten(u, {"hashed_password"})
    ensures ModelDumpAsWritten(u, {"hashed_password"})["hashed_password"] == TextValue(u.hashedPassword)
  {
  }

  /**
   * `model_dump` with `exclude` passed on: the named fields are left out,
   * every other field is written, and the id, unless excluded, is written
   * as its string.
   */
  function ModelDump(u: User, exclude: set<string>): (data: map<string, DumpValue>)
    ensures data.Keys == FieldsOf(u).Keys - exclude
    ensures "id" !in exclude ==> data["id"] == (if u.id.Some? then TextValue(u.id.value) else NoValue)
    ensures forall k :: k in data && k != "id" ==> data[k] == FieldsOf(u)[k]
  {
    map k | k in FieldsOf(u) && k !in exclude :: WithTextId(FieldsOf(u), u.id)[k]
  }

  /** Without `exclude` the corrected dump is the one written. */
  lemma ModelDumpAgrees(u: User)
    ensures ModelDump(u, {}) == ModelDumpAsWritten(u, {})
  {
  }
}
