/**
 * The new-user dialog (web/src/components/overlay/CreateUserDialog.tsx): the
 * form schema, its default values, and the submit sequence with its loading flag.
 */
module CreateUserDialog {

  /** The form's three fields; the schema admits only strings for each. */
  datatype FormValues = FormValues(user: string, password: string, role: string)

  /** The form's `defaultValues`. */
  const DefaultValues: FormValues := FormValues("", "", "user")

  /** The issues the schema reports, in the order it checks them. */
  datatype Issue =
    | UserTooShort           // `.min(1)`
    | UserInvalidCharacters  // `.regex(...)`, "Username may only include letters, numbers, . or _"
    | RoleNotInEnum          // `z.enum(["user", "admin"])`

  /** The character class `[A-Za-z0-9._]`. */
  predicate UsernameChar(c: char) {
    ('A' <= c <= 'Z') || ('a' <= c <= 'z') || ('0' <= c <= '9') || c == '.' || c == '_'
  }

  /** The anchored pattern `^[A-Za-z0-9._]+$`: one class character, then any number more. */
  function MatchesUsernamePattern(s: string): (m: bool)
    ensures m <==> |s| >= 1 && forall i :: 0 <= i < |s| ==> UsernameChar(s[i])
  {
    |s| >= 1 && UsernameChar(s[0]) && (|s| == 1 || MatchesUsernamePattern(s[1..]))
  }

  predicate RoleInEnum(role: string) {
    role == "user" || role == "admin"
  }

  /**
   * What `formSchema` reports for `v`. The string checks of `user` are not
   * fatal, so an empty name draws both of its issues; `password` has no check.
   */
  function SchemaIssues(v: FormValues): (issues: seq<Issue>)
    ensures UserTooShort in issues <==> |v.user| == 0
    ensures UserTooShort in issues ==> issues[0] == UserTooShort && UserInvalidCharacters in issues
    ensures RoleNotInEnum in issues <==> !RoleInEnum(v.role)
    ensures RoleNotInEnum in issues ==> issues[|issues| - 1] == RoleNotInEnum
  {
    (if |v.user| < 1 then [UserTooShort] else [])
    + (if MatchesUsernamePattern(v.user) then [] else [UserInvalidCharacters])
    + (if RoleInEnum(v.role) then [] else [RoleNotInEnum])
  }

  /** The schema accepts `v` when it reports no issue. */
  predicate Accepts(v: FormValues) {
    SchemaIssues(v) == []
  }

  /**
   * A submission is accepted iff the name is non-empty and made of letters,
   * digits, `.` and `_` only, and the role is "user" or "admin"; the password
   * plays no part.
   */
  lemma AcceptsIff(v: FormValues)
    ensures Accepts(v) <==>
      |v.user| >= 1 && (forall i :: 0 <= i < |v.user| ==> UsernameChar(v.user[i])) && RoleInEnum(v.role)
    ensures forall p: string :: Accepts(v) <==> Accepts(v.(password := p))
  {
  }

  /** A name is refused for its characters exactly when it is empty or holds a character outside the class. */
  lemma InvalidCharactersIff(user: string, password: string, role: string)
    ensures UserInvalidCharacters in SchemaIssues(FormValues(user, password, role)) <==>
      |user| == 0 || exists i :: 0 <= i < |user| && !UsernameChar(user[i])
  {
  }

  /** The default values are refused, for the empty name only: both of its checks fail. */
  lemma DefaultValuesRefused()
    ensures SchemaIssues(DefaultValues) == [UserTooShort, UserInvalidCharacters]
    ensures !Accepts(DefaultValues) && RoleInEnum(DefaultValues.role)
  {
  }

  /** The dialog's form state, its loading flag, and the `onCreate` calls it has made. */
  class CreateUserForm {
    var values: FormValues
    var isLoading: bool
    /** The arguments of every `onCreate` call so far, in call order. */
    var created: seq<FormValues>

    constructor ()
      ensures values == DefaultValues && !isLoading && created == []
    {
      values := DefaultValues;
      isLoading := false;
      created := [];
    }

    /** The create button's `disabled` attribute. */
    predicate CreateButtonDisabled()
      reads this
    {
      isLoading
    }

    /** The user edits the fields. */
    method Edit(v: FormValues)
      modifies this
      ensures values == v && isLoading == old(isLoading) && created == old(created)
    {
      values := v;
    }

    /** The `onCreate` call, made only while the create button is disabled. */
    method CallOnCreate(user: string, password: string, role: string)
      requires CreateButtonDisabled()
      modifies this
      ensures created == old(created) + [FormValues(user, password, role)]
      ensures values == old(values) && isLoading == old(isLoading)
    {
      created := created + [FormValues(user, password, role)];
    }

    /**
     * `onSubmit`: set loading, call `onCreate` with (user, password, role), reset
     * the form, clear loading. When the awaited `onCreate` rejects, the rest of
     * the sequence is skipped: the form keeps its values and stays loading.
     */
    method OnSubmit(v: FormValues, onCreateRejects: bool)
      modifies this
      ensures created == old(created) + [v]
      ensures !onCreateRejects ==> values == DefaultValues && !isLoading && !CreateButtonDisabled()
      ensures onCreateRejects ==> values == old(values) && isLoading
    {
      isLoading := true;
      CallOnCreate(v.user, v.password, v.role);
      if onCreateRejects {
        return;
      }
      values := DefaultValues;
      isLoading := false;
    }

    /** `form.handleSubmit(onSubmit)`: `onSubmit` runs only when the schema accepts the values. */
    method HandleSubmit(onCreateRejects: bool) returns (submitted: bool)
      modifies this
      ensures submitted == Accepts(old(values))
      ensures !submitted ==> values == old(values) && isLoading == old(isLoading) && created == old(created)
      ensures submitted ==> created == old(created) + [old(values)]
      ensures submitted && !onCreateRejects ==> values == DefaultValues && !isLoading
      ensures submitted && onCreateRejects ==> values == old(values) && isLoading
    {
      submitted := Accepts(values);
      if submitted {
        OnSubmit(values, onCreateRejects);
      }
    }

    /**
     * Pressing the create button, the form's only submit control. A disabled
     * button submits nothing, so after a rejected `onCreate` has left the form
     * loading, every further press changes nothing.
     */
    method PressCreate(onCreateRejects: bool) returns (submitted: bool)
      modifies this
      ensures old(CreateButtonDisabled()) ==>
        !submitted && values == old(values) && isLoading == old(isLoading) && created == old(created)
      ensures !old(CreateButtonDisabled()) ==> submitted == Accepts(old(values))
      ensures !submitted ==> values == old(values) && isLoading == old(isLoading) && created == old(created)
      ensures submitted ==> created == old(created) + [old(values)]
      ensures submitted && !onCreateRejects ==> values == DefaultValues && !isLoading
      ensures submitted && onCreateRejects ==> values == old(values) && isLoading && CreateButtonDisabled()
    {
      if CreateButtonDisabled() {
        return false;
      }
      submitted := HandleSubmit(onCreateRejects);
    }
  }
}
