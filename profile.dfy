/**
 * The profile page: the demo user record, the edit toggle, the form
 * submit that updates name and email, and the avatar's initials.
 */
module Profile {
  import opened JsArray
  import opened JsText

  datatype UserData = UserData(name: string, email: string, avatar: string)

  /** `ProfileFormValues`: what the form submits. */
  datatype ProfileFormValues = ProfileFormValues(name: string, email: string, password: string)

  const InitialUser := UserData("User Name", "user@example.com", "")

  /** `n => n[0]` in the initials: the first character, or `undefined` (joined as "") for an empty part. */
  function FirstChar(part: string): (r: string)
    ensures |r| <= 1 && (part != "" <==> |r| == 1)
    ensures part != "" ==> r[0] == part[0]
  {
    if part == "" then "" else [part[0]]
  }

  /**
   * `name.split(' ').map(n => n[0]).join('')`: the first character of every
   * space-separated part, in order; empty parts (from leading, trailing or
   * doubled spaces) add nothing.
   */
  function Initials(name: string): (r: string)
    ensures r == WordStarts(name, true)
  {
    WordStartsOfSplit(name);
    Join(Map(Split(name, ' '), FirstChar), "")
  }

  /**
   * Reference definition of the initials: scanning left to right, every
   * character other than a space that starts the string or follows a space.
   */
  function WordStarts(s: string, afterSpace: bool): string {
    if s == [] then []
    else (if s[0] != ' ' && afterSpace then [s[0]] else []) + WordStarts(s[1..], s[0] == ' ')
  }

  lemma JoinEmptyCons(x: string, rest: seq<string>)
    ensures Join([x] + rest, "") == x + Join(rest, "")
  {
    if rest != [] {
      assert ([x] + rest)[1..] == rest;
    }
  }

  lemma {:induction false} WordStartsOfSplit(s: string)
    ensures WordStarts(s, true) == Join(Map(Split(s, ' '), FirstChar), "")
    ensures WordStarts(s, false) == Join(Map(Split(s, ' ')[1..], FirstChar), "")
  {
    if s != [] {
      var rest := Split(s[1..], ' ');
      WordStartsOfSplit(s[1..]);
      if s[0] == ' ' {
        assert Split(s, ' ') == [""] + rest;
        assert Map([""] + rest, FirstChar) == [""] + Map(rest, FirstChar);
        JoinEmptyCons("", Map(rest, FirstChar));
      } else {
        var parts := Split(s, ' ');
        assert parts == [[s[0]] + rest[0]] + rest[1..];
        assert parts[1..] == rest[1..];
        assert Map(parts, FirstChar) == [[s[0]]] + Map(rest[1..], FirstChar);
        JoinEmptyCons([s[0]], Map(rest[1..], FirstChar));
      }
    }
  }

  /** The default user's initials. */
  lemma InitialUserInitials()
    ensures Initials(InitialUser.name) == "UN"
  {
    UserNameWordStarts();
  }

  /** The scan over the default user's name, one word at a time. */
  lemma UserNameWordStarts()
    ensures WordStarts(InitialUser.name, true) == "UN"
  {
    var first, last := "User", "Name";
    assert InitialUser.name == first + ([' '] + last);
    assert first[0] == 'U' && first[1] != ' ' && first[2] != ' ' && first[3] != ' ';
    assert last[0] == 'N' && last[1] != ' ' && last[2] != ' ' && last[3] != ' ';
    WordThenSpace(first, [' '] + last, true);
    assert ([' '] + last)[1..] == last;
    WordThenSpace(last, [], true);
    assert last + [] == last;
  }

  /** A word without spaces contributes its first character, if the scan is at a word start, and nothing else. */
  lemma {:induction false} WordThenSpace(w: string, rest: string, afterSpace: bool)
    requires w != [] && forall k :: 0 <= k < |w| ==> w[k] != ' '
    requires rest == [] || rest[0] == ' '
    ensures WordStarts(w + rest, afterSpace) == (if afterSpace then [w[0]] else []) + WordStarts(if rest == [] then [] else rest[1..], true)
  {
    var x := w + rest;
    assert x[0] == w[0];
    if |w| == 1 {
      assert x[1..] == rest;
    } else {
      assert x[1..] == w[1..] + rest;
      WordThenSpace(w[1..], rest, false);
    }
  }

  /** The `Profile` page's state. */
  class ProfilePage {
    var isEditing: bool
    var userData: UserData
    /** The form's `defaultValues`, taken from the user record at mount. */
    const formDefaults: ProfileFormValues

    constructor ()
      ensures !isEditing && userData == InitialUser
      ensures formDefaults == ProfileFormValues(InitialUser.name, InitialUser.email, "")
    {
      isEditing := false;
      userData := InitialUser;
      formDefaults := ProfileFormValues(InitialUser.name, InitialUser.email, "");
    }

    /** The Edit / Save button in the header. */
    method ToggleEditing()
      modifies this`isEditing
      ensures isEditing == !old(isEditing)
    {
      isEditing := !isEditing;
    }

    /**
     * `onSubmit(data)`: name and email are replaced, the avatar kept, the
     * password dropped (the record has no place for it), and editing ends.
     */
    method OnSubmit(data: ProfileFormValues)
      modifies this
      ensures userData == UserData(data.name, data.email, old(userData.avatar))
      ensures !isEditing
    {
      userData := userData.(name := data.name, email := data.email);
      isEditing := false;
    }

    /** The avatar fallback text. */
    function AvatarInitials(): (r: string)
      reads this
      ensures r == WordStarts(userData.name, true)
    {
      Initials(userData.name)
    }
  }
}
