/**
 * The application header: the user shown in it (read from storage on load
 * and on every auth update), the avatar initials, the home link, and when
 * the header is hidden.
 */
module AppHeader {
  import opened Text
  import opened Js
  import opened Roles

  // ---------------------------------------------------------------------
  // Words of a name

  predicate NoSpace(s: string) {
    forall i :: 0 <= i < |s| ==> !IsSpace(s[i])
  }

  /** The longest prefix of `s` without whitespace; non-empty when `s` starts with a non-space. */
  function TakeWord(s: string): (w: string)
    ensures |w| <= |s|
    ensures s != [] && !IsSpace(s[0]) ==> w != []
  {
    if s == [] || IsSpace(s[0]) then [] else [s[0]] + TakeWord(s[1..])
  }

  /** The word taken is a prefix of `s` and is followed by whitespace or the end. */
  lemma {:induction false} TakeWordShape(s: string)
    ensures TakeWord(s) == s[..|TakeWord(s)|] && NoSpace(TakeWord(s))
    ensures |TakeWord(s)| < |s| ==> IsSpace(s[|TakeWord(s)|])
  {
    if s != [] && !IsSpace(s[0]) {
      TakeWordShape(s[1..]);
    }
  }

  /**
   * `s.trim().split(/\s+/).filter(Boolean)`: the maximal runs of
   * non-whitespace characters of `s`, in order.
   */
  function Words(s: string): seq<string>
    decreases |s|
  {
    if s == [] then []
    else if IsSpace(s[0]) then Words(s[1..])
    else
      var w := TakeWord(s);
      [w] + Words(s[|w|..])
  }

  /** No word is empty or holds whitespace, and there are none exactly when `s` is blank. */
  lemma {:induction false} WordsShape(s: string)
    ensures forall i :: 0 <= i < |Words(s)| ==> Words(s)[i] != [] && NoSpace(Words(s)[i])
    ensures Words(s) == [] <==> AllSpace(s)
    decreases |s|
  {
    if s != [] {
      if IsSpace(s[0]) {
        WordsShape(s[1..]);
        assert AllSpace(s) <==> AllSpace(s[1..]);
      } else {
        var w := TakeWord(s);
        TakeWordShape(s);
        WordsShape(s[|w|..]);
        assert !AllSpace(s);
      }
    }
  }

  /** `words.join(" ")`. */
  function JoinWords(ws: seq<string>): string {
    if ws == [] then "" else if |ws| == 1 then ws[0] else ws[0] + " " + JoinWords(ws[1..])
  }

  lemma {:induction false} TakeWordOfJoined(w: string, rest: string)
    requires NoSpace(w) && (rest == [] || IsSpace(rest[0]))
    ensures TakeWord(w + rest) == w
  {
    if w == [] {
      assert w + rest == rest;
    } else {
      assert (w + rest)[1..] == w[1..] + rest;
      TakeWordOfJoined(w[1..], rest);
      assert w == [w[0]] + w[1..];
    }
  }

  /** Splitting words joined by single spaces gives the words back. */
  lemma {:induction false} WordsOfJoinWords(ws: seq<string>)
    requires forall i :: 0 <= i < |ws| ==> ws[i] != [] && NoSpace(ws[i])
    ensures Words(JoinWords(ws)) == ws
  {
    if ws != [] {
      var w := ws[0];
      var rest := if |ws| == 1 then "" else " " + JoinWords(ws[1..]);
      var s := JoinWords(ws);
      assert s == w + rest;
      assert s[0] == w[0];
      TakeWordOfJoined(w, rest);
      assert s[|w|..] == rest;
      assert Words(s) == [w] + Words(rest);
      if |ws| > 1 {
        WordsOfJoinWords(ws[1..]);
        assert rest[1..] == JoinWords(ws[1..]);
        assert ws == [w] + ws[1..];
      }
    }
  }

  // ---------------------------------------------------------------------
  // Initials, display and navigation

  /**
   * `initials`: "U" for an empty name; otherwise the first character of the
   * first word (or "U" when there is none) followed, when there are at
   * least two words, by the first character of the last word, upper-cased.
   */
  function Initials(name: string): string {
    if name == "" then "U"
    else
      var parts := Words(name);
      WordsShape(name);
      var first := if |parts| > 0 then [parts[0][0]] else "U";
      var last := if |parts| > 1 then [parts[|parts| - 1][0]] else "";
      ToUpper(first + last)
  }

  /**
   * A blank name shows "U"; any other shows one initial per word up to two:
   * the first word's first character and, with more words, the last word's.
   */
  lemma {:induction false} InitialsShape(name: string)
    ensures AllSpace(name) ==> Initials(name) == "U"
    ensures |Words(name)| == 1 ==>
      Words(name)[0] != [] && Initials(name) == [Upper(Words(name)[0][0])]
    ensures |Words(name)| > 1 ==>
      Words(name)[0] != [] && Words(name)[|Words(name)| - 1] != [] &&
      Initials(name) == [Upper(Words(name)[0][0]), Upper(Words(name)[|Words(name)| - 1][0])]
  {
    WordsShape(name);
    if name != "" && AllSpace(name) {
      assert ToUpper("U") == "U";
    }
  }

  /** A first and a last name give the two upper-cased initials; middle names do not count. */
  lemma {:induction false} InitialsOfFullName(first: string, middle: seq<string>, last: string)
    requires first != [] && NoSpace(first) && last != [] && NoSpace(last)
    requires forall i :: 0 <= i < |middle| ==> middle[i] != [] && NoSpace(middle[i])
    ensures Initials(JoinWords([first] + middle + [last])) == [Upper(first[0]), Upper(last[0])]
  {
    var ws := [first] + middle + [last];
    assert ws[0] == first && ws[|ws| - 1] == last;
    assert forall i :: 0 <= i < |ws| ==> ws[i] != [] && NoSpace(ws[i]) by {
      forall i | 0 <= i < |ws|
        ensures ws[i] != [] && NoSpace(ws[i])
      {
        if 0 < i < |ws| - 1 {
          assert ws[i] == middle[i - 1];
        }
      }
    }
    var name := JoinWords(ws);
    WordsOfJoinWords(ws);
    InitialsShape(name);
  }

  /** `user.name || "Account"`. */
  function DisplayName(name: string): (shown: string)
    ensures shown != ""
    ensures name != "" ==> shown == name
  {
    OrString(name, "Account")
  }

  /** `user.role || "User"`. */
  function DisplayRole(role: string): (shown: string)
    ensures shown != ""
    ensures role != "" ==> shown == role
  {
    OrString(role, "User")
  }

  /** `isEmployeeRole`: the trimmed, lower-cased role is "employee"; underscores are not collapsed. */
  predicate IsEmployeeRole(role: string) {
    ToLower(Trim(role)) == "employee"
  }

  /** `homePath`. */
  function HomePath(role: string): (path: string)
    ensures path == "/employee/dashboard" <==> IsEmployeeRole(role)
    ensures path == "/dashboard" <==> !IsEmployeeRole(role)
  {
    if IsEmployeeRole(role) then "/employee/dashboard" else "/dashboard"
  }

  /** A role the header treats as an employee is one the route guards normalise to "employee". */
  lemma {:induction false} EmployeeRoleNormalises(role: string)
    requires IsEmployeeRole(role)
    ensures NormalizeRole(role) == "employee"
  {
    var lowered := ToLower(Trim(role));
    assert NoSeparators(lowered);
    CollapsePrefix(lowered, []);
    assert lowered + [] == lowered;
    TrimOfTrimmed(lowered);
  }

  /**
   * The converse fails: with an underscore appended, an employee role still
   * normalises to "employee" for the route guards, but the header no longer
   * treats it as an employee role.
   */
  lemma {:induction false} TrailingUnderscoreNotEmployeeInHeader(word: string)
    requires NoSeparators(word) && IsEmployeeRole(word)
    ensures NormalizeRole(word + "_") == "employee"
    ensures !IsEmployeeRole(word + "_")
  {
    TrimOfTrimmed(word);
    assert |word| == |"employee"|;
    NormalizeTrailingSeparators(word, "_");
    var role := word + "_";
    assert role[0] == word[0] && role[|role| - 1] == '_';
    TrimOfTrimmed(role);
  }

  /** `hiddenPaths` and the token gate: the header is shown only with a token and off "/" and "/login". */
  predicate HeaderShown(hasToken: bool, pathname: string) {
    hasToken && pathname != "/" && pathname != "/login"
  }

  /** The `user` state of the header. */
  datatype UserInfo = UserInfo(name: string, role: string, hasToken: bool)

  class Header {
    var user: UserInfo

    constructor ()
      ensures user == UserInfo("", "", false)
    {
      user := UserInfo("", "", false);
    }

    /**
     * `loadUser`: the stored name when non-empty, otherwise the trimmed
     * "first last"; the stored role or ""; a token present and non-empty.
     * With no name, first or last name at all, the name is empty, so the
     * header shows "Account" with initials "U".
     */
    method LoadUser(token: Option<string>, name: Option<string>, firstName: Option<string>,
                    lastName: Option<string>, role: Option<string>)
      modifies this
      ensures Truthy(name) ==> user.name == name.value
      ensures !Truthy(name) ==> user.name == Trim(OptionOr(firstName, "") + " " + OptionOr(lastName, ""))
      ensures user.role == OptionOr(role, "")
      ensures user.hasToken <==> Truthy(token)
      ensures !Truthy(token) ==> forall pathname :: !Shown(pathname)
      ensures Truthy(token) ==> forall pathname :: Shown(pathname) <==> pathname != "/" && pathname != "/login"
      ensures !Truthy(name) && !Truthy(firstName) && !Truthy(lastName) ==>
        user.name == "" && DisplayName(user.name) == "Account" && Initials(user.name) == "U"
    {
      var derivedName := Trim(OptionOr(firstName, "") + " " + OptionOr(lastName, ""));
      if !Truthy(firstName) && !Truthy(lastName) {
        assert OptionOr(firstName, "") + " " + OptionOr(lastName, "") == " ";
        assert Trim(" ") == "";
      }
      user := UserInfo(OrString(OptionOr(name, ""), derivedName), OptionOr(role, ""), Truthy(token));
    }

    /** The header renders exactly when a token was loaded and the path is not "/" or "/login". */
    predicate Shown(pathname: string)
      reads this
    {
      HeaderShown(user.hasToken, pathname)
    }
  }
}
