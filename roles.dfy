/**
 * Role-name canonicalisation shared by the two dashboard route guards:
 * trim, lowercase, turn every run of underscores and whitespace into one
 * space, trim again.
 */
module Roles {
  import opened Text

  /** A character matched by `[_\s]`. */
  predicate IsSeparator(c: char) { c == '_' || IsSpace(c) }

  /** `s` without its leading run of separators. */
  function SkipSeparators(s: string): (r: string)
    ensures |r| <= |s| && r == s[|s| - |r|..]
    ensures r == [] || !IsSeparator(r[0])
  {
    if s != [] && IsSeparator(s[0]) then SkipSeparators(s[1..]) else s
  }

  /** Only spaces separate words, and never two in a row. */
  predicate SingleSpaced(s: string) {
    s == [] ||
    ((IsSeparator(s[0]) ==> s[0] == ' ' && (|s| == 1 || !IsSeparator(s[1]))) && SingleSpaced(s[1..]))
  }

  /** Any slice of a single-spaced string is single-spaced. */
  lemma {:induction false} SingleSpacedSlice(s: string, i: nat, j: nat)
    requires SingleSpaced(s) && i <= j <= |s|
    ensures SingleSpaced(s[i..j])
    decreases |s|
  {
    if i < j {
      SingleSpacedSlice(s[1..], if i == 0 then 0 else i - 1, j - 1);
      if i == 0 {
        assert s[..j][1..] == s[1..][0..j - 1];
      } else {
        assert s[i..j] == s[1..][i - 1..j - 1];
      }
    }
  }

  /** `.replace(/[_\s]+/g, " ")`. */
  function CollapseSeparators(s: string): string
    decreases |s|
  {
    if s == [] then []
    else if IsSeparator(s[0]) then [' '] + CollapseSeparators(SkipSeparators(s))
    else [s[0]] + CollapseSeparators(s[1..])
  }

  /**
   * The collapsed string is empty only for the empty string, a separator
   * at the front becomes a space, the result is single-spaced, and no
   * upper-case letter is introduced.
   */
  lemma {:induction false} CollapseSeparatorsShape(s: string)
    ensures CollapseSeparators(s) == [] <==> s == []
    ensures s != [] ==> CollapseSeparators(s)[0] == (if IsSeparator(s[0]) then ' ' else s[0])
    ensures SingleSpaced(CollapseSeparators(s))
    ensures IsLowerCase(s) ==> IsLowerCase(CollapseSeparators(s))
    decreases |s|
  {
    if s != [] {
      var r := CollapseSeparators(s);
      var tail := if IsSeparator(s[0]) then SkipSeparators(s) else s[1..];
      CollapseSeparatorsShape(tail);
      assert r[1..] == CollapseSeparators(tail);
      if IsLowerCase(s) {
        assert IsLowerCase(tail) by {
          forall k | 0 <= k < |tail| ensures !IsUpper(tail[k]) {
            assert tail[k] == s[|s| - |tail| + k];
          }
        }
      }
    }
  }

  /** `normalizeRole`. */
  function NormalizeRole(value: string): string {
    Trim(CollapseSeparators(ToLower(Trim(value))))
  }

  /**
   * The canonical form is lower-case, has no whitespace at either end, no
   * underscore, and single spaces between words.
   */
  lemma {:induction false} NormalizeRoleCanonical(value: string)
    ensures IsLowerCase(NormalizeRole(value)) && Trimmed(NormalizeRole(value))
    ensures SingleSpaced(NormalizeRole(value)) && '_' !in NormalizeRole(value)
  {
    CollapseSeparatorsShape(ToLower(Trim(value)));
    TrimKeepsShape(CollapseSeparators(ToLower(Trim(value))));
  }

  /** Trimming a lower-case single-spaced string keeps it so, and it has no underscore. */
  lemma {:induction false} TrimKeepsShape(s: string)
    requires SingleSpaced(s) && IsLowerCase(s)
    ensures SingleSpaced(Trim(s)) && IsLowerCase(Trim(s)) && '_' !in Trim(s)
  {
    TrimKeepsSingleSpaced(s);
    TrimKeepsLowerCase(s);
  }

  lemma {:induction false} TrimKeepsSingleSpaced(s: string)
    requires SingleSpaced(s)
    ensures SingleSpaced(Trim(s))
  {
    var start := LeadingSpaces(s);
    var t := Trim(s);
    TrimIsSlice(s);
    SingleSpacedSlice(s, start, start + |t|);
  }

  lemma {:induction false} TrimKeepsLowerCase(s: string)
    requires SingleSpaced(s) && IsLowerCase(s)
    ensures IsLowerCase(Trim(s)) && '_' !in Trim(s)
  {
    var start := LeadingSpaces(s);
    var t := Trim(s);
    TrimIsSlice(s);
    NoUnderscoreSlice(s, start, start + |t|);
  }

  lemma {:induction false} SingleSpacedNoUnderscore(s: string, k: nat)
    requires SingleSpaced(s) && k < |s|
    ensures s[k] != '_'
  {
    if k > 0 {
      SingleSpacedNoUnderscore(s[1..], k - 1);
    }
  }

  lemma {:induction false} NoUnderscoreSlice(s: string, i: nat, j: nat)
    requires SingleSpaced(s) && IsLowerCase(s) && i <= j <= |s|
    ensures '_' !in s[i..j] && IsLowerCase(s[i..j])
  {
    forall k | 0 <= k < |s|
      ensures s[k] != '_'
    {
      SingleSpacedNoUnderscore(s, k);
    }
  }

  /** A single-spaced string has nothing left to collapse. */
  lemma {:induction false} CollapseOfSingleSpaced(s: string)
    requires SingleSpaced(s)
    ensures CollapseSeparators(s) == s
  {
    if s != [] {
      if IsSeparator(s[0]) {
        assert SkipSeparators(s[1..]) == s[1..];
      }
      CollapseOfSingleSpaced(s[1..]);
      assert s == [s[0]] + s[1..];
    }
  }

  /** Normalising a normalised role changes nothing. */
  lemma {:induction false} NormalizeRoleIdempotent(value: string)
    ensures NormalizeRole(NormalizeRole(value)) == NormalizeRole(value)
  {
    var r := NormalizeRole(value);
    NormalizeRoleCanonical(value);
    TrimOfTrimmed(r);
    ToLowerOfLower(r);
    CollapseOfSingleSpaced(r);
  }

  predicate NoSeparators(s: string) {
    forall k :: 0 <= k < |s| ==> !IsSeparator(s[k])
  }

  predicate AllSeparators(s: string) {
    forall k :: 0 <= k < |s| ==> IsSeparator(s[k])
  }

  /** A leading non-separator is kept as it is. */
  lemma {:induction false} CollapseCons(c: char, rest: string)
    requires !IsSeparator(c)
    ensures CollapseSeparators([c] + rest) == [c] + CollapseSeparators(rest)
  {
    assert ([c] + rest)[1..] == rest;
  }

  /** Collapsing a word with no separators followed by anything keeps the word in front. */
  lemma {:induction false} CollapsePrefix(word: string, rest: string)
    requires NoSeparators(word)
    ensures CollapseSeparators(word + rest) == word + CollapseSeparators(rest)
  {
    if word != [] {
      assert word + rest == [word[0]] + (word[1..] + rest);
      CollapseCons(word[0], word[1..] + rest);
      CollapsePrefix(word[1..], rest);
      assert word == [word[0]] + word[1..];
    } else {
      assert word + rest == rest;
    }
  }

  /** A whole run of separators is skipped at once. */
  lemma {:induction false} SkipRun(run: string, rest: string)
    requires AllSeparators(run) && (rest == [] || !IsSeparator(rest[0]))
    ensures SkipSeparators(run + rest) == rest
  {
    if run != [] {
      assert (run + rest)[1..] == run[1..] + rest;
      SkipRun(run[1..], rest);
    } else {
      assert run + rest == rest;
    }
  }

  /**
   * A run of underscores and whitespace of any length between a word and
   * the rest becomes exactly one space.
   */
  lemma {:induction false} CollapseRun(word: string, run: string, rest: string)
    requires NoSeparators(word) && run != [] && AllSeparators(run)
    requires rest == [] || !IsSeparator(rest[0])
    ensures CollapseSeparators(word + run + rest) == word + " " + CollapseSeparators(rest)
  {
    assert word + run + rest == word + (run + rest);
    CollapsePrefix(word, run + rest);
    SkipRun(run, rest);
    assert (run + rest)[0] == run[0];
  }

  /** A lower-case, trimmed, single-spaced name is its own canonical form. */
  lemma {:induction false} NormalizeRoleOfCanonical(name: string)
    requires IsLowerCase(name) && Trimmed(name) && SingleSpaced(name)
    ensures NormalizeRole(name) == name
  {
    TrimOfTrimmed(name);
    ToLowerOfLower(name);
    CollapseOfSingleSpaced(name);
  }

  /** `s.toLowerCase()` distributes over concatenation. */
  lemma {:induction false} ToLowerConcat(a: string, b: string)
    ensures ToLower(a + b) == ToLower(a) + ToLower(b)
  {
  }

  /** Lower-casing neither creates nor removes a separator. */
  lemma {:induction false} ToLowerSeparators(s: string)
    ensures NoSeparators(s) ==> NoSeparators(ToLower(s))
    ensures AllSeparators(s) ==> AllSeparators(ToLower(s))
  {
  }

  /** A single word without separators normalises to its lower-case form. */
  lemma {:induction false} NormalizeOneWord(word: string)
    requires word != [] && NoSeparators(word)
    ensures NormalizeRole(word) == ToLower(word)
  {
    var lowered := ToLower(word);
    TrimOfTrimmed(word);
    ToLowerSeparators(word);
    CollapsePrefix(lowered, []);
    assert lowered + [] == lowered;
    TrimOfTrimmed(lowered);
  }

  /** Lower-casing three pieces one by one is lower-casing their concatenation. */
  lemma {:induction false} ToLowerConcat3(a: string, b: string, c: string)
    ensures ToLower(a + b + c) == ToLower(a) + ToLower(b) + ToLower(c)
  {
    ToLowerConcat(a + b, c);
    ToLowerConcat(a, b);
  }

  /** Lower-case words around a separator run collapse to the words joined by one space. */
  lemma {:induction false} CollapseTwoWords(a: string, r: string, b: string)
    requires a != [] && b != [] && NoSeparators(a) && NoSeparators(b)
    requires r != [] && AllSeparators(r)
    ensures Trim(CollapseSeparators(a + r + b)) == a + " " + b
  {
    CollapseRun(a, r, b);
    CollapsePrefix(b, []);
    assert b + [] == b;
    var result := a + " " + b;
    assert result[0] == a[0] && result[|result| - 1] == b[|b| - 1];
    TrimOfTrimmed(result);
  }

  /**
   * Two words joined by any run of underscores and whitespace normalise to
   * the lower-case words joined by one space.
   */
  lemma {:induction false} NormalizeTwoWords(first: string, run: string, second: string)
    requires first != [] && second != [] && NoSeparators(first) && NoSeparators(second)
    requires run != [] && AllSeparators(run)
    ensures NormalizeRole(first + run + second) == ToLower(first) + " " + ToLower(second)
  {
    var name := first + run + second;
    assert name[0] == first[0] && name[|name| - 1] == second[|second| - 1];
    TrimOfTrimmed(name);
    ToLowerConcat3(first, run, second);
    ToLowerSeparators(first);
    ToLowerSeparators(run);
    ToLowerSeparators(second);
    CollapseTwoWords(ToLower(first), ToLower(run), ToLower(second));
  }

  /**
   * A word followed by a run of separators that ends in an underscore (so
   * `trim` keeps it) normalises to the lower-case word: the run collapses to
   * one space and the final `trim` drops it.
   */
  lemma {:induction false} NormalizeTrailingSeparators(word: string, run: string)
    requires word != [] && NoSeparators(word)
    requires run != [] && AllSeparators(run) && run[|run| - 1] == '_'
    ensures NormalizeRole(word + run) == ToLower(word)
  {
    var name := word + run;
    assert name[0] == word[0] && name[|name| - 1] == '_';
    TrimOfTrimmed(name);
    ToLowerConcat(word, run);
    ToLowerSeparators(word);
    ToLowerSeparators(run);
    var a, r := ToLower(word), ToLower(run);
    assert ToLower(Trim(name)) == a + r;
    CollapseRun(a, r, []);
    assert a + r + [] == a + r;
    assert CollapseSeparators(a + r) == a + " ";
    TrimTrailingSpace(a);
  }

  // The role names below are written as word + separator + word, the shape
  // `NormalizeTwoWords` is about.

  lemma {:induction false} LowerRoleWords()
    ensures ToLower("SUPER") == "super" && ToLower("ADMIN") == "admin"
    ensures ToLower("Super") == "super" && ToLower("Admin") == "admin"
    ensures ToLower("HR") == "hr" && ToLower("Manager") == "manager"
    ensures ToLower("Employee") == "employee"
  {
  }

  /** The stored constant "SUPER_ADMIN" normalises to "super admin". */
  lemma {:induction false} SuperAdminConstant(role: string)
    requires role == "SUPER" + "_" + "ADMIN"
    ensures NormalizeRole(role) == "super" + " " + "admin"
  {
    NormalizeTwoWords("SUPER", "_", "ADMIN");
    LowerRoleWords();
  }

  /** The display name "Super Admin" normalises to "super admin". */
  lemma {:induction false} SuperAdminName(name: string)
    requires name == "Super" + " " + "Admin"
    ensures NormalizeRole(name) == "super" + " " + "admin"
  {
    NormalizeTwoWords("Super", " ", "Admin");
    LowerRoleWords();
  }

  /** "HR Manager" normalises to "hr manager". */
  lemma {:induction false} HrManagerName(name: string)
    requires name == "HR" + " " + "Manager"
    ensures NormalizeRole(name) == "hr" + " " + "manager"
  {
    NormalizeTwoWords("HR", " ", "Manager");
    LowerRoleWords();
  }

  /** "Employee" normalises to "employee". */
  lemma {:induction false} EmployeeName(name: string)
    requires name == "Employee"
    ensures NormalizeRole(name) == "employee"
  {
    NormalizeOneWord(name);
    LowerRoleWords();
  }
}
